# sensor_manager_android — a Dafny model of the native side

sensor_manager_android is a Flutter plugin that exposes Android's `SensorManager` to
Dart code. Its native half, written in Kotlin, has four parts:

- it answers method calls: sensor lists, the default sensor, dynamic-sensor support;
- it opens one event channel per sensor-type code, named after the type's Android
  identifier;
- it attaches stream handlers to those channels: continuous readings, one-shot
  triggers, dynamic-sensor hot-plug;
- it turns sensors and events into key-value records whose shape depends on the
  platform's SDK level.

This project models that core and proves what it promises. It is laid out one module
per source file:

- `SensorTypes` (`sensor_types.dfy`) models the type-code → identifier table `setType`
  and the channel name built from it. `TypeCode` is its reverse.
- `HelperFunctions` (`helper_functions.dfy`) models `sensorToJson`,
  `sensorEventToJson` and `triggerEventToJson`. Values use a small JSON-like `Value`
  type. `SensorFromJson` and `LegacyFromJson` read a record back.
- `Platform` (`platform.dfy`) holds the collaborators the code calls into, reduced to
  what it observes:
  - `SensorManager`, a class holding the set of active registrations plus a `Device`
    value that answers queries;
  - `EventSink`, a class recording every payload it is sent.
- `ContinuousStream`, `TriggerStream` and `HotPlugStream` are the three stream-handler
  classes. Each has its nullable `eventSink` field and its listen, cancel and callback
  methods, and each ends with a listen–deliver–cancel scenario method.
- `Registry` (`registry.dfy`) is the channel registry as a state machine over values:
  the channel map, the dynamic-callback slot and whether calls are dispatched. `Step`
  and `Run` drive it; a call takes effect only while calls are dispatched. `WellFormed`
  is an invariant it preserves.
- `Plugin` (`plugin.dfy`) is the `SensorManagerAndroidPlugin` class. Each of its
  state-changing methods is proved to move the class's state (`Shape()`) exactly as
  `Registry.Step` does. `onMethodCall` is proved to reply exactly as the `Respond`
  function says.
- `Wrappers` (`Option`) and `Collections` (extensionality facts about integer sets
  and maps) are helpers.

The SDK level (`Build.VERSION.SDK_INT`) is a parameter of every operation that reads
it. SDK levels and sensor codes are the Android SDK's own values:

- `JELLY_BEAN_MR2` = 18, `LOLLIPOP` = 21, `N` = 24;
- `TYPE_ALL` = -1;
- `SENSOR_DELAY_NORMAL` = 3.

Source paths below are relative to the repository root.

## Model

| member | source | states |
|---|---|---|
| SensorTypes.UnknownFallback | android/src/main/kotlin/com/example/sensor_manager_android/SensorManagerAndroidPlugin.kt:143-238 | `setType` gives exactly "Unknown" for a code if and only if the code is not one of the 26 listed codes |
| SensorTypes.LiteralRows | android/src/main/kotlin/com/example/sensor_manager_android/SensorManagerAndroidPlugin.kt:208-213 | code 22 maps to "android.sensor.tilt_detector" and code 23 to "android.sensor.wake_gesture" |
| SensorTypes.IdentifierRoundTrip | android/src/main/kotlin/com/example/sensor_manager_android/SensorManagerAndroidPlugin.kt:143-238 | the reverse table recovers every listed code from its identifier, and no code from an unlisted code's identifier; so listed codes have pairwise distinct identifiers, none of them "Unknown" |
| SensorTypes.ChannelNameInjective | android/src/main/kotlin/com/example/sensor_manager_android/SensorManagerAndroidPlugin.kt:131-135 | two different listed codes never get the same event-channel name (prefix + identifier) |
| SensorTypes.UnknownTypesShareChannel | android/src/main/kotlin/com/example/sensor_manager_android/SensorManagerAndroidPlugin.kt:131-135 | every unlisted code gets the same channel name, "com.switches/sensor_manager_android/Unknown" |
| HelperFunctions.FullSensorRecordKeys | android/src/main/kotlin/com/example/sensor_manager_android/HelperFunctions.kt:29-48 | from SDK level N on, a sensor record has exactly the 16 full keys, including `stringType`, `id` and `isWakeUpSensor` |
| HelperFunctions.LegacySensorRecordKeys | android/src/main/kotlin/com/example/sensor_manager_android/HelperFunctions.kt:49-61 | below SDK level N, a sensor record has exactly 8 keys, a strict subset of the full key set |
| HelperFunctions.SensorRoundTrip | android/src/main/kotlin/com/example/sensor_manager_android/HelperFunctions.kt:30-48 | from SDK level N on, reading a sensor record back gives the sensor: the record loses no attribute |
| HelperFunctions.LegacyRoundTrip | android/src/main/kotlin/com/example/sensor_manager_android/HelperFunctions.kt:29-61 | at every SDK level the record keeps the eight legacy attributes; below N two sensors have equal records if and only if they agree on those eight |
| HelperFunctions.SensorEventRecordShape | android/src/main/kotlin/com/example/sensor_manager_android/HelperFunctions.kt:9-16 | a sensor-event record has exactly the keys sensor, accuracy, timestamp and values; sensor is the sensor's record and values the event's values unchanged |
| HelperFunctions.TriggerEventRecordShape | android/src/main/kotlin/com/example/sensor_manager_android/HelperFunctions.kt:19-26 | a trigger-event record has exactly sensor, timestamp and values, no accuracy; sensor is the sensor's record and values the event's values unchanged |
| ContinuousStream.AccuracyRecordExtendsSensorRecord | android/src/main/kotlin/com/example/sensor_manager_android/SensorStreamHandler.kt:35-41 | the accuracy payload is the sensor record plus one new key `newAccuracy` holding the accuracy; removing it gives the sensor record back |
| ContinuousStream.SensorStreamHandler.constructor | android/src/main/kotlin/com/example/sensor_manager_android/SensorStreamHandler.kt:12-17 | a new handler keeps its manager, type and interval and holds no sink |
| ContinuousStream.SensorStreamHandler.OnListen | android/src/main/kotlin/com/example/sensor_manager_android/SensorStreamHandler.kt:19-23 | stores the given sink and adds exactly one registration: this listener, its type, its stored interval |
| ContinuousStream.SensorStreamHandler.OnCancel | android/src/main/kotlin/com/example/sensor_manager_android/SensorStreamHandler.kt:25-29 | removes every listener registration of this handler for its type, nothing else, and leaves the sink null |
| ContinuousStream.SensorStreamHandler.OnSensorChanged | android/src/main/kotlin/com/example/sensor_manager_android/SensorStreamHandler.kt:31-33 | while a sink is held, appends exactly the event's record, or null for a null event |
| ContinuousStream.SensorStreamHandler.OnAccuracyChanged | android/src/main/kotlin/com/example/sensor_manager_android/SensorStreamHandler.kt:35-41 | while a sink is held, appends the accuracy record for a non-null sensor and nothing for a null one |
| ContinuousStream.ListenDeliverCancel | android/src/main/kotlin/com/example/sensor_manager_android/SensorStreamHandler.kt:19-41 | listen, three readings, cancel, a fourth reading and an accuracy change: the sink holds exactly the first three records in order, and no registration is left |
| TriggerStream.SensorTriggerEventListener.constructor | android/src/main/kotlin/com/example/sensor_manager_android/SensorTriggerEventListener.kt:13-17 | a new listener keeps its manager and type and holds no sink |
| TriggerStream.SensorTriggerEventListener.OnListen | android/src/main/kotlin/com/example/sensor_manager_android/SensorTriggerEventListener.kt:19-25 | stores the given sink and adds exactly the trigger request of this listener for its type |
| TriggerStream.SensorTriggerEventListener.OnCancel | android/src/main/kotlin/com/example/sensor_manager_android/SensorTriggerEventListener.kt:27-30 | nulls the sink, then removes exactly this listener's trigger request |
| TriggerStream.SensorTriggerEventListener.OnTrigger | android/src/main/kotlin/com/example/sensor_manager_android/SensorTriggerEventListener.kt:32-34 | while a sink is held, appends exactly the trigger's record, or null for a null event |
| TriggerStream.ListenTriggerCancel | android/src/main/kotlin/com/example/sensor_manager_android/SensorTriggerEventListener.kt:19-34 | listen, a null trigger, a trigger, cancel, a late trigger: the sink holds exactly null and the first record, and no request is left pending |
| HotPlugStream.ConnectivityRecordShape | android/src/main/kotlin/com/example/sensor_manager_android/DynamicSensorCallback.kt:16-32 | connect and disconnect payloads are the sensor record plus `isConnected` (true or false); they differ only in that key |
| HotPlugStream.DynamicSensorCallback.constructor | android/src/main/kotlin/com/example/sensor_manager_android/DynamicSensorCallback.kt:13-15 | a new callback keeps its manager and holds no sink |
| HotPlugStream.DynamicSensorCallback.OnDynamicSensorConnected | android/src/main/kotlin/com/example/sensor_manager_android/DynamicSensorCallback.kt:16-23 | while a sink is held, appends the connect record for a non-null sensor and nothing for a null one |
| HotPlugStream.DynamicSensorCallback.OnDynamicSensorDisconnected | android/src/main/kotlin/com/example/sensor_manager_android/DynamicSensorCallback.kt:25-32 | while a sink is held, appends the disconnect record for a non-null sensor and nothing for a null one |
| HotPlugStream.DynamicSensorCallback.OnListen | android/src/main/kotlin/com/example/sensor_manager_android/DynamicSensorCallback.kt:34-39 | stores the given sink and adds exactly this callback's registration |
| HotPlugStream.DynamicSensorCallback.OnCancel | android/src/main/kotlin/com/example/sensor_manager_android/DynamicSensorCallback.kt:41-45 | removes exactly this callback's registration and leaves the sink null |
| HotPlugStream.ListenHotPlugCancel | android/src/main/kotlin/com/example/sensor_manager_android/DynamicSensorCallback.kt:16-45 | listen, a connect, a null disconnect, cancel, a disconnect: the sink holds exactly the connect record, and the callback is no longer registered |
| Registry.StepPreservesWellFormed | android/src/main/kotlin/com/example/sensor_manager_android/SensorManagerAndroidPlugin.kt:31-141 | attach, any method call and detach keep the registry well formed: each mapped channel is named after its key, any handler on it serves that key's type, and the dynamic slot holds only the hot-plug channel |
| Registry.RunPreservesWellFormed | android/src/main/kotlin/com/example/sensor_manager_android/SensorManagerAndroidPlugin.kt:31-141 | no sequence of attaches, calls and detaches breaks that invariant |
| Registry.RegisterListenerEffect | android/src/main/kotlin/com/example/sensor_manager_android/SensorManagerAndroidPlugin.kt:131-141 | `getSensorEvents` leaves one channel per type: it adds the key only if absent, keeps an existing channel's name, always installs a continuous handler with the given interval, and changes no other key |
| Registry.RegisterListenerIdempotent | android/src/main/kotlin/com/example/sensor_manager_android/SensorManagerAndroidPlugin.kt:131-141 | registering the same listener twice leaves the registry as registering it once |
| Registry.RequestTriggerIdempotent | android/src/main/kotlin/com/example/sensor_manager_android/SensorManagerAndroidPlugin.kt:106-117 | a second trigger request for the same type changes nothing |
| Registry.SharedChannelMap | android/src/main/kotlin/com/example/sensor_manager_android/SensorManagerAndroidPlugin.kt:106-141 | the map is shared: a trigger request after a listener registration for the same type installs nothing; a listener registration after a trigger request gives the same registry as the listener registration alone |
| Registry.ArgumentDefaults | android/src/main/kotlin/com/example/sensor_manager_android/SensorManagerAndroidPlugin.kt:87-117 | a call without arguments works on type `TYPE_ALL`, and a listener gets interval `SENSOR_DELAY_NORMAL` |
| Registry.UnknownMethodNoEffect | android/src/main/kotlin/com/example/sensor_manager_android/SensorManagerAndroidPlugin.kt:118-120 | a method name the plugin does not know leaves the registry unchanged |
| Registry.DetachClearsHandlers | android/src/main/kotlin/com/example/sensor_manager_android/SensorManagerAndroidPlugin.kt:126-129 | detaching stops call dispatch, strips the handler of every mapped channel, keeps every channel and name, and leaves the dynamic slot alone |
| Registry.CallsIgnoredAfterDetach | android/src/main/kotlin/com/example/sensor_manager_android/SensorManagerAndroidPlugin.kt:126-127 | after a detach a method call changes nothing, because the method channel no longer dispatches to the plugin; after an attach a call has its full effect |
| Registry.DynamicHandlerNeverInstalledAfterAttach | android/src/main/kotlin/com/example/sensor_manager_android/SensorManagerAndroidPlugin.kt:93-105 | after an attach, whatever the framework does next, the hot-plug channel never has a handler: attaching pre-fills the slot, so `registerDynamicSensorCallback` never installs one |
| Registry.DynamicSlotStaysEmpty | android/src/main/kotlin/com/example/sensor_manager_android/SensorManagerAndroidPlugin.kt:37-38 | once the slot holds the bare hot-plug channel, no sequence of events puts a handler on it |
| Registry.ChannelsComeFromCalls | android/src/main/kotlin/com/example/sensor_manager_android/SensorManagerAndroidPlugin.kt:106-141 | channels are never removed, and every channel present after a run was there before or is the type, after its default, of some `registerListener` or `requestTriggerSensor` call in the run |
| Plugin.SensorRecordsAt | android/src/main/kotlin/com/example/sensor_manager_android/SensorManagerAndroidPlugin.kt:47-51 | the record list has one record per sensor, each that of the sensor at the same position |
| Plugin.SensorRecordsAppend | android/src/main/kotlin/com/example/sensor_manager_android/SensorManagerAndroidPlugin.kt:50 | appending a sensor appends its record |
| Plugin.SensorMapList | android/src/main/kotlin/com/example/sensor_manager_android/SensorManagerAndroidPlugin.kt:48-50 | the `forEach` loop builds exactly the sensors' records, in order |
| Plugin.NotImplementedExactlyForUnknownMethods | android/src/main/kotlin/com/example/sensor_manager_android/SensorManagerAndroidPlugin.kt:42-124 | "not implemented" is the reply if and only if the method name is not one of the eight known ones |
| Plugin.QueryEdgeCases | android/src/main/kotlin/com/example/sensor_manager_android/SensorManagerAndroidPlugin.kt:53-117 | a wake-up default-sensor query below Lollipop answers the empty record; the dynamic list below N is empty; the discovery query below N and the three stream-opening calls never reply |
| Plugin.DefaultSensorQuery | android/src/main/kotlin/com/example/sensor_manager_android/SensorManagerAndroidPlugin.kt:67-86 | the default-sensor query answers the default (or, with a flag from Lollipop on, the wake-up default) sensor's record, and fails exactly when the device has no such sensor |
| Plugin.SensorListReply | android/src/main/kotlin/com/example/sensor_manager_android/SensorManagerAndroidPlugin.kt:47-52 | the sensor-list reply holds one record per sensor of the queried type (`TYPE_ALL` when none is given), position by position |
| Plugin.SensorManagerAndroidPlugin.constructor | android/src/main/kotlin/com/example/sensor_manager_android/SensorManagerAndroidPlugin.kt:23-29 | a new plugin has no channels, an empty map and an empty dynamic slot: the registry's initial state |
| Plugin.SensorManagerAndroidPlugin.OnAttachedToEngine | android/src/main/kotlin/com/example/sensor_manager_android/SensorManagerAndroidPlugin.kt:31-40 | opens the method channel dispatching to the plugin, takes the sensor manager, pre-fills the dynamic slot with a bare hot-plug channel and keeps the map; the state moves as the registry's attach step |
| Plugin.SensorManagerAndroidPlugin.OnDetachedFromEngine | android/src/main/kotlin/com/example/sensor_manager_android/SensorManagerAndroidPlugin.kt:126-129 | stops call dispatch and strips the handler of every channel in the map, keeping names and keys; the dynamic slot is untouched; the state moves as the registry's detach step |
| Plugin.SensorManagerAndroidPlugin.GetSensorEvents | android/src/main/kotlin/com/example/sensor_manager_android/SensorManagerAndroidPlugin.kt:131-141 | opens the type's channel if absent, keeps an existing one's name, installs a new continuous handler with this plugin's manager, the type and the interval (default `SENSOR_DELAY_NORMAL`), and changes no other entry |
| Plugin.SensorManagerAndroidPlugin.OnMethodCall | android/src/main/kotlin/com/example/sensor_manager_android/SensorManagerAndroidPlugin.kt:42-124 | replies exactly as `Respond` says and changes the state exactly as the registry's call step does; every handler it installs is new and uses this plugin's sensor manager; every channel object it does not replace stays the same object: the map changes only for `registerListener`, and for `requestTriggerSensor` on an absent type, and then only at that type; the dynamic slot changes only on a first `registerDynamicSensorCallback` from N on |

## Left out

- The Flutter transport (`MethodChannel`, `EventChannel`, `BinaryMessenger`, `Result`) is not modelled. A channel is a name plus the handler installed on it. A reply is a `Reply` value. The messenger is not represented.
- Android's sensor service is not modelled beyond what the code observes. Which sensors exist and what the queries return are a `Device` value given to the manager. A registration names the sensor-type code whose default sensor was asked for. Trigger sensors' one-shot auto-expiry is the platform's business.
- Whether replacing a channel's stream handler leaves the old handler's native registration alive is not modelled. Replacing only overwrites the map entry.
- `Log` calls are left out.
- Floating-point fields (`maximumRange`, `resolution`, `power`, event values) are opaque 32-bit patterns. Their arithmetic is never used.
- Threading is left out: the model is sequential. Races between a delivery and a cancel are not modelled. So the order of "unregister" and "null the sink" inside each `onCancel` is kept as written but cannot be observed. `SensorTriggerEventListener.onCancel` nulls first; the other two unregister first.
- Method-call arguments are typed: `sensorType` and `interval` are integers and `wakeUp` is a boolean, or absent. An argument of the wrong type, which would throw in the Kotlin code, is not modelled.
- Plugin.DefaultSensorQuery: its wake-up clause rests on an assumption about the compiled Kotlin. The presence test at SensorManagerAndroidPlugin.kt:69 reads `wakeUp` as `Int` and compares it with null. The model assumes that this comparison does not cast the boolean argument to `Integer`, so only the argument's presence matters. If the compiler does insert that cast, every `getDefaultSensor` call that carries `wakeUp` throws a class-cast exception at line 69, and the wake-up record this lemma promises is never produced. `Respond` and `Plugin.SensorManagerAndroidPlugin.OnMethodCall` rest on the same assumption.
- `Plugin.SensorManagerAndroidPlugin.OnMethodCall` requires the sensor manager to be set. The framework dispatches calls only after `onAttachedToEngine` has run, and that assigns it. A call before attach is not modelled.
- `Plugin.SensorManagerAndroidPlugin.OnDetachedFromEngine` requires the method channel to exist, as the Kotlin `lateinit` field demands. Detaching before attaching, which would throw, is not modelled.
- The order in which `forEach` visits the channel map on detach is not modelled. The loop picks keys in an arbitrary order, and the result does not depend on it.
- The reply to `getDefaultSensor` when the device has no default sensor is modelled as the code behaves. `sensorToJson` takes a non-null `Sensor`, so passing it the absent sensor throws a null-pointer exception. The model replies `Thrown`. An absent default sensor is not answered with an empty record; only the wake-up query below Lollipop answers one.
- The pre-filled dynamic slot means `registerDynamicSensorCallback` never installs a handler after attach. This is stated and proved as the code behaves (`Registry.DynamicHandlerNeverInstalledAfterAttach`). It is not treated as a defect.
- `getPlatformVersion` is modelled as "Android " followed by the device's release string, which is part of `Device`.

