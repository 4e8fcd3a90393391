/**
 * The plugin's channel registry seen as a state machine over values: the map from
 * sensor-type code to event channel, the separate dynamic-callback slot and whether
 * the method channel dispatches to the plugin. A channel is its name and a tag for
 * the handler installed on it; which handler object it is does not appear here.
 * `SensorManagerAndroidPlugin` in module Plugin is proved to move exactly as `Step`.
 */
module Registry {
  import opened Wrappers
  import opened SensorTypes
  import opened HelperFunctions
  import opened Platform

  /** Name of the plugin's method channel. */
  const METHOD_CHANNEL_NAME: string := "com.switches/sensor_manager_android"

  /** Name of the hot-plug event channel. */
  const DYNAMIC_CHANNEL_NAME: string := EVENT_CHANNEL_PREFIX + "eventChannelDynamicSensorCallback"

  /** Which kind of stream handler a channel dispatches to, with its parameters. */
  datatype HandlerTag =
    | NoHandler
    | ContinuousTag(sensorType: int, interval: int)
    | TriggerTag(sensorType: int)
    | DynamicTag

  datatype ChannelShape = ChannelShape(name: string, handler: HandlerTag)

  /** The arguments a method call may carry; an absent one is None. */
  datatype Arguments = Arguments(sensorType: Option<int>, interval: Option<int>, wakeUp: Option<bool>)

  datatype MethodCall = MethodCall(name: string, arguments: Arguments)

  datatype RegistryState = RegistryState(
    handlingCalls: bool,
    channels: map<int, ChannelShape>,
    dynamicChannel: Option<ChannelShape>)

  /** What the framework does to the plugin. */
  datatype PluginEvent = Attach | Call(call: MethodCall) | Detach

  const KnownMethods: set<string> := {
    "getPlatformVersion", "getSensorList", "isDynamicSensorDiscoverySupported",
    "getDynamicSensorList", "getDefaultSensor", "registerListener",
    "registerDynamicSensorCallback", "requestTriggerSensor"
  }

  /** The only methods that open an event channel in the map. */
  const ChannelCreatingMethods: set<string> := {"registerListener", "requestTriggerSensor"}

  /** A missing `sensorType` argument reads as `Sensor.TYPE_ALL`. */
  function SensorTypeArgument(arguments: Arguments): int {
    arguments.sensorType.GetOr(TYPE_ALL)
  }

  /** A missing `interval` argument reads as `SENSOR_DELAY_NORMAL`. */
  function IntervalArgument(arguments: Arguments): int {
    arguments.interval.GetOr(SENSOR_DELAY_NORMAL)
  }

  /** `getSensorEvents`: create the channel if absent, then always install a new continuous handler. */
  function RegisterListener(channels: map<int, ChannelShape>, sensorType: int, interval: int): map<int, ChannelShape> {
    var name := if sensorType in channels then channels[sensorType].name else ChannelName(sensorType);
    channels[sensorType := ChannelShape(name, ContinuousTag(sensorType, interval))]
  }

  /** `requestTriggerSensor`: create the channel with a trigger handler only if absent. */
  function RequestTrigger(channels: map<int, ChannelShape>, sensorType: int): map<int, ChannelShape> {
    if sensorType in channels then channels
    else channels[sensorType := ChannelShape(ChannelName(sensorType), TriggerTag(sensorType))]
  }

  /** `registerDynamicSensorCallback`: fill the slot with a hot-plug handler only if it is empty. */
  function RegisterDynamic(slot: Option<ChannelShape>): Option<ChannelShape> {
    if slot.None? then Some(ChannelShape(DYNAMIC_CHANNEL_NAME, DynamicTag)) else slot
  }

  /** `onDetachedFromEngine`: every channel in the map loses its handler. */
  function ClearHandlers(channels: map<int, ChannelShape>): map<int, ChannelShape> {
    map k | k in channels :: channels[k].(handler := NoHandler)
  }

  /** The effect of one method call on the registry at SDK level `sdk`. */
  function CallEffect(s: RegistryState, call: MethodCall, sdk: int): RegistryState {
    if call.name == "registerListener" then
      s.(channels := RegisterListener(s.channels, SensorTypeArgument(call.arguments), IntervalArgument(call.arguments)))
    else if call.name == "registerDynamicSensorCallback" && sdk >= N then
      s.(dynamicChannel := RegisterDynamic(s.dynamicChannel))
    else if call.name == "requestTriggerSensor" && sdk >= JELLY_BEAN_MR2 then
      s.(channels := RequestTrigger(s.channels, SensorTypeArgument(call.arguments)))
    else
      s
  }

  /** `onAttachedToEngine`: dispatch calls to the plugin and fill the dynamic slot with a bare channel. */
  function AttachEffect(s: RegistryState): RegistryState {
    s.(handlingCalls := true, dynamicChannel := EmptyDynamicSlot)
  }

  /** `onDetachedFromEngine`: stop dispatching calls and strip the handler of every mapped channel. */
  function DetachEffect(s: RegistryState): RegistryState {
    s.(handlingCalls := false, channels := ClearHandlers(s.channels))
  }

  /** One framework event; a call reaches the plugin only while the method channel dispatches to it. */
  function Step(s: RegistryState, e: PluginEvent, sdk: int): RegistryState {
    match e
    case Attach => AttachEffect(s)
    case Call(call) => if s.handlingCalls then CallEffect(s, call, sdk) else s
    case Detach => DetachEffect(s)
  }

  function Run(s: RegistryState, events: seq<PluginEvent>, sdk: int): RegistryState
    decreases |events|
  {
    if events == [] then s else Run(Step(s, events[0], sdk), events[1..], sdk)
  }

  /** The slot as attaching leaves it: the hot-plug channel, with no handler on it. */
  const EmptyDynamicSlot: Option<ChannelShape> := Some(ChannelShape(DYNAMIC_CHANNEL_NAME, NoHandler))

  /** The state before the first attach. */
  const Initial: RegistryState := RegistryState(false, map[], None)

  /**
   * Every channel in the map is named after its key and any handler on it serves
   * that key's type (never the hot-plug handler); the dynamic slot, when filled,
   * holds the hot-plug channel with no handler or the hot-plug handler.
   */
  ghost predicate WellFormed(s: RegistryState) {
    && (forall k | k in s.channels :: ChannelWellFormed(k, s.channels[k]))
    && (s.dynamicChannel.Some? ==>
          && s.dynamicChannel.value.name == DYNAMIC_CHANNEL_NAME
          && s.dynamicChannel.value.handler in {NoHandler, DynamicTag})
  }

  ghost predicate ChannelWellFormed(key: int, c: ChannelShape) {
    && c.name == ChannelName(key)
    && !c.handler.DynamicTag?
    && (c.handler.ContinuousTag? ==> c.handler.sensorType == key)
    && (c.handler.TriggerTag? ==> c.handler.sensorType == key)
  }

  lemma StepPreservesWellFormed(s: RegistryState, e: PluginEvent, sdk: int)
    requires WellFormed(s)
    ensures WellFormed(Step(s, e, sdk))
  {
  }

  /** No sequence of attaches, calls and detaches breaks `WellFormed`. */
  lemma {:induction false} RunPreservesWellFormed(s: RegistryState, events: seq<PluginEvent>, sdk: int)
    requires WellFormed(s)
    ensures WellFormed(Run(s, events, sdk))
    decreases |events|
  {
    if events != [] {
      StepPreservesWellFormed(s, events[0], sdk);
      RunPreservesWellFormed(Step(s, events[0], sdk), events[1..], sdk);
    }
  }

  /**
   * `getSensorEvents` leaves exactly one channel for the type, keeps the name of one
   * that was already there, installs a continuous handler with the given interval and
   * changes no other entry.
   */
  lemma RegisterListenerEffect(channels: map<int, ChannelShape>, sensorType: int, interval: int)
    ensures RegisterListener(channels, sensorType, interval).Keys == channels.Keys + {sensorType}
    ensures RegisterListener(channels, sensorType, interval)[sensorType].handler == ContinuousTag(sensorType, interval)
    ensures sensorType in channels ==>
              RegisterListener(channels, sensorType, interval)[sensorType].name == channels[sensorType].name
    ensures forall k | k in channels && k != sensorType :: RegisterListener(channels, sensorType, interval)[k] == channels[k]
  {
  }

  /** Registering the same listener twice leaves the registry as registering it once. */
  lemma RegisterListenerIdempotent(channels: map<int, ChannelShape>, sensorType: int, interval: int)
    ensures RegisterListener(RegisterListener(channels, sensorType, interval), sensorType, interval)
         == RegisterListener(channels, sensorType, interval)
  {
  }

  /** A second trigger request for the same type changes nothing. */
  lemma RequestTriggerIdempotent(channels: map<int, ChannelShape>, sensorType: int)
    ensures RequestTrigger(RequestTrigger(channels, sensorType), sensorType) == RequestTrigger(channels, sensorType)
  {
  }

  /**
   * The map is shared by both stream kinds: a trigger request after a listener
   * registration for the same type installs nothing, while a listener registration
   * after a trigger request replaces the trigger handler on the same channel, with the
   * same outcome as if the trigger had never been requested.
   */
  lemma SharedChannelMap(channels: map<int, ChannelShape>, sensorType: int, interval: int)
    ensures RequestTrigger(RegisterListener(channels, sensorType, interval), sensorType)
         == RegisterListener(channels, sensorType, interval)
    ensures RegisterListener(RequestTrigger(channels, sensorType), sensorType, interval)
         == RegisterListener(channels, sensorType, interval)
  {
  }

  /** The argument defaults: type `TYPE_ALL` and interval `SENSOR_DELAY_NORMAL`. */
  lemma ArgumentDefaults(s: RegistryState, sdk: int)
    ensures var call := MethodCall("registerListener", Arguments(None, None, None));
            CallEffect(s, call, sdk).channels[TYPE_ALL].handler == ContinuousTag(TYPE_ALL, SENSOR_DELAY_NORMAL)
    ensures var call := MethodCall("requestTriggerSensor", Arguments(None, None, None));
            sdk >= JELLY_BEAN_MR2 ==> TYPE_ALL in CallEffect(s, call, sdk).channels
  {
  }

  /** A method the plugin does not know leaves the registry untouched. */
  lemma UnknownMethodNoEffect(s: RegistryState, call: MethodCall, sdk: int)
    requires call.name !in KnownMethods
    ensures CallEffect(s, call, sdk) == s
  {
  }

  /** Detaching strips every handler, keeps every channel and name, and leaves the dynamic slot alone. */
  lemma DetachClearsHandlers(s: RegistryState, sdk: int)
    ensures Step(s, Detach, sdk).channels.Keys == s.channels.Keys
    ensures forall k | k in s.channels ::
              Step(s, Detach, sdk).channels[k] == ChannelShape(s.channels[k].name, NoHandler)
    ensures Step(s, Detach, sdk).dynamicChannel == s.dynamicChannel
    ensures !Step(s, Detach, sdk).handlingCalls
  {
  }

  /** After a detach, method calls no longer reach the plugin: they change nothing until the next attach. */
  lemma CallsIgnoredAfterDetach(s: RegistryState, call: MethodCall, sdk: int)
    ensures Step(Step(s, Detach, sdk), Call(call), sdk) == Step(s, Detach, sdk)
    ensures Step(Step(s, Attach, sdk), Call(call), sdk) == CallEffect(Step(s, Attach, sdk), call, sdk)
  {
  }

  /**
   * Attaching fills the dynamic slot with a channel that has no handler, so from then
   * on `registerDynamicSensorCallback` never installs one: whatever the framework does
   * afterwards, the hot-plug channel has no handler.
   */
  lemma DynamicHandlerNeverInstalledAfterAttach(s: RegistryState, events: seq<PluginEvent>, sdk: int)
    ensures Run(Step(s, Attach, sdk), events, sdk).dynamicChannel == EmptyDynamicSlot
  {
    DynamicSlotStaysEmpty(Step(s, Attach, sdk), events, sdk);
  }

  /** Once the slot holds the bare hot-plug channel, no event puts a handler on it. */
  lemma {:induction false} DynamicSlotStaysEmpty(s: RegistryState, events: seq<PluginEvent>, sdk: int)
    requires s.dynamicChannel == EmptyDynamicSlot
    ensures Run(s, events, sdk).dynamicChannel == EmptyDynamicSlot
    decreases |events|
  {
    if events != [] {
      DynamicSlotStaysEmpty(Step(s, events[0], sdk), events[1..], sdk);
    }
  }

  /**
   * Channels are never removed, and every channel present after a run was there
   * before or is the type (after its argument default) of some `registerListener` or
   * `requestTriggerSensor` call in it.
   */
  lemma {:induction false} ChannelsComeFromCalls(s: RegistryState, events: seq<PluginEvent>, sdk: int)
    ensures s.channels.Keys <= Run(s, events, sdk).channels.Keys
    ensures forall k | k in Run(s, events, sdk).channels ::
              k in s.channels || exists i | 0 <= i < |events| :: events[i].Call? && events[i].call.name in ChannelCreatingMethods && SensorTypeArgument(events[i].call.arguments) == k
    decreases |events|
  {
    if events != [] {
      var t := Step(s, events[0], sdk);
      ChannelsComeFromCalls(t, events[1..], sdk);
      forall k | k in Run(s, events, sdk).channels
        ensures k in s.channels || exists i | 0 <= i < |events| :: events[i].Call? && events[i].call.name in ChannelCreatingMethods && SensorTypeArgument(events[i].call.arguments) == k
      {
        if k !in s.channels {
          if k in t.channels {
            assert events[0].Call? && events[0].call.name in ChannelCreatingMethods && SensorTypeArgument(events[0].call.arguments) == k;
          } else {
            var j :| 0 <= j < |events[1..]| && events[1..][j].Call? && events[1..][j].call.name in ChannelCreatingMethods
                    && SensorTypeArgument(events[1..][j].call.arguments) == k;
            assert events[j + 1] == events[1..][j];
          }
        }
      }
    }
  }
}
