/**
 * `SensorManagerAndroidPlugin`: the plugin object. It answers method calls from the
 * client and keeps the event channels it has opened: one per sensor-type code, shared
 * by continuous and trigger streams, plus a separate slot for the hot-plug channel.
 *
 * Its state moves exactly as `Registry.Step` says (proved by every state-changing
 * method), and every reply is the one `Respond` gives.
 */
module Plugin {
  import opened Wrappers
  import opened SensorTypes
  import opened HelperFunctions
  import opened Platform
  import opened ContinuousStream
  import opened TriggerStream
  import opened HotPlugStream
  import opened Registry
  import Collections

  /** The stream handler installed on an event channel, if any. */
  datatype StreamHandler =
    | Unset
    | Continuous(handler: SensorStreamHandler)
    | Trigger(listener: SensorTriggerEventListener)
    | Dynamic(callback: DynamicSensorCallback)

  /** An event channel: its name and the handler it dispatches listen and cancel to. */
  datatype EventChannel = EventChannel(name: string, handler: StreamHandler)

  /** The plugin's method channel: its name and whether it dispatches calls to the plugin. */
  datatype MethodChannel = MethodChannel(name: string, handlerInstalled: bool)

  /** What the client receives for a method call. */
  datatype Reply =
    | NoReply                  // the branch never calls the result
    | Success(result: Value)   // `result.success(...)`
    | NotImplemented           // `result.notImplemented()`
    | Thrown(exception: string)

  /** `sensorToJson` takes a non-null sensor; passing it the absent default sensor throws. */
  const NULL_POINTER_EXCEPTION: string := "NullPointerException"

  function Tag(h: StreamHandler): HandlerTag {
    match h
    case Unset => NoHandler
    case Continuous(s) => ContinuousTag(s.sensorType, s.interval)
    case Trigger(t) => TriggerTag(t.sensorType)
    case Dynamic(_) => DynamicTag
  }

  function ShapeOf(c: EventChannel): ChannelShape {
    ChannelShape(c.name, Tag(c.handler))
  }

  /** The records of a list of sensors, in order. */
  function SensorRecords(sensors: seq<Sensor>, sdk: int): seq<Value>
    decreases |sensors|
  {
    if sensors == [] then [] else [Record(SensorToJson(sensors[0], sdk))] + SensorRecords(sensors[1..], sdk)
  }

  /** Appending a sensor appends its record. */
  lemma {:induction false} SensorRecordsAppend(sensors: seq<Sensor>, sensor: Sensor, sdk: int)
    ensures SensorRecords(sensors + [sensor], sdk) == SensorRecords(sensors, sdk) + [Record(SensorToJson(sensor, sdk))]
    decreases |sensors|
  {
    if sensors != [] {
      assert (sensors + [sensor])[1..] == sensors[1..] + [sensor];
      SensorRecordsAppend(sensors[1..], sensor, sdk);
    }
  }

  /** The records list has one record per sensor, each the record of the sensor at that position. */
  lemma {:induction false} SensorRecordsAt(sensors: seq<Sensor>, sdk: int)
    ensures |SensorRecords(sensors, sdk)| == |sensors|
    ensures forall i | 0 <= i < |sensors| :: SensorRecords(sensors, sdk)[i] == Record(SensorToJson(sensors[i], sdk))
    decreases |sensors|
  {
    if sensors != [] {
      SensorRecordsAt(sensors[1..], sdk);
    }
  }

  /** The `forEach` of `getSensorList` and `getDynamicSensorList`: one record per sensor, in order. */
  method SensorMapList(sensors: seq<Sensor>, sdk: int) returns (sensorMapList: seq<Value>)
    ensures sensorMapList == SensorRecords(sensors, sdk)
  {
    sensorMapList := [];
    for i := 0 to |sensors|
      invariant sensorMapList == SensorRecords(sensors[..i], sdk)
    {
      SensorRecordsAppend(sensors[..i], sensors[i], sdk);
      assert sensors[..i + 1] == sensors[..i] + [sensors[i]];
      sensorMapList := sensorMapList + [Record(SensorToJson(sensors[i], sdk))];
    }
    assert sensors[..|sensors|] == sensors;
  }

  /** The reply to the default-sensor query: the sensor's record, or the exception for none. */
  function DefaultSensorReply(sensor: Option<Sensor>, sdk: int): Reply {
    match sensor
    case Some(s) => Success(Record(SensorToJson(s, sdk)))
    case None => Thrown(NULL_POINTER_EXCEPTION)
  }

  /** The reply `onMethodCall` gives at SDK level `sdk` on `device`. */
  function Respond(call: MethodCall, sdk: int, device: Device): Reply {
    var sensorType := SensorTypeArgument(call.arguments);
    if call.name == "getPlatformVersion" then
      Success(Str("Android " + device.release))
    else if call.name == "getSensorList" then
      Success(List(SensorRecords(device.sensorList(sensorType), sdk)))
    else if call.name == "isDynamicSensorDiscoverySupported" then
      if sdk >= N then Success(Bool(device.dynamicSensorDiscoverySupported)) else NoReply
    else if call.name == "getDynamicSensorList" then
      Success(List(if sdk >= N then SensorRecords(device.dynamicSensorList(sensorType), sdk) else []))
    else if call.name == "getDefaultSensor" then
      if call.arguments.wakeUp.None? then
        DefaultSensorReply(device.defaultSensor(sensorType), sdk)
      else if sdk >= LOLLIPOP then
        DefaultSensorReply(device.defaultWakeUpSensor(sensorType, call.arguments.wakeUp.value), sdk)
      else
        Success(Record(map[]))
    else if call.name == "registerListener" || call.name == "registerDynamicSensorCallback"
         || call.name == "requestTriggerSensor" then
      NoReply
    else
      NotImplemented
  }

  /** Exactly the methods the plugin does not know are answered with "not implemented". */
  lemma NotImplementedExactlyForUnknownMethods(call: MethodCall, sdk: int, device: Device)
    ensures Respond(call, sdk, device) == NotImplemented <==> call.name !in KnownMethods
  {
  }

  /**
   * The edge cases of the queries: a wake-up query below Lollipop answers the empty
   * record, the dynamic-sensor list below N is empty, the discovery query below N and
   * the three stream-opening calls never answer.
   */
  lemma QueryEdgeCases(call: MethodCall, sdk: int, device: Device)
    ensures call.name == "getDefaultSensor" && call.arguments.wakeUp.Some? && sdk < LOLLIPOP
            ==> Respond(call, sdk, device) == Success(Record(map[]))
    ensures call.name == "getDynamicSensorList" && sdk < N ==> Respond(call, sdk, device) == Success(List([]))
    ensures call.name == "isDynamicSensorDiscoverySupported" && sdk < N ==> Respond(call, sdk, device) == NoReply
    ensures call.name in {"registerListener", "registerDynamicSensorCallback", "requestTriggerSensor"}
            ==> Respond(call, sdk, device) == NoReply
  {
  }

  /**
   * The default-sensor query answers the record of the device's default sensor for
   * the type (the wake-up variant when a flag is given, from Lollipop on), and the
   * exception exactly when the device has no such sensor.
   */
  lemma DefaultSensorQuery(call: MethodCall, sdk: int, device: Device)
    requires call.name == "getDefaultSensor"
    ensures var sensor := device.defaultSensor(SensorTypeArgument(call.arguments));
            call.arguments.wakeUp.None? ==>
              && (Respond(call, sdk, device) == Thrown(NULL_POINTER_EXCEPTION) <==> sensor.None?)
              && (sensor.Some? ==> Respond(call, sdk, device) == Success(Record(SensorToJson(sensor.value, sdk))))
    ensures call.arguments.wakeUp.Some? && sdk >= LOLLIPOP ==>
              var sensor := device.defaultWakeUpSensor(SensorTypeArgument(call.arguments), call.arguments.wakeUp.value);
              && (Respond(call, sdk, device) == Thrown(NULL_POINTER_EXCEPTION) <==> sensor.None?)
              && (sensor.Some? ==> Respond(call, sdk, device) == Success(Record(SensorToJson(sensor.value, sdk))))
  {
  }

  /** The sensor list answers one record per sensor of the queried type, `TYPE_ALL` when none is given. */
  lemma SensorListReply(call: MethodCall, sdk: int, device: Device)
    requires call.name == "getSensorList"
    ensures var sensors := device.sensorList(call.arguments.sensorType.GetOr(TYPE_ALL));
            && Respond(call, sdk, device).Success?
            && Respond(call, sdk, device).result.List?
            && |Respond(call, sdk, device).result.items| == |sensors|
            && forall i | 0 <= i < |sensors| ::
                 Respond(call, sdk, device).result.items[i] == Record(SensorToJson(sensors[i], sdk))
  {
    SensorRecordsAt(device.sensorList(call.arguments.sensorType.GetOr(TYPE_ALL)), sdk);
  }

  class SensorManagerAndroidPlugin {
    var channel: Option<MethodChannel>
    var sensorManager: SensorManager?
    var eventChannels: map<int, EventChannel>
    var eventChannelDynamicSensorCallback: Option<EventChannel>

    constructor()
      ensures channel == None && sensorManager == null
      ensures eventChannels == map[] && eventChannelDynamicSensorCallback == None
      ensures Shape() == Initial
    {
      channel := None;
      sensorManager := null;
      eventChannels := map[];
      eventChannelDynamicSensorCallback := None;
    }

    /** The registry state this plugin is in. */
    function Shape(): RegistryState
      reads this
    {
      RegistryState(
        channel.Some? && channel.value.handlerInstalled,
        map k | k in eventChannels :: ShapeOf(eventChannels[k]),
        match eventChannelDynamicSensorCallback
        case Some(c) => Some(ShapeOf(c))
        case None => None)
    }

    /**
     * Creates the method channel dispatching to this plugin, takes the sensor service
     * and fills the dynamic slot with a bare channel; the map is left as it was.
     */
    method OnAttachedToEngine(manager: SensorManager)
      modifies this
      ensures channel == Some(MethodChannel(METHOD_CHANNEL_NAME, true))
      ensures sensorManager == manager
      ensures eventChannels == old(eventChannels)
      ensures eventChannelDynamicSensorCallback == Some(EventChannel(DYNAMIC_CHANNEL_NAME, Unset))
      ensures Shape() == AttachEffect(old(Shape()))
    {
      channel := Some(MethodChannel(METHOD_CHANNEL_NAME, true));
      sensorManager := manager;
      eventChannelDynamicSensorCallback := Some(EventChannel(DYNAMIC_CHANNEL_NAME, Unset));
    }

    /**
     * Stops the method channel dispatching to this plugin and removes the handler of
     * every channel in the map; the dynamic channel is not touched.
     */
    method OnDetachedFromEngine()
      requires channel.Some?
      modifies this
      ensures channel == Some(old(channel.value).(handlerInstalled := false))
      ensures sensorManager == old(sensorManager)
      ensures eventChannels == map k | k in old(eventChannels) :: old(eventChannels)[k].(handler := Unset)
      ensures eventChannelDynamicSensorCallback == old(eventChannelDynamicSensorCallback)
      ensures Shape() == DetachEffect(old(Shape()))
    {
      channel := Some(channel.value.(handlerInstalled := false));
      ghost var before := eventChannels;
      var pending := eventChannels.Keys;
      while pending != {}
        invariant channel == Some(old(channel.value).(handlerInstalled := false))
        invariant sensorManager == old(sensorManager)
        invariant eventChannelDynamicSensorCallback == old(eventChannelDynamicSensorCallback)
        invariant pending <= before.Keys && eventChannels.Keys == before.Keys
        invariant forall k | k in pending :: eventChannels[k] == before[k]
        invariant forall k | k in before && k !in pending :: eventChannels[k] == before[k].(handler := Unset)
        decreases pending
      {
        Collections.NoElementsMeansEmpty(pending);
        var key :| key in pending;
        eventChannels := eventChannels[key := eventChannels[key].(handler := Unset)];
        pending := pending - {key};
      }
      Collections.NoElementsMeansEmpty(pending);
      Collections.MapExtensionality(eventChannels, map k | k in before :: before[k].(handler := Unset));
      Collections.MapExtensionality(Shape().channels, ClearHandlers(old(Shape()).channels));
    }

    /**
     * `getSensorEvents`: opens the channel of the type if the map has none, then always
     * installs a new continuous handler on it.
     */
    method GetSensorEvents(sensorType: int, interval: Option<int>)
      requires sensorManager != null
      modifies this
      ensures channel == old(channel) && sensorManager == old(sensorManager)
      ensures eventChannelDynamicSensorCallback == old(eventChannelDynamicSensorCallback)
      ensures eventChannels.Keys == old(eventChannels.Keys) + {sensorType}
      ensures eventChannels[sensorType].name
           == if sensorType in old(eventChannels) then old(eventChannels[sensorType].name) else ChannelName(sensorType)
      ensures forall k | k in old(eventChannels) && k != sensorType :: eventChannels[k] == old(eventChannels[k])
      ensures var h := eventChannels[sensorType].handler;
              && h.Continuous? && fresh(h.handler) && h.handler.sensorManager == sensorManager
              && h.handler.sensorType == sensorType && h.handler.interval == interval.GetOr(SENSOR_DELAY_NORMAL)
              && h.handler.eventSink == null
      ensures Shape().channels == RegisterListener(old(Shape().channels), sensorType, interval.GetOr(SENSOR_DELAY_NORMAL))
    {
      if sensorType !in eventChannels {
        eventChannels := eventChannels[sensorType := EventChannel(ChannelName(sensorType), Unset)];
      }
      var handler := new SensorStreamHandler(sensorManager, sensorType, interval.GetOr(SENSOR_DELAY_NORMAL));
      eventChannels := eventChannels[sensorType := eventChannels[sensorType].(handler := Continuous(handler))];
    }

    /**
     * `onMethodCall`: answers the call as `Respond` says and changes the channels as
     * `CallEffect` says; every handler it installs is new and uses this plugin's
     * sensor manager. Every channel object it does not replace stays as it was: only
     * `registerListener`, and `requestTriggerSensor` for an absent type, touch the map,
     * and only a first `registerDynamicSensorCallback` touches the dynamic slot. The
     * framework calls it only while the method channel dispatches to the plugin.
     */
    method OnMethodCall(call: MethodCall, sdk: int) returns (reply: Reply)
      requires sensorManager != null
      modifies this
      ensures channel == old(channel) && sensorManager == old(sensorManager)
      ensures reply == Respond(call, sdk, sensorManager.device)
      ensures Shape() == CallEffect(old(Shape()), call, sdk)
      ensures call.name == "registerListener" ==>
                SensorTypeArgument(call.arguments) in eventChannels &&
                var h := eventChannels[SensorTypeArgument(call.arguments)].handler;
                h.Continuous? && fresh(h.handler) && h.handler.sensorManager == sensorManager
      ensures call.name == "requestTriggerSensor" && sdk >= JELLY_BEAN_MR2
              && SensorTypeArgument(call.arguments) !in old(eventChannels) ==>
                SensorTypeArgument(call.arguments) in eventChannels &&
                var h := eventChannels[SensorTypeArgument(call.arguments)].handler;
                h.Trigger? && fresh(h.listener) && h.listener.sensorManager == sensorManager
      ensures call.name == "registerDynamicSensorCallback" && sdk >= N
              && old(eventChannelDynamicSensorCallback).None? ==>
                && eventChannelDynamicSensorCallback.Some?
                && var h := eventChannelDynamicSensorCallback.value.handler;
                   h.Dynamic? && fresh(h.callback) && h.callback.sensorManager == sensorManager
      ensures call.name == "requestTriggerSensor" && sdk >= JELLY_BEAN_MR2
              && SensorTypeArgument(call.arguments) !in old(eventChannels) ==>
                eventChannels.Keys == old(eventChannels.Keys) + {SensorTypeArgument(call.arguments)}
                && eventChannels[SensorTypeArgument(call.arguments)].name == ChannelName(SensorTypeArgument(call.arguments))
      ensures forall k | k in old(eventChannels) && k != SensorTypeArgument(call.arguments) ::
                k in eventChannels && eventChannels[k] == old(eventChannels[k])
      ensures !(call.name == "registerListener"
                || (call.name == "requestTriggerSensor" && sdk >= JELLY_BEAN_MR2
                    && SensorTypeArgument(call.arguments) !in old(eventChannels))) ==>
                eventChannels == old(eventChannels)
      ensures !(call.name == "registerDynamicSensorCallback" && sdk >= N
                && old(eventChannelDynamicSensorCallback).None?) ==>
                eventChannelDynamicSensorCallback == old(eventChannelDynamicSensorCallback)
    {
      var device := sensorManager.device;
      var sensorType := SensorTypeArgument(call.arguments);
      reply := NoReply;
      if call.name == "getPlatformVersion" {
        reply := Success(Str("Android " + device.release));
      } else if call.name == "getSensorList" {
        var sensorMapList := SensorMapList(device.sensorList(sensorType), sdk);
        reply := Success(List(sensorMapList));
      } else if call.name == "isDynamicSensorDiscoverySupported" {
        if sdk >= N {
          reply := Success(Bool(device.dynamicSensorDiscoverySupported));
        }
      } else if call.name == "getDynamicSensorList" {
        var sensorMapList := [];
        if sdk >= N {
          sensorMapList := SensorMapList(device.dynamicSensorList(sensorType), sdk);
        }
        reply := Success(List(sensorMapList));
      } else if call.name == "getDefaultSensor" {
        reply := Success(Record(map[]));
        if call.arguments.wakeUp.None? {
          reply := DefaultSensorReply(device.defaultSensor(sensorType), sdk);
        } else if sdk >= LOLLIPOP {
          reply := DefaultSensorReply(device.defaultWakeUpSensor(sensorType, call.arguments.wakeUp.value), sdk);
        }
      } else if call.name == "registerListener" {
        GetSensorEvents(sensorType, call.arguments.interval);
      } else if call.name == "registerDynamicSensorCallback" {
        if sdk >= N && eventChannelDynamicSensorCallback.None? {
          var callback := new DynamicSensorCallback(sensorManager);
          eventChannelDynamicSensorCallback := Some(EventChannel(DYNAMIC_CHANNEL_NAME, Dynamic(callback)));
        }
      } else if call.name == "requestTriggerSensor" {
        if sdk >= JELLY_BEAN_MR2 && sensorType !in eventChannels {
          var listener := new SensorTriggerEventListener(sensorManager, sensorType);
          eventChannels := eventChannels[sensorType := EventChannel(ChannelName(sensorType), Trigger(listener))];
        }
      } else {
        reply := NotImplemented;
      }
    }
  }
}
