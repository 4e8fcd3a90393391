/**
 * `DynamicSensorCallback`: the stream handler of the hot-plug stream. While a client
 * listens, it is registered with the sensor manager as the dynamic-sensor callback
 * and forwards every connect and disconnect notification to the sink.
 */
module HotPlugStream {
  import opened Wrappers
  import opened HelperFunctions
  import opened Platform

  /** The payload of a hot-plug notification: the sensor's record plus `isConnected`. */
  function ConnectivityRecord(sensor: Sensor, connected: bool, sdk: int): map<string, Value> {
    SensorToJson(sensor, sdk)["isConnected" := Bool(connected)]
  }

  /**
   * Connect and disconnect records differ only in `isConnected`; removing that key
   * gives back the sensor record in both.
   */
  lemma ConnectivityRecordShape(sensor: Sensor, sdk: int)
    ensures "isConnected" !in SensorToJson(sensor, sdk)
    ensures ConnectivityRecord(sensor, true, sdk).Keys == SensorToJson(sensor, sdk).Keys + {"isConnected"}
    ensures ConnectivityRecord(sensor, true, sdk)["isConnected"] == Bool(true)
    ensures ConnectivityRecord(sensor, false, sdk)["isConnected"] == Bool(false)
    ensures ConnectivityRecord(sensor, true, sdk) - {"isConnected"} == SensorToJson(sensor, sdk)
    ensures ConnectivityRecord(sensor, true, sdk) - {"isConnected"}
         == ConnectivityRecord(sensor, false, sdk) - {"isConnected"}
    ensures ConnectivityRecord(sensor, true, sdk) != ConnectivityRecord(sensor, false, sdk)
  {
    var r := SensorToJson(sensor, sdk);
    assert ConnectivityRecord(sensor, true, sdk) - {"isConnected"} == r;
    assert ConnectivityRecord(sensor, false, sdk) - {"isConnected"} == r;
  }

  class DynamicSensorCallback {
    const sensorManager: SensorManager
    var eventSink: EventSink?

    constructor(sensorManager: SensorManager)
      ensures this.sensorManager == sensorManager && eventSink == null
    {
      this.sensorManager := sensorManager;
      eventSink := null;
    }

    /** A connect notification: nothing for a null sensor or without a sink. */
    method OnDynamicSensorConnected(sensor: Option<Sensor>, sdk: int)
      modifies eventSink
      ensures eventSink == old(eventSink)
      ensures eventSink != null ==>
                eventSink.delivered == old(eventSink.delivered)
                  + if sensor.Some? then [Record(ConnectivityRecord(sensor.value, true, sdk))] else []
    {
      if sensor.Some? {
        var result := ConnectivityRecord(sensor.value, true, sdk);
        if eventSink != null {
          eventSink.Success(Record(result));
        }
      }
    }

    /** A disconnect notification: nothing for a null sensor or without a sink. */
    method OnDynamicSensorDisconnected(sensor: Option<Sensor>, sdk: int)
      modifies eventSink
      ensures eventSink == old(eventSink)
      ensures eventSink != null ==>
                eventSink.delivered == old(eventSink.delivered)
                  + if sensor.Some? then [Record(ConnectivityRecord(sensor.value, false, sdk))] else []
    {
      if sensor.Some? {
        var result := ConnectivityRecord(sensor.value, false, sdk);
        if eventSink != null {
          eventSink.Success(Record(result));
        }
      }
    }

    /** Stores the sink, then registers this callback. */
    method OnListen(events: EventSink?)
      modifies this, sensorManager
      ensures eventSink == events
      ensures sensorManager.registrations == old(sensorManager.registrations) + {DynamicCallback(this)}
    {
      eventSink := events;
      sensorManager.RegisterDynamicSensorCallback(this);
    }

    /** Unregisters first, then forgets the sink. */
    method OnCancel()
      modifies this, sensorManager
      ensures eventSink == null
      ensures sensorManager.registrations == old(sensorManager.registrations) - {DynamicCallback(this)}
    {
      sensorManager.UnregisterDynamicSensorCallback(this);
      eventSink := null;
    }
  }

  /**
   * A client listens, a sensor connects, a null sensor is reported, the client
   * cancels and the sensor disconnects: only the connect record reaches the sink, and
   * the callback is no longer registered.
   */
  method ListenHotPlugCancel(device: Device, sensor: Sensor, sdk: int)
    returns (delivered: seq<Value>, remaining: set<Registration>)
    ensures delivered == [Record(ConnectivityRecord(sensor, true, sdk))]
    ensures remaining == {}
  {
    var manager := new SensorManager(device);
    var callback := new DynamicSensorCallback(manager);
    var sink := new EventSink();
    callback.OnListen(sink);
    callback.OnDynamicSensorConnected(Some(sensor), sdk);
    callback.OnDynamicSensorDisconnected(None, sdk);
    callback.OnCancel();
    callback.OnDynamicSensorDisconnected(Some(sensor), sdk);
    delivered := sink.delivered;
    remaining := manager.registrations;
  }
}
