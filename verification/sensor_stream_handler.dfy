/**
 * `SensorStreamHandler`: the stream handler of a continuous sensor stream. While a
 * client listens, it is registered with the sensor manager as a listener for the
 * default sensor of its type and forwards readings and accuracy changes to the sink.
 */
module ContinuousStream {
  import opened Wrappers
  import opened HelperFunctions
  import opened Platform

  /** The payload of `onSensorChanged`: the event's record, or null for a null event. */
  function SensorChangedPayload(event: Option<SensorEvent>, sdk: int): Value {
    match event
    case Some(e) => Record(SensorEventToJson(e, sdk))
    case None => Null
  }

  /** The payload of `onAccuracyChanged`: the sensor's record plus a `newAccuracy` key. */
  function AccuracyChangedRecord(sensor: Sensor, accuracy: int, sdk: int): map<string, Value> {
    SensorToJson(sensor, sdk)["newAccuracy" := Int(accuracy)]
  }

  /**
   * The accuracy record is the sensor record with one key added: removing it gives the
   * sensor record back, and reading the sensor back from it recovers the sensor's
   * attributes as from the plain record.
   */
  lemma AccuracyRecordExtendsSensorRecord(sensor: Sensor, accuracy: int, sdk: int)
    ensures "newAccuracy" !in SensorToJson(sensor, sdk)
    ensures AccuracyChangedRecord(sensor, accuracy, sdk).Keys == SensorToJson(sensor, sdk).Keys + {"newAccuracy"}
    ensures AccuracyChangedRecord(sensor, accuracy, sdk)["newAccuracy"] == Int(accuracy)
    ensures AccuracyChangedRecord(sensor, accuracy, sdk) - {"newAccuracy"} == SensorToJson(sensor, sdk)
    ensures LegacyFromJson(AccuracyChangedRecord(sensor, accuracy, sdk)) == Some(Legacy(sensor))
  {
    var r := SensorToJson(sensor, sdk);
    assert AccuracyChangedRecord(sensor, accuracy, sdk) - {"newAccuracy"} == r;
  }

  class SensorStreamHandler {
    const sensorManager: SensorManager
    const sensorType: int
    const interval: int
    var eventSink: EventSink?

    constructor(sensorManager: SensorManager, sensorType: int, interval: int)
      ensures this.sensorManager == sensorManager && this.sensorType == sensorType
      ensures this.interval == interval && eventSink == null
    {
      this.sensorManager := sensorManager;
      this.sensorType := sensorType;
      this.interval := interval;
      eventSink := null;
    }

    /** Stores the sink, then registers for the default sensor of the type at the stored interval. */
    method OnListen(events: EventSink?)
      modifies this, sensorManager
      ensures eventSink == events
      ensures sensorManager.registrations
           == old(sensorManager.registrations) + {SensorListener(this, sensorType, interval)}
    {
      eventSink := events;
      sensorManager.RegisterListener(this, sensorType, interval);
    }

    /** Unregisters first, then forgets the sink. */
    method OnCancel()
      modifies this, sensorManager
      ensures eventSink == null
      ensures sensorManager.registrations
           == old(sensorManager.registrations) - ListenersOf(old(sensorManager.registrations), this, sensorType)
      ensures SensorListener(this, sensorType, interval) !in sensorManager.registrations
    {
      sensorManager.UnregisterListener(this, sensorType);
      eventSink := null;
    }

    /** Sends the event's record (null for a null event), only while a sink is held. */
    method OnSensorChanged(event: Option<SensorEvent>, sdk: int)
      modifies eventSink
      ensures eventSink == old(eventSink)
      ensures eventSink != null ==>
                eventSink.delivered == old(eventSink.delivered) + [SensorChangedPayload(event, sdk)]
    {
      if eventSink != null {
        eventSink.Success(SensorChangedPayload(event, sdk));
      }
    }

    /** Sends the sensor's record with the new accuracy; nothing for a null sensor or without a sink. */
    method OnAccuracyChanged(sensor: Option<Sensor>, accuracy: int, sdk: int)
      modifies eventSink
      ensures eventSink == old(eventSink)
      ensures eventSink != null ==>
                eventSink.delivered == old(eventSink.delivered)
                  + if sensor.Some? then [Record(AccuracyChangedRecord(sensor.value, accuracy, sdk))] else []
    {
      if sensor.Some? {
        var result := AccuracyChangedRecord(sensor.value, accuracy, sdk);
        if eventSink != null {
          eventSink.Success(Record(result));
        }
      }
    }
  }

  /**
   * A client listens, three readings arrive, the client cancels and a fourth reading
   * arrives: exactly the first three records reach the sink, in order, and the
   * handler is no longer registered.
   */
  method ListenDeliverCancel(device: Device, sensorType: int, interval: int,
                             e1: SensorEvent, e2: SensorEvent, e3: SensorEvent, e4: SensorEvent, sdk: int)
    returns (delivered: seq<Value>, remaining: set<Registration>)
    ensures delivered == [Record(SensorEventToJson(e1, sdk)), Record(SensorEventToJson(e2, sdk)),
                          Record(SensorEventToJson(e3, sdk))]
    ensures remaining == {}
  {
    var manager := new SensorManager(device);
    var handler := new SensorStreamHandler(manager, sensorType, interval);
    var sink := new EventSink();
    handler.OnListen(sink);
    handler.OnSensorChanged(Some(e1), sdk);
    handler.OnSensorChanged(Some(e2), sdk);
    handler.OnSensorChanged(Some(e3), sdk);
    handler.OnCancel();
    handler.OnSensorChanged(Some(e4), sdk);
    handler.OnAccuracyChanged(Some(e4.sensor), e4.accuracy, sdk);
    delivered := sink.delivered;
    remaining := manager.registrations;
  }
}
