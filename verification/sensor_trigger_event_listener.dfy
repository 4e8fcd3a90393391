/**
 * `SensorTriggerEventListener`: the stream handler of a trigger-sensor stream. While a
 * client listens, a trigger request for the default sensor of its type is pending
 * with the sensor manager and every trigger it receives is forwarded to the sink.
 */
module TriggerStream {
  import opened Wrappers
  import opened HelperFunctions
  import opened Platform

  /** The payload of `onTrigger`: the event's record, or null for a null event. */
  function TriggerPayload(event: Option<TriggerEvent>, sdk: int): Value {
    match event
    case Some(e) => Record(TriggerEventToJson(e, sdk))
    case None => Null
  }

  class SensorTriggerEventListener {
    const sensorManager: SensorManager
    const sensorType: int
    var eventSink: EventSink?

    constructor(sensorManager: SensorManager, sensorType: int)
      ensures this.sensorManager == sensorManager && this.sensorType == sensorType
      ensures eventSink == null
    {
      this.sensorManager := sensorManager;
      this.sensorType := sensorType;
      eventSink := null;
    }

    /** Stores the sink, then requests a trigger for the default sensor of the type. */
    method OnListen(events: EventSink?)
      modifies this, sensorManager
      ensures eventSink == events
      ensures sensorManager.registrations
           == old(sensorManager.registrations) + {TriggerRequest(this, sensorType)}
    {
      eventSink := events;
      sensorManager.RequestTriggerSensor(this, sensorType);
    }

    /** Forgets the sink first, then cancels the trigger request. */
    method OnCancel()
      modifies this, sensorManager
      ensures eventSink == null
      ensures sensorManager.registrations
           == old(sensorManager.registrations) - {TriggerRequest(this, sensorType)}
    {
      eventSink := null;
      sensorManager.CancelTriggerSensor(this, sensorType);
    }

    /** Sends the trigger's record (null for a null event), only while a sink is held. */
    method OnTrigger(event: Option<TriggerEvent>, sdk: int)
      modifies eventSink
      ensures eventSink == old(eventSink)
      ensures eventSink != null ==>
                eventSink.delivered == old(eventSink.delivered) + [TriggerPayload(event, sdk)]
    {
      if eventSink != null {
        eventSink.Success(TriggerPayload(event, sdk));
      }
    }
  }

  /**
   * A client listens, a trigger fires, the client cancels and a second trigger is
   * reported: only the first record (and a null for a null event before it) reaches
   * the sink, and no trigger request is left pending.
   */
  method ListenTriggerCancel(device: Device, sensorType: int, first: TriggerEvent, late: TriggerEvent, sdk: int)
    returns (delivered: seq<Value>, remaining: set<Registration>)
    ensures delivered == [Null, Record(TriggerEventToJson(first, sdk))]
    ensures remaining == {}
  {
    var manager := new SensorManager(device);
    var listener := new SensorTriggerEventListener(manager, sensorType);
    var sink := new EventSink();
    listener.OnListen(sink);
    listener.OnTrigger(None, sdk);
    listener.OnTrigger(Some(first), sdk);
    listener.OnCancel();
    listener.OnTrigger(Some(late), sdk);
    delivered := sink.delivered;
    remaining := manager.registrations;
  }
}
