/**
 * The collaborators the plugin calls into, reduced to what its code observes.
 *
 * `SensorManager` stands for Android's sensor service: the registrations it holds
 * (listeners, trigger requests, dynamic-sensor callbacks) form a set, and what the
 * device reports (its sensor lists, default sensors, release name) is a fixed
 * `Device` value given when the manager is created. A registration names the
 * sensor-type code whose default sensor was asked for; which sensors exist is
 * the device's business and is not modelled.
 *
 * `EventSink` stands for the client end of an event channel: every payload the
 * plugin sends on it is appended to `delivered`.
 */
module Platform {
  import opened Wrappers
  import opened HelperFunctions

  /** `SensorManager.SENSOR_DELAY_NORMAL`, the default delivery interval. */
  const SENSOR_DELAY_NORMAL: int := 3

  /** An active registration held by the sensor manager, keyed by the registering object. */
  datatype Registration =
    | SensorListener(listener: object, sensorType: int, interval: int)
    | TriggerRequest(listener: object, sensorType: int)
    | DynamicCallback(callback: object)

  /** What the device answers to the plugin's queries. */
  datatype Device = Device(
    release: string,
    sensorList: int -> seq<Sensor>,
    dynamicSensorList: int -> seq<Sensor>,
    dynamicSensorDiscoverySupported: bool,
    defaultSensor: int -> Option<Sensor>,
    defaultWakeUpSensor: (int, bool) -> Option<Sensor>)

  class SensorManager {
    const device: Device
    var registrations: set<Registration>

    constructor(device: Device)
      ensures this.device == device && registrations == {}
    {
      this.device := device;
      registrations := {};
    }

    /** `registerListener(listener, getDefaultSensor(sensorType), interval)`. */
    method RegisterListener(listener: object, sensorType: int, interval: int)
      modifies this
      ensures registrations == old(registrations) + {SensorListener(listener, sensorType, interval)}
    {
      registrations := registrations + {SensorListener(listener, sensorType, interval)};
    }

    /** `unregisterListener(listener, getDefaultSensor(sensorType))`: drops every interval. */
    method UnregisterListener(listener: object, sensorType: int)
      modifies this
      ensures registrations == old(registrations) - ListenersOf(old(registrations), listener, sensorType)
    {
      registrations := registrations - ListenersOf(registrations, listener, sensorType);
    }

    /** `requestTriggerSensor(listener, getDefaultSensor(sensorType))`. */
    method RequestTriggerSensor(listener: object, sensorType: int)
      modifies this
      ensures registrations == old(registrations) + {TriggerRequest(listener, sensorType)}
    {
      registrations := registrations + {TriggerRequest(listener, sensorType)};
    }

    /** `cancelTriggerSensor(listener, getDefaultSensor(sensorType))`. */
    method CancelTriggerSensor(listener: object, sensorType: int)
      modifies this
      ensures registrations == old(registrations) - {TriggerRequest(listener, sensorType)}
    {
      registrations := registrations - {TriggerRequest(listener, sensorType)};
    }

    /** `registerDynamicSensorCallback(callback)`. */
    method RegisterDynamicSensorCallback(callback: object)
      modifies this
      ensures registrations == old(registrations) + {DynamicCallback(callback)}
    {
      registrations := registrations + {DynamicCallback(callback)};
    }

    /** `unregisterDynamicSensorCallback(callback)`. */
    method UnregisterDynamicSensorCallback(callback: object)
      modifies this
      ensures registrations == old(registrations) - {DynamicCallback(callback)}
    {
      registrations := registrations - {DynamicCallback(callback)};
    }
  }

  /** The listener registrations of `listener` for the default sensor of `sensorType`. */
  function ListenersOf(registrations: set<Registration>, listener: object, sensorType: int): set<Registration> {
    set r | r in registrations && r.SensorListener? && r.listener == listener && r.sensorType == sensorType
  }

  class EventSink {
    var delivered: seq<Value>

    constructor()
      ensures delivered == []
    {
      delivered := [];
    }

    /** `EventSink.success(event)`. */
    method Success(event: Value)
      modifies this
      ensures delivered == old(delivered) + [event]
    {
      delivered := delivered + [event];
    }
  }
}
