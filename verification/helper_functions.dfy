/**
 * The key-value records the plugin sends to the client: sensors, sensor events and
 * trigger events, each as a map from key to value whose key set depends on the
 * platform's SDK level.
 */
module HelperFunctions {
  import opened Wrappers

  /** SDK levels the code compares against (`Build.VERSION_CODES`). */
  const JELLY_BEAN_MR2: int := 18
  const LOLLIPOP: int := 21
  const N: int := 24

  /** A 32-bit floating-point value, kept as its bit pattern; its arithmetic is not modelled. */
  datatype Float32 = Float32(bits: bv32)

  /** A value carried over a channel: scalars, float arrays, records and lists, or null. */
  datatype Value =
    | Null
    | Int(i: int)
    | Bool(b: bool)
    | Str(s: string)
    | Float(f: Float32)
    | Floats(fs: seq<Float32>)
    | Record(fields: map<string, Value>)
    | List(items: seq<Value>)

  /** A snapshot of an Android `Sensor` with the attributes the records read. */
  datatype Sensor = Sensor(
    name: string,
    vendor: string,
    version: int,
    sensorType: int,
    reportingMode: int,
    isDynamicSensor: bool,
    isWakeUpSensor: bool,
    maximumRange: Float32,
    resolution: Float32,
    power: Float32,
    minDelay: int,
    fifoReservedEventCount: int,
    fifoMaxEventCount: int,
    stringType: string,
    maxDelay: int,
    id: int)

  /** An Android `SensorEvent`. */
  datatype SensorEvent = SensorEvent(sensor: Sensor, accuracy: int, timestamp: int, values: seq<Float32>)

  /** An Android `TriggerEvent`. */
  datatype TriggerEvent = TriggerEvent(sensor: Sensor, timestamp: int, values: seq<Float32>)

  /** The keys of a sensor record below SDK level N. */
  const LegacySensorKeys: set<string> := {
    "name", "vendor", "version", "type", "maxRange", "resolution", "power", "minDelay"
  }

  /** The keys a sensor record gains from SDK level N on. */
  const AddedSensorKeys: set<string> := {
    "reportingMode", "isDynamicSensor", "isWakeUpSensor", "fifoReservedEventCount",
    "fifoMaxEventCount", "stringType", "maxDelay", "id"
  }

  /** The keys of a sensor record from SDK level N on. */
  const FullSensorKeys: set<string> := LegacySensorKeys + AddedSensorKeys

  /** `sensorToJson`: the record of a sensor at the given SDK level. */
  function SensorToJson(sensor: Sensor, sdk: int): map<string, Value> {
    if sdk >= N then
      map[
        "name" := Str(sensor.name),
        "vendor" := Str(sensor.vendor),
        "version" := Int(sensor.version),
        "type" := Int(sensor.sensorType),
        "reportingMode" := Int(sensor.reportingMode),
        "isDynamicSensor" := Bool(sensor.isDynamicSensor),
        "isWakeUpSensor" := Bool(sensor.isWakeUpSensor),
        "maxRange" := Float(sensor.maximumRange),
        "resolution" := Float(sensor.resolution),
        "power" := Float(sensor.power),
        "minDelay" := Int(sensor.minDelay),
        "fifoReservedEventCount" := Int(sensor.fifoReservedEventCount),
        "fifoMaxEventCount" := Int(sensor.fifoMaxEventCount),
        "stringType" := Str(sensor.stringType),
        "maxDelay" := Int(sensor.maxDelay),
        "id" := Int(sensor.id)
      ]
    else
      map[
        "name" := Str(sensor.name),
        "vendor" := Str(sensor.vendor),
        "version" := Int(sensor.version),
        "type" := Int(sensor.sensorType),
        "maxRange" := Float(sensor.maximumRange),
        "resolution" := Float(sensor.resolution),
        "power" := Float(sensor.power),
        "minDelay" := Int(sensor.minDelay)
      ]
  }

  /** `sensorEventToJson`: the record of a sensor event. */
  function SensorEventToJson(event: SensorEvent, sdk: int): map<string, Value> {
    map[
      "sensor" := Record(SensorToJson(event.sensor, sdk)),
      "accuracy" := Int(event.accuracy),
      "timestamp" := Int(event.timestamp),
      "values" := Floats(event.values)
    ]
  }

  /** `triggerEventToJson`: the record of a trigger event. */
  function TriggerEventToJson(event: TriggerEvent, sdk: int): map<string, Value> {
    map[
      "sensor" := Record(SensorToJson(event.sensor, sdk)),
      "timestamp" := Int(event.timestamp),
      "values" := Floats(event.values)
    ]
  }

  /** The attributes that survive into a record below SDK level N. */
  datatype LegacySensor = LegacySensor(
    name: string, vendor: string, version: int, sensorType: int,
    maximumRange: Float32, resolution: Float32, power: Float32, minDelay: int)

  function Legacy(sensor: Sensor): LegacySensor {
    LegacySensor(sensor.name, sensor.vendor, sensor.version, sensor.sensorType,
                 sensor.maximumRange, sensor.resolution, sensor.power, sensor.minDelay)
  }

  /**
   * Reads a sensor record back: the inverse of `SensorToJson` from SDK level N on.
   * None when a key is missing or holds a value of the wrong kind.
   */
  function SensorFromJson(r: map<string, Value>): Option<Sensor> {
    if && "name" in r && r["name"].Str?
       && "vendor" in r && r["vendor"].Str?
       && "version" in r && r["version"].Int?
       && "type" in r && r["type"].Int?
       && "reportingMode" in r && r["reportingMode"].Int?
       && "isDynamicSensor" in r && r["isDynamicSensor"].Bool?
       && "isWakeUpSensor" in r && r["isWakeUpSensor"].Bool?
       && "maxRange" in r && r["maxRange"].Float?
       && "resolution" in r && r["resolution"].Float?
       && "power" in r && r["power"].Float?
       && "minDelay" in r && r["minDelay"].Int?
       && "fifoReservedEventCount" in r && r["fifoReservedEventCount"].Int?
       && "fifoMaxEventCount" in r && r["fifoMaxEventCount"].Int?
       && "stringType" in r && r["stringType"].Str?
       && "maxDelay" in r && r["maxDelay"].Int?
       && "id" in r && r["id"].Int?
    then
      Some(Sensor(
        r["name"].s, r["vendor"].s, r["version"].i, r["type"].i, r["reportingMode"].i,
        r["isDynamicSensor"].b, r["isWakeUpSensor"].b, r["maxRange"].f, r["resolution"].f,
        r["power"].f, r["minDelay"].i, r["fifoReservedEventCount"].i, r["fifoMaxEventCount"].i,
        r["stringType"].s, r["maxDelay"].i, r["id"].i))
    else
      None
  }

  /** Reads the legacy attributes back from a sensor record of either SDK range. */
  function LegacyFromJson(r: map<string, Value>): Option<LegacySensor> {
    if && "name" in r && r["name"].Str?
       && "vendor" in r && r["vendor"].Str?
       && "version" in r && r["version"].Int?
       && "type" in r && r["type"].Int?
       && "maxRange" in r && r["maxRange"].Float?
       && "resolution" in r && r["resolution"].Float?
       && "power" in r && r["power"].Float?
       && "minDelay" in r && r["minDelay"].Int?
    then
      Some(LegacySensor(
        r["name"].s, r["vendor"].s, r["version"].i, r["type"].i,
        r["maxRange"].f, r["resolution"].f, r["power"].f, r["minDelay"].i))
    else
      None
  }

  lemma LegacyKeyCount()
    ensures |LegacySensorKeys| == 8
  {
  }

  lemma AddedKeyCount()
    ensures |AddedSensorKeys| == 8 && LegacySensorKeys !! AddedSensorKeys
  {
  }

  /** From SDK level N on a sensor record has exactly the sixteen full keys. */
  lemma FullSensorRecordKeys(sensor: Sensor, sdk: int)
    requires sdk >= N
    ensures SensorToJson(sensor, sdk).Keys == FullSensorKeys
    ensures |FullSensorKeys| == 16
    ensures "stringType" in FullSensorKeys && "id" in FullSensorKeys && "isWakeUpSensor" in FullSensorKeys
  {
    LegacyKeyCount();
    AddedKeyCount();
  }

  /** Below SDK level N a sensor record has exactly eight keys, all among the full ones. */
  lemma LegacySensorRecordKeys(sensor: Sensor, sdk: int)
    requires sdk < N
    ensures SensorToJson(sensor, sdk).Keys == LegacySensorKeys
    ensures |LegacySensorKeys| == 8
    ensures LegacySensorKeys < FullSensorKeys
  {
    LegacyKeyCount();
    AddedKeyCount();
  }

  /** From SDK level N the record loses nothing: reading it back gives the sensor. */
  lemma SensorRoundTrip(sensor: Sensor, sdk: int)
    requires sdk >= N
    ensures SensorFromJson(SensorToJson(sensor, sdk)) == Some(sensor)
  {
  }

  /**
   * At every SDK level the record keeps the legacy attributes; below N it keeps
   * nothing else, so two sensors have the same record exactly when they agree on them.
   */
  lemma LegacyRoundTrip(a: Sensor, b: Sensor, sdk: int)
    ensures LegacyFromJson(SensorToJson(a, sdk)) == Some(Legacy(a))
    ensures sdk < N ==> (SensorToJson(a, sdk) == SensorToJson(b, sdk) <==> Legacy(a) == Legacy(b))
  {
  }

  /** A sensor-event record has exactly the keys sensor, accuracy, timestamp and values. */
  lemma SensorEventRecordShape(event: SensorEvent, sdk: int)
    ensures SensorEventToJson(event, sdk).Keys == {"sensor", "accuracy", "timestamp", "values"}
    ensures SensorEventToJson(event, sdk)["sensor"] == Record(SensorToJson(event.sensor, sdk))
    ensures SensorEventToJson(event, sdk)["values"] == Floats(event.values)
    ensures SensorEventToJson(event, sdk)["accuracy"] == Int(event.accuracy)
    ensures SensorEventToJson(event, sdk)["timestamp"] == Int(event.timestamp)
  {
  }

  /** A trigger-event record has exactly sensor, timestamp and values, and no accuracy. */
  lemma TriggerEventRecordShape(event: TriggerEvent, sdk: int)
    ensures TriggerEventToJson(event, sdk).Keys == {"sensor", "timestamp", "values"}
    ensures "accuracy" !in TriggerEventToJson(event, sdk)
    ensures TriggerEventToJson(event, sdk)["sensor"] == Record(SensorToJson(event.sensor, sdk))
    ensures TriggerEventToJson(event, sdk)["values"] == Floats(event.values)
    ensures TriggerEventToJson(event, sdk)["timestamp"] == Int(event.timestamp)
  {
  }
}
