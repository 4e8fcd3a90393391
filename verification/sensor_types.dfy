/**
 * The sensor-type identifier table of the plugin (`setType`) and the event-channel
 * names built from it.
 *
 * The numeric codes and string identifiers are the values Android publishes for
 * `Sensor.TYPE_*` and `Sensor.STRING_TYPE_*`; codes 22 and 23 are the two the plugin
 * spells out as literals. `TYPE_ALL` is the "every type" code used as an argument default.
 */
module SensorTypes {
  import opened Wrappers

  const TYPE_ALL: int := -1

  const TYPE_ACCELEROMETER: int := 1
  const TYPE_MAGNETIC_FIELD: int := 2
  const TYPE_ORIENTATION: int := 3
  const TYPE_GYROSCOPE: int := 4
  const TYPE_LIGHT: int := 5
  const TYPE_PRESSURE: int := 6
  const TYPE_TEMPERATURE: int := 7
  const TYPE_PROXIMITY: int := 8
  const TYPE_GRAVITY: int := 9
  const TYPE_LINEAR_ACCELERATION: int := 10
  const TYPE_ROTATION_VECTOR: int := 11
  const TYPE_RELATIVE_HUMIDITY: int := 12
  const TYPE_AMBIENT_TEMPERATURE: int := 13
  const TYPE_MAGNETIC_FIELD_UNCALIBRATED: int := 14
  const TYPE_GAME_ROTATION_VECTOR: int := 15
  const TYPE_GYROSCOPE_UNCALIBRATED: int := 16
  const TYPE_SIGNIFICANT_MOTION: int := 17
  const TYPE_STEP_DETECTOR: int := 18
  const TYPE_STEP_COUNTER: int := 19
  const TYPE_GEOMAGNETIC_ROTATION_VECTOR: int := 20
  const TYPE_HEART_RATE: int := 21
  const TYPE_LOW_LATENCY_OFFBODY_DETECT: int := 34
  const TYPE_ACCELEROMETER_UNCALIBRATED: int := 35
  const TYPE_HINGE_ANGLE: int := 36

  const STRING_TYPE_ACCELEROMETER: string := "android.sensor.accelerometer"
  const STRING_TYPE_MAGNETIC_FIELD: string := "android.sensor.magnetic_field"
  const STRING_TYPE_ORIENTATION: string := "android.sensor.orientation"
  const STRING_TYPE_GYROSCOPE: string := "android.sensor.gyroscope"
  const STRING_TYPE_LIGHT: string := "android.sensor.light"
  const STRING_TYPE_PRESSURE: string := "android.sensor.pressure"
  const STRING_TYPE_TEMPERATURE: string := "android.sensor.temperature"
  const STRING_TYPE_PROXIMITY: string := "android.sensor.proximity"
  const STRING_TYPE_GRAVITY: string := "android.sensor.gravity"
  const STRING_TYPE_LINEAR_ACCELERATION: string := "android.sensor.linear_acceleration"
  const STRING_TYPE_ROTATION_VECTOR: string := "android.sensor.rotation_vector"
  const STRING_TYPE_RELATIVE_HUMIDITY: string := "android.sensor.relative_humidity"
  const STRING_TYPE_AMBIENT_TEMPERATURE: string := "android.sensor.ambient_temperature"
  const STRING_TYPE_MAGNETIC_FIELD_UNCALIBRATED: string := "android.sensor.magnetic_field_uncalibrated"
  const STRING_TYPE_GAME_ROTATION_VECTOR: string := "android.sensor.game_rotation_vector"
  const STRING_TYPE_GYROSCOPE_UNCALIBRATED: string := "android.sensor.gyroscope_uncalibrated"
  const STRING_TYPE_SIGNIFICANT_MOTION: string := "android.sensor.significant_motion"
  const STRING_TYPE_STEP_DETECTOR: string := "android.sensor.step_detector"
  const STRING_TYPE_STEP_COUNTER: string := "android.sensor.step_counter"
  const STRING_TYPE_GEOMAGNETIC_ROTATION_VECTOR: string := "android.sensor.geomagnetic_rotation_vector"
  const STRING_TYPE_HEART_RATE: string := "android.sensor.heart_rate"
  const STRING_TYPE_LOW_LATENCY_OFFBODY_DETECT: string := "android.sensor.low_latency_offbody_detect"
  const STRING_TYPE_ACCELEROMETER_UNCALIBRATED: string := "android.sensor.accelerometer_uncalibrated"
  const STRING_TYPE_HINGE_ANGLE: string := "android.sensor.hinge_angle"

  /** The two codes the table spells out as literals rather than as SDK constants. */
  const TILT_DETECTOR_CODE: int := 22
  const WAKE_GESTURE_CODE: int := 23
  const TILT_DETECTOR_ID: string := "android.sensor.tilt_detector"
  const WAKE_GESTURE_ID: string := "android.sensor.wake_gesture"

  /** The fallback identifier for every code the table does not list. */
  const UNKNOWN: string := "Unknown"

  /** Prefix of every per-sensor-type event channel name. */
  const EVENT_CHANNEL_PREFIX: string := "com.switches/sensor_manager_android/"

  /** The codes the table lists. */
  const ListedTypes: set<int> := {
    TYPE_ACCELEROMETER, TYPE_AMBIENT_TEMPERATURE, TYPE_GAME_ROTATION_VECTOR,
    TYPE_GEOMAGNETIC_ROTATION_VECTOR, TYPE_GRAVITY, TYPE_GYROSCOPE,
    TYPE_GYROSCOPE_UNCALIBRATED, TYPE_HEART_RATE, TYPE_LIGHT, TYPE_LINEAR_ACCELERATION,
    TYPE_MAGNETIC_FIELD, TYPE_MAGNETIC_FIELD_UNCALIBRATED, TYPE_PRESSURE, TYPE_PROXIMITY,
    TYPE_RELATIVE_HUMIDITY, TYPE_ROTATION_VECTOR, TYPE_SIGNIFICANT_MOTION,
    TYPE_STEP_COUNTER, TYPE_STEP_DETECTOR, TILT_DETECTOR_CODE, WAKE_GESTURE_CODE,
    TYPE_ORIENTATION, TYPE_TEMPERATURE, TYPE_LOW_LATENCY_OFFBODY_DETECT,
    TYPE_ACCELEROMETER_UNCALIBRATED, TYPE_HINGE_ANGLE
  }

  /** `setType`: the string identifier of a sensor-type code, "Unknown" when unlisted. */
  function SetType(sensorType: int): string {
    if sensorType == TYPE_ACCELEROMETER then STRING_TYPE_ACCELEROMETER
    else if sensorType == TYPE_AMBIENT_TEMPERATURE then STRING_TYPE_AMBIENT_TEMPERATURE
    else if sensorType == TYPE_GAME_ROTATION_VECTOR then STRING_TYPE_GAME_ROTATION_VECTOR
    else if sensorType == TYPE_GEOMAGNETIC_ROTATION_VECTOR then STRING_TYPE_GEOMAGNETIC_ROTATION_VECTOR
    else if sensorType == TYPE_GRAVITY then STRING_TYPE_GRAVITY
    else if sensorType == TYPE_GYROSCOPE then STRING_TYPE_GYROSCOPE
    else if sensorType == TYPE_GYROSCOPE_UNCALIBRATED then STRING_TYPE_GYROSCOPE_UNCALIBRATED
    else if sensorType == TYPE_HEART_RATE then STRING_TYPE_HEART_RATE
    else if sensorType == TYPE_LIGHT then STRING_TYPE_LIGHT
    else if sensorType == TYPE_LINEAR_ACCELERATION then STRING_TYPE_LINEAR_ACCELERATION
    else if sensorType == TYPE_MAGNETIC_FIELD then STRING_TYPE_MAGNETIC_FIELD
    else if sensorType == TYPE_MAGNETIC_FIELD_UNCALIBRATED then STRING_TYPE_MAGNETIC_FIELD_UNCALIBRATED
    else if sensorType == TYPE_PRESSURE then STRING_TYPE_PRESSURE
    else if sensorType == TYPE_PROXIMITY then STRING_TYPE_PROXIMITY
    else if sensorType == TYPE_RELATIVE_HUMIDITY then STRING_TYPE_RELATIVE_HUMIDITY
    else if sensorType == TYPE_ROTATION_VECTOR then STRING_TYPE_ROTATION_VECTOR
    else if sensorType == TYPE_SIGNIFICANT_MOTION then STRING_TYPE_SIGNIFICANT_MOTION
    else if sensorType == TYPE_STEP_COUNTER then STRING_TYPE_STEP_COUNTER
    else if sensorType == TYPE_STEP_DETECTOR then STRING_TYPE_STEP_DETECTOR
    else if sensorType == TILT_DETECTOR_CODE then TILT_DETECTOR_ID
    else if sensorType == WAKE_GESTURE_CODE then WAKE_GESTURE_ID
    else if sensorType == TYPE_ORIENTATION then STRING_TYPE_ORIENTATION
    else if sensorType == TYPE_TEMPERATURE then STRING_TYPE_TEMPERATURE
    else if sensorType == TYPE_LOW_LATENCY_OFFBODY_DETECT then STRING_TYPE_LOW_LATENCY_OFFBODY_DETECT
    else if sensorType == TYPE_ACCELEROMETER_UNCALIBRATED then STRING_TYPE_ACCELEROMETER_UNCALIBRATED
    else if sensorType == TYPE_HINGE_ANGLE then STRING_TYPE_HINGE_ANGLE
    else UNKNOWN
  }

  /**
   * The reverse table, an independent definition keyed by identifier: the code a
   * string identifier stands for, None for anything else (including "Unknown").
   */
  function TypeCode(id: string): Option<int> {
    if id == STRING_TYPE_ACCELEROMETER then Some(TYPE_ACCELEROMETER)
    else if id == STRING_TYPE_MAGNETIC_FIELD then Some(TYPE_MAGNETIC_FIELD)
    else if id == STRING_TYPE_ORIENTATION then Some(TYPE_ORIENTATION)
    else if id == STRING_TYPE_GYROSCOPE then Some(TYPE_GYROSCOPE)
    else if id == STRING_TYPE_LIGHT then Some(TYPE_LIGHT)
    else if id == STRING_TYPE_PRESSURE then Some(TYPE_PRESSURE)
    else if id == STRING_TYPE_TEMPERATURE then Some(TYPE_TEMPERATURE)
    else if id == STRING_TYPE_PROXIMITY then Some(TYPE_PROXIMITY)
    else if id == STRING_TYPE_GRAVITY then Some(TYPE_GRAVITY)
    else if id == STRING_TYPE_LINEAR_ACCELERATION then Some(TYPE_LINEAR_ACCELERATION)
    else if id == STRING_TYPE_ROTATION_VECTOR then Some(TYPE_ROTATION_VECTOR)
    else if id == STRING_TYPE_RELATIVE_HUMIDITY then Some(TYPE_RELATIVE_HUMIDITY)
    else if id == STRING_TYPE_AMBIENT_TEMPERATURE then Some(TYPE_AMBIENT_TEMPERATURE)
    else if id == STRING_TYPE_MAGNETIC_FIELD_UNCALIBRATED then Some(TYPE_MAGNETIC_FIELD_UNCALIBRATED)
    else if id == STRING_TYPE_GAME_ROTATION_VECTOR then Some(TYPE_GAME_ROTATION_VECTOR)
    else if id == STRING_TYPE_GYROSCOPE_UNCALIBRATED then Some(TYPE_GYROSCOPE_UNCALIBRATED)
    else if id == STRING_TYPE_SIGNIFICANT_MOTION then Some(TYPE_SIGNIFICANT_MOTION)
    else if id == STRING_TYPE_STEP_DETECTOR then Some(TYPE_STEP_DETECTOR)
    else if id == STRING_TYPE_STEP_COUNTER then Some(TYPE_STEP_COUNTER)
    else if id == STRING_TYPE_GEOMAGNETIC_ROTATION_VECTOR then Some(TYPE_GEOMAGNETIC_ROTATION_VECTOR)
    else if id == STRING_TYPE_HEART_RATE then Some(TYPE_HEART_RATE)
    else if id == TILT_DETECTOR_ID then Some(TILT_DETECTOR_CODE)
    else if id == WAKE_GESTURE_ID then Some(WAKE_GESTURE_CODE)
    else if id == STRING_TYPE_LOW_LATENCY_OFFBODY_DETECT then Some(TYPE_LOW_LATENCY_OFFBODY_DETECT)
    else if id == STRING_TYPE_ACCELEROMETER_UNCALIBRATED then Some(TYPE_ACCELEROMETER_UNCALIBRATED)
    else if id == STRING_TYPE_HINGE_ANGLE then Some(TYPE_HINGE_ANGLE)
    else None
  }

  /** The event-channel name of a sensor type: the prefix followed by its identifier. */
  function ChannelName(sensorType: int): string {
    EVENT_CHANNEL_PREFIX + SetType(sensorType)
  }

  /** Every code the table does not list maps to exactly "Unknown", and only those do. */
  lemma UnknownFallback(sensorType: int)
    ensures SetType(sensorType) == UNKNOWN <==> sensorType !in ListedTypes
  {
  }

  /** The two literal rows of the table. */
  lemma LiteralRows()
    ensures SetType(22) == "android.sensor.tilt_detector"
    ensures SetType(23) == "android.sensor.wake_gesture"
  {
  }

  /**
   * The table and its reverse agree: a listed code is recovered from its identifier,
   * an unlisted one yields an identifier that stands for no code.
   */
  lemma IdentifierRoundTrip(sensorType: int)
    ensures TypeCode(SetType(sensorType)) == if sensorType in ListedTypes then Some(sensorType) else None
  {
    if sensorType !in ListedTypes {
      UnknownFallback(sensorType);
      assert TypeCode(UNKNOWN) == None;
    } else if sensorType <= 9 {
      RoundTripLow(sensorType);
    } else if sensorType <= 19 {
      RoundTripMiddle(sensorType);
    } else {
      RoundTripHigh(sensorType);
    }
  }

  lemma RoundTripLow(sensorType: int)
    requires sensorType in ListedTypes && sensorType <= 9
    ensures TypeCode(SetType(sensorType)) == Some(sensorType)
  {
  }

  lemma RoundTripMiddle(sensorType: int)
    requires sensorType in ListedTypes && 9 < sensorType <= 19
    ensures TypeCode(SetType(sensorType)) == Some(sensorType)
  {
  }

  lemma RoundTripHigh(sensorType: int)
    requires sensorType in ListedTypes && 19 < sensorType
    ensures TypeCode(SetType(sensorType)) == Some(sensorType)
  {
  }

  /** Two listed codes never share an event channel. */
  lemma ChannelNameInjective(a: int, b: int)
    requires a in ListedTypes && b in ListedTypes && a != b
    ensures ChannelName(a) != ChannelName(b)
  {
    IdentifierRoundTrip(a);
    IdentifierRoundTrip(b);
    assert SetType(a) == ChannelName(a)[|EVENT_CHANNEL_PREFIX|..];
    assert SetType(b) == ChannelName(b)[|EVENT_CHANNEL_PREFIX|..];
  }

  /** All unlisted codes share the one channel name ".../Unknown". */
  lemma UnknownTypesShareChannel(a: int, b: int)
    requires a !in ListedTypes && b !in ListedTypes
    ensures ChannelName(a) == ChannelName(b) == EVENT_CHANNEL_PREFIX + UNKNOWN
  {
    UnknownFallback(a);
    UnknownFallback(b);
  }
}
