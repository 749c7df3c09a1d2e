/** The sensor snapshot shared by the sensor driver and the validation engine
    (`MaritimeSensorData`) and the maritime thresholds of the sensor header. */
module SensorData {
  import opened CSupport

  // Maritime sensor thresholds (TEMP_MIN_CELSIUS ... PRESSURE_MAX_HPA).
  const TempMinCelsius: real := -20.0
  const TempMaxCelsius: real := 60.0
  const HumidityMaxPct: real := 95.0
  const PressureMinHpa: real := 950.0
  const PressureMaxHpa: real := 1050.0

  /** The value held by one `MaritimeSensorData` record. */
  datatype SensorReading = SensorReading(
    temperatureC: Float,
    humidityPct: Float,
    pressureHpa: Float,
    accelX: Float, accelY: Float, accelZ: Float,
    gyroX: Float, gyroY: Float, gyroZ: Float,
    magX: Float, magY: Float, magZ: Float,
    caseTamperDetected: bool,
    batteryVoltage: Float,
    timestampMs: U32)

  /** A caller-owned `MaritimeSensorData` record, written in place by the
      sensor read and by the sanitisers; `fields` is its contents. */
  class MaritimeSensorData {
    var fields: SensorReading

    /** An uninitialised local record (its contents are arbitrary). */
    constructor (initial: SensorReading)
      ensures fields == initial
    {
      fields := initial;
    }
  }
}
