/** The sensor driver's admission logic: the environment threshold test
    `validate_maritime_environment` and the recovery policy of
    `read_maritime_sensors`, which validates a fresh snapshot and, on an
    out-of-range verdict only, clamps the environmental readings and keeps
    going. The hardware reads are replaced by the snapshot passed in. */
module MaritimeSensors {
  import opened CSupport
  import opened Logger
  import opened ValidationTypes
  import opened ValidationChecks
  import opened Validation
  import opened Sanitizers
  import opened SensorData

  /** `validate_maritime_environment`: not null, temperature and pressure
      inside the sensor thresholds, humidity not above its maximum (there is
      no lower humidity bound), no tampering. */
  predicate ValidateMaritimeEnvironment(data: Option<SensorReading>)
  {
    && data.Some?
    && !Outside(data.value.temperatureC, TempMinCelsius, TempMaxCelsius)
    && !Gt(data.value.humidityPct, HumidityMaxPct)
    && !Outside(data.value.pressureHpa, PressureMinHpa, PressureMaxHpa)
    && !data.value.caseTamperDetected
  }

  /** On finite readings the environment test accepts exactly a temperature
      in [-20, 60], a humidity of at most 95, a pressure in [950, 1050] and no
      tampering; a null record is refused, and NaN readings pass every test. */
  lemma EnvironmentOnFiniteReadings(d: SensorReading)
    ensures !ValidateMaritimeEnvironment(None)
    ensures d.temperatureC.Num? && d.humidityPct.Num? && d.pressureHpa.Num? ==>
      (ValidateMaritimeEnvironment(Some(d)) <==>
         && -20.0 <= d.temperatureC.val <= 60.0
         && d.humidityPct.val <= 95.0
         && 950.0 <= d.pressureHpa.val <= 1050.0
         && !d.caseTamperDetected)
    ensures d.temperatureC.NaN? && d.humidityPct.NaN? && d.pressureHpa.NaN? ==>
      (ValidateMaritimeEnvironment(Some(d)) <==> !d.caseTamperDetected)
  {
    OutsideMeaning(d.temperatureC, TempMinCelsius, TempMaxCelsius);
    OutsideMeaning(d.pressureHpa, PressureMinHpa, PressureMaxHpa);
  }

  /** The environment test and the default sensor validation share their
      thresholds: an admitted snapshot without tampering passes the
      environment test, and a snapshot that passes the environment test with
      a non-negative humidity is neither out of range nor maritime-unsafe. */
  lemma EnvironmentAgainstValidation(d: SensorReading, now: U32)
    ensures Verdict(SensorChecks(DefaultValidationConfig, Some(d), now)) == ValidationOk && !d.caseTamperDetected
            ==> ValidateMaritimeEnvironment(Some(d))
    ensures ValidateMaritimeEnvironment(Some(d)) && !Lt(d.humidityPct, 0.0)
            ==> Verdict(SensorChecks(DefaultValidationConfig, Some(d), now)) !in {OutOfRange, MaritimeUnsafe}
  {
    SensorVerdictOrder(DefaultValidationConfig, Some(d), now);
    var checks := SensorChecks(DefaultValidationConfig, Some(d), now);
    if ValidateMaritimeEnvironment(Some(d)) && !Lt(d.humidityPct, 0.0) {
      if checks[3].fails {
        FirstFailingAt(checks, 3);
      } else if checks[4].fails {
        FirstFailingAt(checks, 4);
      }
    }
  }

  /** A negative humidity passes the environment test, which has no lower
      bound. */
  lemma NoLowerHumidityBound(d: SensorReading)
    requires d.temperatureC == Num(20.0) && d.humidityPct == Num(-50.0) && d.pressureHpa == Num(1000.0)
    requires !d.caseTamperDetected
    ensures ValidateMaritimeEnvironment(Some(d))
  {
  }

  /** What the recovery step of `read_maritime_sensors` writes: temperature,
      humidity and pressure each passed through `sanitize_sensor_reading`
      with its own range. */
  function Recovered(d: SensorReading): (r: SensorReading)
    ensures r.temperatureC.Num? && -20.0 <= r.temperatureC.val <= 60.0
    ensures r.humidityPct.Num? && 0.0 <= r.humidityPct.val <= 100.0
    ensures r.pressureHpa.Num? && 950.0 <= r.pressureHpa.val <= 1050.0
    ensures r.(temperatureC := d.temperatureC, humidityPct := d.humidityPct, pressureHpa := d.pressureHpa) == d
  {
    ReadingSanitized(d.temperatureC, -20.0, 60.0);
    ReadingSanitized(d.humidityPct, 0.0, 100.0);
    ReadingSanitized(d.pressureHpa, 950.0, 1050.0);
    d.(temperatureC := SanitizedReading(d.temperatureC, -20.0, 60.0),
       humidityPct := SanitizedReading(d.humidityPct, 0.0, 100.0),
       pressureHpa := SanitizedReading(d.pressureHpa, 950.0, 1050.0))
  }

  /** The recovery clamps humidity into [0, 100] while validation admits at
      most 95: a 99 % reading is rejected, survives recovery unchanged, and
      the read still reports success with a snapshot validation rejects. */
  lemma RecoveryCanKeepRejectedHumidity(d: SensorReading, now: U32)
    requires d.temperatureC == Num(20.0) && d.humidityPct == Num(99.0)
    ensures Verdict(SensorChecks(DefaultValidationConfig, Some(d), now)) == OutOfRange
    ensures Recovered(d).humidityPct == d.humidityPct
    ensures Verdict(SensorChecks(DefaultValidationConfig, Some(Recovered(d)), now)) == OutOfRange
  {
    FirstFailingAt(SensorChecks(DefaultValidationConfig, Some(d), now), 1);
    FirstFailingAt(SensorChecks(DefaultValidationConfig, Some(Recovered(d)), now), 1);
  }

  /** A snapshot stamped with the same clock reading the validation uses is
      never stale. */
  lemma SameTickNeverStale(d: SensorReading, now: U32)
    requires d.timestampMs == now
    ensures Verdict(SensorChecks(DefaultValidationConfig, Some(d), now)) != Communication
  {
    var checks := SensorChecks(DefaultValidationConfig, Some(d), now);
    if checks[0].fails {
      FirstFailingAt(checks, 0);
    } else if checks[1].fails {
      FirstFailingAt(checks, 1);
    } else if checks[2].fails {
      FirstFailingAt(checks, 2);
    } else if checks[3].fails {
      FirstFailingAt(checks, 3);
    } else {
      FirstFailingAt(checks, 5);
    }
  }

  /** When `millis()` wraps between stamping the snapshot and validating it,
      the snapshot is "from the future" and the read fails with a
      communication error, although the data is fresh. */
  lemma ClockWrapFailsRead(d: SensorReading)
    requires d.timestampMs == 0xFFFF_FFFF
    requires !Outside(d.temperatureC, -20.0, 60.0) && !Outside(d.humidityPct, 0.0, 95.0)
    requires !Outside(d.pressureHpa, 950.0, 1050.0) && !AccelFault(d.accelX, d.accelY, d.accelZ)
    ensures Verdict(SensorChecks(DefaultValidationConfig, Some(d), 0)) == Communication
  {
    FirstFailingAt(SensorChecks(DefaultValidationConfig, Some(d), 0), 4);
  }

  /** The driver's `sensors_initialized` flag. */
  class SensorDriver {
    var sensorsInitialized: bool

    constructor ()
      ensures !sensorsInitialized
    {
      sensorsInitialized := false;
    }

    /** The state change of `setup_maritime_sensors`: the flag is set. */
    method Setup()
      modifies this
      ensures sensorsInitialized
    {
      sensorsInitialized := true;
    }

    /** `read_maritime_sensors`: refuses before setup or for a null record;
        otherwise writes `snapshot` stamped with `readTime` into the record,
        validates it at `now`, recovers an out-of-range snapshot and fails on
        any other rejection. */
    method ReadMaritimeSensors(validator: Validator, logger: Logger, data: MaritimeSensorData?,
                               snapshot: SensorReading, readTime: U32, now: U32)
      returns (ok: bool)
      requires validator.Valid() && logger.Valid()
      modifies data, validator, logger
      ensures validator.Valid() && logger.Valid() && logger.config == old(logger.config)
      ensures logger.systemStartTime == old(logger.systemStartTime)
      ensures !sensorsInitialized || data == null ==>
        && !ok
        && validator.stats == old(validator.stats) && logger.Sinks() == old(logger.Sinks())
        && (data != null ==> data.fields == old(data.fields))
      ensures sensorsInitialized && data != null ==>
        var read := snapshot.(timestampMs := readTime);
        var checks := SensorChecks(validator.config, Some(read), now);
        var verdict := Verdict(checks);
        && ok == (verdict == ValidationOk || verdict == OutOfRange)
        && data.fields == (if verdict == OutOfRange then Recovered(read) else read)
        && validator.stats == Tallied(old(validator.stats), now, verdict, SensorGroup)
        && logger.Sinks() == Reported(logger.config, old(logger.Sinks()), now, checks)
    {
      if !sensorsInitialized || data == null {
        return false;
      }
      data.fields := snapshot.(timestampMs := readTime);
      var verdict := validator.ValidateSensorData(logger, now, Some(data.fields));
      if verdict != ValidationOk {
        if verdict == OutOfRange {
          RecoverEnvironment(data);
        } else {
          return false;
        }
      }
      return true;
    }

    /** The three `sanitize_sensor_reading` calls of the recovery step. */
    method RecoverEnvironment(data: MaritimeSensorData)
      modifies data
      ensures data.fields == Recovered(old(data.fields))
    {
      var _, t := SanitizeSensorReading(Some(data.fields.temperatureC), -20.0, 60.0);
      data.fields := data.fields.(temperatureC := t.value);
      var _, h := SanitizeSensorReading(Some(data.fields.humidityPct), 0.0, 100.0);
      data.fields := data.fields.(humidityPct := h.value);
      var _, p := SanitizeSensorReading(Some(data.fields.pressureHpa), 950.0, 1050.0);
      data.fields := data.fields.(pressureHpa := p.value);
    }
  }
}
