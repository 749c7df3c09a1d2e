/** The admission checks of the data-validation engine as data: each validator
    is a fixed list of range tests, each with the verdict and the context name
    it reports, and the first test that fails decides. The helper predicates
    `is_valid_*` and `is_maritime_environment_safe` live here as well. */
module ValidationChecks {
  import opened CSupport
  import opened ValidationTypes
  import opened SensorData

  /** One range test of a validator: whether it rejects the input, the verdict
      it returns and the context it names in the error log. */
  datatype Check = Check(fails: bool, verdict: ValidationResult, context: string)

  /** Every check reports a failure verdict under a printable context name. */
  predicate WellFormed(checks: seq<Check>)
  {
    forall i :: 0 <= i < |checks| ==> checks[i].verdict != ValidationOk && NulFree(checks[i].context)
  }

  /** The position of the first failing check, or `|checks|` when all pass. */
  function FirstFailing(checks: seq<Check>): (k: nat)
    ensures k <= |checks|
    ensures forall j :: 0 <= j < k ==> !checks[j].fails
    ensures k < |checks| ==> checks[k].fails
  {
    if |checks| == 0 then 0
    else if checks[0].fails then 0
    else 1 + FirstFailing(checks[1..])
  }

  /** The verdict of a first-failure-wins sequence of checks. */
  function Verdict(checks: seq<Check>): ValidationResult
  {
    var k := FirstFailing(checks);
    if k == |checks| then ValidationOk else checks[k].verdict
  }

  /** Once the checks before `i` pass and check `i` fails (or none is left),
      `i` is the first failure. */
  lemma FirstFailingAt(checks: seq<Check>, i: nat)
    requires i <= |checks|
    requires forall j :: 0 <= j < i ==> !checks[j].fails
    requires i < |checks| ==> checks[i].fails
    ensures FirstFailing(checks) == i
  {
  }

  /** A well-formed sequence of checks accepts exactly when every check
      passes, and otherwise reports the verdict of the first one that fails. */
  lemma VerdictMeaning(checks: seq<Check>)
    requires WellFormed(checks)
    ensures Verdict(checks) == ValidationOk <==> forall i :: 0 <= i < |checks| ==> !checks[i].fails
    ensures forall i :: (0 <= i < |checks| && checks[i].fails && (forall j :: 0 <= j < i ==> !checks[j].fails))
                          ==> Verdict(checks) == checks[i].verdict
  {
    forall i | 0 <= i < |checks| && checks[i].fails && (forall j :: 0 <= j < i ==> !checks[j].fails)
      ensures Verdict(checks) == checks[i].verdict
    {
      FirstFailingAt(checks, i);
    }
  }

  // ---------------------------------------------------------------------------
  // The four validators
  // ---------------------------------------------------------------------------

  /** The context names the validators report hold no NUL. */
  lemma ContextNamesNulFree()
    ensures NulFree("sensor_data") && NulFree("temperature") && NulFree("humidity") && NulFree("pressure")
    ensures NulFree("accelerometer") && NulFree("sensor_timestamp")
    ensures NulFree("latitude") && NulFree("longitude") && NulFree("altitude") && NulFree("gnss_accuracy")
    ensures NulFree("battery_voltage") && NulFree("battery_critical")
    ensures NulFree("case_tamper") && NulFree("case_open")
  {
  }

  /** `accel_magnitude < 0.5f || accel_magnitude > 20.0f` with the magnitude
      `sqrt(x*x + y*y + z*z)`: a NaN component makes the magnitude NaN, which
      passes; an infinite one makes it +inf, which fails. For finite values
      the squared magnitude is compared with 0.5^2 and 20^2. */
  predicate AccelFault(x: Float, y: Float, z: Float)
  {
    if x.NaN? || y.NaN? || z.NaN? then false
    else if x.Inf? || y.Inf? || z.Inf? then true
    else
      var m2 := x.val * x.val + y.val * y.val + z.val * z.val;
      m2 < 0.25 || m2 > 400.0
  }

  /** The freshness test: a timestamp from the future, or one older than the
      timeout (the `uint32_t` subtraction cannot wrap once the first test has
      failed). */
  predicate Stale(timestamp: U32, now: U32, timeout: U32)
  {
    timestamp > now || SubU32(now, timestamp) > timeout
  }

  /** `validate_maritime_sensor_data`: null, temperature, humidity, pressure,
      accelerometer, freshness. */
  function SensorChecks(cfg: ValidationConfig, data: Option<SensorReading>, now: U32): (checks: seq<Check>)
    ensures WellFormed(checks)
    ensures data.None? ==> |checks| == 1
    ensures data.Some? ==> |checks| == 5
  {
    ContextNamesNulFree();
    match data
    case None => [Check(true, NullPointer, "sensor_data")]
    case Some(d) => [
      Check(Outside(d.temperatureC, cfg.tempMinCelsius, cfg.tempMaxCelsius), OutOfRange, "temperature"),
      Check(Outside(d.humidityPct, 0.0, cfg.humidityMaxPct), OutOfRange, "humidity"),
      Check(Outside(d.pressureHpa, cfg.pressureMinHpa, cfg.pressureMaxHpa), MaritimeUnsafe, "pressure"),
      Check(AccelFault(d.accelX, d.accelY, d.accelZ), SensorFault, "accelerometer"),
      Check(Stale(d.timestampMs, now, cfg.sensorTimeoutMs), Communication, "sensor_timestamp")]
  }

  /** `is_valid_latitude`: inside the configured closed range (NaN is not). */
  predicate IsValidLatitude(cfg: ValidationConfig, lat: Float)
  {
    Within(lat, cfg.latMin, cfg.latMax)
  }

  /** `is_valid_longitude`. */
  predicate IsValidLongitude(cfg: ValidationConfig, lon: Float)
  {
    Within(lon, cfg.lonMin, cfg.lonMax)
  }

  /** `is_valid_altitude_maritime`: between sea level and the ceiling. */
  predicate IsValidAltitudeMaritime(cfg: ValidationConfig, alt: Float)
  {
    Within(alt, 0.0, cfg.altitudeMaxM)
  }

  /** `validate_gnss_position`: latitude, longitude, altitude, accuracy. */
  function GnssChecks(cfg: ValidationConfig, lat: Float, lon: Float, alt: Float, accuracy: Float)
    : (checks: seq<Check>)
    ensures WellFormed(checks) && |checks| == 4
  {
    ContextNamesNulFree();
    [Check(!IsValidLatitude(cfg, lat), OutOfRange, "latitude"),
     Check(!IsValidLongitude(cfg, lon), OutOfRange, "longitude"),
     Check(!IsValidAltitudeMaritime(cfg, alt), MaritimeUnsafe, "altitude"),
     Check(Gt(accuracy, 10.0), OutOfRange, "gnss_accuracy")]
  }

  /** `validate_battery_status`: the voltage range, then the critical level.
      The current is not an input: the source never reads it. */
  function BatteryChecks(cfg: ValidationConfig, voltage: Float): (checks: seq<Check>)
    ensures WellFormed(checks) && |checks| == 2
  {
    ContextNamesNulFree();
    [Check(Outside(voltage, cfg.batteryMinVoltage, cfg.batteryMaxVoltage), OutOfRange, "battery_voltage"),
     Check(Lt(voltage, cfg.batteryCriticalVoltage), MaritimeUnsafe, "battery_critical")]
  }

  /** `validate_case_integrity`: tampering, then an open case. */
  function CaseChecks(caseClosed: bool, tamperDetected: bool): (checks: seq<Check>)
    ensures WellFormed(checks) && |checks| == 2
  {
    ContextNamesNulFree();
    [Check(tamperDetected, SecurityBreach, "case_tamper"),
     Check(!caseClosed, MaritimeUnsafe, "case_open")]
  }

  // ---------------------------------------------------------------------------
  // Verdicts spelled out
  // ---------------------------------------------------------------------------

  /** The sensor verdicts in order: null first, then temperature and
      humidity (out of range), pressure (maritime-unsafe), the accelerometer
      (sensor fault) and freshness (communication), each reported only when
      every earlier test has passed. */
  lemma SensorVerdictOrder(cfg: ValidationConfig, data: Option<SensorReading>, now: U32)
    ensures data.None? ==> Verdict(SensorChecks(cfg, data, now)) == NullPointer
    ensures data.Some? ==> var d := data.value;
      Verdict(SensorChecks(cfg, data, now))
        == if Outside(d.temperatureC, cfg.tempMinCelsius, cfg.tempMaxCelsius) then OutOfRange
           else if Outside(d.humidityPct, 0.0, cfg.humidityMaxPct) then OutOfRange
           else if Outside(d.pressureHpa, cfg.pressureMinHpa, cfg.pressureMaxHpa) then MaritimeUnsafe
           else if AccelFault(d.accelX, d.accelY, d.accelZ) then SensorFault
           else if Stale(d.timestampMs, now, cfg.sensorTimeoutMs) then Communication
           else ValidationOk
  {
    var checks := SensorChecks(cfg, data, now);
    if data.None? || checks[0].fails {
      FirstFailingAt(checks, 0);
    } else if checks[1].fails {
      FirstFailingAt(checks, 1);
    } else if checks[2].fails {
      FirstFailingAt(checks, 2);
    } else if checks[3].fails {
      FirstFailingAt(checks, 3);
    } else if checks[4].fails {
      FirstFailingAt(checks, 4);
    } else {
      FirstFailingAt(checks, 5);
    }
  }

  /** A NaN reading passes every `x < lo || x > hi` test, so a NaN
      temperature, humidity or pressure is admitted when the rest is in order. */
  lemma NaNReadingsAdmitted(cfg: ValidationConfig, d: SensorReading, now: U32)
    requires d.temperatureC.NaN? && d.humidityPct.NaN? && d.pressureHpa.NaN?
    requires !AccelFault(d.accelX, d.accelY, d.accelZ) && !Stale(d.timestampMs, now, cfg.sensorTimeoutMs)
    ensures Verdict(SensorChecks(cfg, Some(d), now)) == ValidationOk
  {
    FirstFailingAt(SensorChecks(cfg, Some(d), now), 5);
  }

  /** The position verdicts in order: latitude and longitude (out of range),
      altitude (maritime-unsafe) and accuracy (out of range), each reported
      only when every earlier test has passed. */
  lemma GnssVerdictOrder(cfg: ValidationConfig, lat: Float, lon: Float, alt: Float, accuracy: Float)
    ensures Verdict(GnssChecks(cfg, lat, lon, alt, accuracy))
         == if !IsValidLatitude(cfg, lat) then OutOfRange
            else if !IsValidLongitude(cfg, lon) then OutOfRange
            else if !IsValidAltitudeMaritime(cfg, alt) then MaritimeUnsafe
            else if Gt(accuracy, 10.0) then OutOfRange
            else ValidationOk
  {
    var checks := GnssChecks(cfg, lat, lon, alt, accuracy);
    if !IsValidLatitude(cfg, lat) {
      FirstFailingAt(checks, 0);
    } else if !IsValidLongitude(cfg, lon) {
      FirstFailingAt(checks, 1);
    } else if !IsValidAltitudeMaritime(cfg, alt) {
      FirstFailingAt(checks, 2);
    } else if Gt(accuracy, 10.0) {
      FirstFailingAt(checks, 3);
    } else {
      FirstFailingAt(checks, 4);
    }
  }

  /** A NaN coordinate fails the positive range test, unlike a NaN sensor
      reading. */
  lemma NaNLatitudeRejected(cfg: ValidationConfig, lon: Float, alt: Float, accuracy: Float)
    ensures Verdict(GnssChecks(cfg, NaN, lon, alt, accuracy)) == OutOfRange
  {
    FirstFailingAt(GnssChecks(cfg, NaN, lon, alt, accuracy), 0);
  }

  /** Battery verdicts: out of range, then critical; in the default
      configuration the critical band [3.0, 3.2) V is reachable. */
  lemma BatteryVerdictOrder(cfg: ValidationConfig, voltage: Float)
    ensures var v := Verdict(BatteryChecks(cfg, voltage));
      && (Outside(voltage, cfg.batteryMinVoltage, cfg.batteryMaxVoltage) ==> v == OutOfRange)
      && ((!Outside(voltage, cfg.batteryMinVoltage, cfg.batteryMaxVoltage)
           && Lt(voltage, cfg.batteryCriticalVoltage)) ==> v == MaritimeUnsafe)
      && (v == ValidationOk <==>
            !Outside(voltage, cfg.batteryMinVoltage, cfg.batteryMaxVoltage) && !Lt(voltage, cfg.batteryCriticalVoltage))
  {
    var checks := BatteryChecks(cfg, voltage);
    if checks[0].fails {
      FirstFailingAt(checks, 0);
    } else if checks[1].fails {
      FirstFailingAt(checks, 1);
    } else {
      FirstFailingAt(checks, 2);
    }
  }

  /** 3.1 V is in range but below the critical level of the defaults. */
  lemma CriticalBandReachable()
    ensures Verdict(BatteryChecks(DefaultValidationConfig, Num(3.1))) == MaritimeUnsafe
  {
    FirstFailingAt(BatteryChecks(DefaultValidationConfig, Num(3.1)), 1);
  }

  /** Tampering takes precedence over an open case. */
  lemma CaseVerdictOrder(caseClosed: bool, tamperDetected: bool)
    ensures Verdict(CaseChecks(caseClosed, tamperDetected))
         == if tamperDetected then SecurityBreach else if !caseClosed then MaritimeUnsafe else ValidationOk
  {
    var checks := CaseChecks(caseClosed, tamperDetected);
    if tamperDetected {
      FirstFailingAt(checks, 0);
    } else if !caseClosed {
      FirstFailingAt(checks, 1);
    } else {
      FirstFailingAt(checks, 2);
    }
  }

  // ---------------------------------------------------------------------------
  // is_maritime_environment_safe
  // ---------------------------------------------------------------------------

  /** `is_maritime_environment_safe`: no null, temperature within [-10, 50],
      humidity at most 90 and pressure at least 980, each as a C comparison. */
  predicate IsMaritimeEnvironmentSafe(data: Option<SensorReading>)
  {
    && data.Some?
    && !Lt(data.value.temperatureC, -10.0) && !Gt(data.value.temperatureC, 50.0)
    && !Gt(data.value.humidityPct, 90.0)
    && !Lt(data.value.pressureHpa, 980.0)
  }

  /** A safe environment passes the temperature test and the upper humidity
      test of the default validation; it may still fail the lower humidity
      test and the pressure ceiling, which the safety test does not have. */
  lemma SafeEnvironmentAgainstDefaults(d: SensorReading)
    requires IsMaritimeEnvironmentSafe(Some(d))
    ensures !Outside(d.temperatureC, DefaultValidationConfig.tempMinCelsius, DefaultValidationConfig.tempMaxCelsius)
    ensures !Gt(d.humidityPct, DefaultValidationConfig.humidityMaxPct)
  {
  }

  /** A negative humidity is safe by `is_maritime_environment_safe` yet
      rejected as out of range by the sensor validation. */
  lemma SafeButRejected(d: SensorReading, now: U32)
    requires d.temperatureC == Num(20.0) && d.humidityPct == Num(-1.0) && d.pressureHpa == Num(1000.0)
    ensures IsMaritimeEnvironmentSafe(Some(d))
    ensures Verdict(SensorChecks(DefaultValidationConfig, Some(d), now)) == OutOfRange
  {
    FirstFailingAt(SensorChecks(DefaultValidationConfig, Some(d), now), 1);
  }
}
