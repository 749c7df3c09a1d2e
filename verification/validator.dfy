/** The validation engine's global state (`validation_config` and
    `validation_stats`) and the operations that update it: the four
    validators, `log_validation_error`, `update_validation_stats` and
    `reset_validation_stats`. A failed validation writes one ERROR line to the
    logger, so the validators take the logger object as well. */
module Validation {
  import opened CSupport
  import opened LoggerTypes
  import opened LogLine
  import opened Logger
  import opened ValidationTypes
  import opened ValidationChecks
  import opened SensorData

  /** The text `log_validation_error` formats: "%s: %s" with the context
      ("Unknown" for a null one) and the verdict's name. */
  function ErrorMessage(result: nat, context: Option<string>): (r: string)
    requires context.Some? ==> NulFree(context.value)
    ensures NulFree(r)
    ensures var ctx := if context.Some? then context.value else "Unknown";
      && |r| == |ctx| + 2 + |ResultToString(result)|
      && r[..|ctx|] == ctx && r[|ctx|..|ctx| + 2] == ": " && r[|ctx| + 2..] == ResultToString(result)
  {
    (if context.Some? then context.value else "Unknown") + ": " + ResultToString(result)
  }

  /** What a validation does to the logger: nothing when every check passes,
      otherwise one ERROR line in the VALIDATION category naming the first
      failing check and its verdict. */
  function Reported(lcfg: LoggerConfig, s: LogSinks, now: U32, checks: seq<Check>): (r: LogSinks)
    requires Capacity(lcfg) >= 1 && WellShaped(s.stats) && WellFormed(checks)
    ensures WellShaped(r.stats)
  {
    var k := FirstFailing(checks);
    if k == |checks| then s
    else LogEffect(lcfg, s, now, Error, CatValidation, ErrorMessage(checks[k].verdict, Some(checks[k].context)))
  }

  class Validator {
    /** `validation_config`: read by every check, written by none. */
    const config: ValidationConfig
    /** `validation_stats`. */
    var stats: ValidationStats

    /** The bookkeeping invariant: every validation since the last reset was
        counted once as a success or a failure. */
    ghost predicate Valid()
      reads this
    {
      Balanced(stats)
    }

    /** Power-on state: default thresholds, zeroed statistics. */
    constructor ()
      ensures config == DefaultValidationConfig && stats == ZeroValidationStats && Valid()
    {
      config := DefaultValidationConfig;
      stats := ZeroValidationStats;
    }

    /** `reset_validation_stats`. */
    method ResetStats()
      modifies this
      ensures stats == ZeroValidationStats && Valid()
    {
      stats := ZeroValidationStats;
    }

    /** `update_validation_stats`: a tally with no per-category counter. */
    method UpdateStats(now: U32, result: ValidationResult)
      requires Valid()
      modifies this
      ensures Valid() && stats == Tallied(old(stats), now, result, NoGroup)
    {
      TallyKeepsBalance(stats, now, result, NoGroup);
      stats := stats.(totalValidations := IncU32(stats.totalValidations));
      if result == ValidationOk {
        stats := stats.(successfulValidations := IncU32(stats.successfulValidations));
      } else {
        stats := stats.(failedValidations := IncU32(stats.failedValidations));
        stats := stats.(lastErrorCode := result, lastErrorTimestamp := now);
      }
    }

    /** `log_validation_error`: one ERROR line, then the last-error fields. */
    method LogValidationError(logger: Logger, now: U32, result: ValidationResult, context: Option<string>)
      requires logger.Valid() && (context.Some? ==> NulFree(context.value))
      modifies this, logger
      ensures stats == old(stats).(lastErrorCode := result, lastErrorTimestamp := now)
      ensures logger.Valid() && logger.config == old(logger.config)
      ensures logger.systemStartTime == old(logger.systemStartTime)
      ensures logger.Sinks()
           == LogEffect(logger.config, old(logger.Sinks()), now, Error, CatValidation, ErrorMessage(result, context))
    {
      logger.Log(now, Error, CatValidation, ErrorMessage(result, context));
      stats := stats.(lastErrorCode := result, lastErrorTimestamp := now);
    }

    /** The common tail of every validator once the verdict is known: a
        failure is logged and counted against the failure count and the
        validator's group, a success against the success count. */
    method Conclude(logger: Logger, now: U32, verdict: ValidationResult, context: string, group: ErrorGroup)
      requires logger.Valid() && NulFree(context)
      modifies this, logger
      ensures stats == if verdict == ValidationOk
                       then old(stats).(successfulValidations := IncU32(old(stats).successfulValidations))
                       else Rejected(old(stats), now, verdict, group)
      ensures logger.Valid() && logger.config == old(logger.config)
      ensures logger.systemStartTime == old(logger.systemStartTime)
      ensures logger.Sinks() == if verdict == ValidationOk then old(logger.Sinks())
                                else LogEffect(logger.config, old(logger.Sinks()), now, Error, CatValidation,
                                               ErrorMessage(verdict, Some(context)))
    {
      if verdict == ValidationOk {
        stats := stats.(successfulValidations := IncU32(stats.successfulValidations));
        return;
      }
      LogValidationError(logger, now, verdict, Some(context));
      stats := stats.(failedValidations := IncU32(stats.failedValidations));
      match group
      case SensorGroup => stats := stats.(sensorErrors := IncU32(stats.sensorErrors));
      case PositionGroup => stats := stats.(positionErrors := IncU32(stats.positionErrors));
      case SecurityGroup => stats := stats.(securityErrors := IncU32(stats.securityErrors));
      case NoGroup =>
    }

    /** `validate_maritime_sensor_data`. */
    method ValidateSensorData(logger: Logger, now: U32, data: Option<SensorReading>) returns (r: ValidationResult)
      requires Valid() && logger.Valid()
      modifies this, logger
      ensures Valid()
      ensures r == Verdict(SensorChecks(config, data, now))
      ensures stats == Tallied(old(stats), now, r, SensorGroup)
      ensures logger.Valid() && logger.config == old(logger.config)
      ensures logger.systemStartTime == old(logger.systemStartTime)
      ensures logger.Sinks() == Reported(logger.config, old(logger.Sinks()), now, SensorChecks(config, data, now))
    {
      ghost var checks := SensorChecks(config, data, now);
      ContextNamesNulFree();
      stats := stats.(totalValidations := IncU32(stats.totalValidations));
      var context := "";
      if data.None? {
        r, context := NullPointer, "sensor_data";
        FirstFailingAt(checks, 0);
      } else if Lt(data.value.temperatureC, config.tempMinCelsius)
             || Gt(data.value.temperatureC, config.tempMaxCelsius) {
        r, context := OutOfRange, "temperature";
        FirstFailingAt(checks, 0);
      } else if Lt(data.value.humidityPct, 0.0) || Gt(data.value.humidityPct, config.humidityMaxPct) {
        r, context := OutOfRange, "humidity";
        FirstFailingAt(checks, 1);
      } else if Lt(data.value.pressureHpa, config.pressureMinHpa)
             || Gt(data.value.pressureHpa, config.pressureMaxHpa) {
        r, context := MaritimeUnsafe, "pressure";
        FirstFailingAt(checks, 2);
      } else if AccelFault(data.value.accelX, data.value.accelY, data.value.accelZ) {
        r, context := SensorFault, "accelerometer";
        FirstFailingAt(checks, 3);
      } else if data.value.timestampMs > now || SubU32(now, data.value.timestampMs) > config.sensorTimeoutMs {
        r, context := Communication, "sensor_timestamp";
        FirstFailingAt(checks, 4);
      } else {
        r := ValidationOk;
        FirstFailingAt(checks, 5);
      }
      TallyKeepsBalance(old(stats), now, r, SensorGroup);
      Conclude(logger, now, r, context, SensorGroup);
    }

    /** `validate_gnss_position`. */
    method ValidateGnssPosition(logger: Logger, now: U32, lat: Float, lon: Float, alt: Float, accuracy: Float)
      returns (r: ValidationResult)
      requires Valid() && logger.Valid()
      modifies this, logger
      ensures Valid()
      ensures r == Verdict(GnssChecks(config, lat, lon, alt, accuracy))
      ensures stats == Tallied(old(stats), now, r, PositionGroup)
      ensures logger.Valid() && logger.config == old(logger.config)
      ensures logger.systemStartTime == old(logger.systemStartTime)
      ensures logger.Sinks()
           == Reported(logger.config, old(logger.Sinks()), now, GnssChecks(config, lat, lon, alt, accuracy))
    {
      ghost var checks := GnssChecks(config, lat, lon, alt, accuracy);
      ContextNamesNulFree();
      stats := stats.(totalValidations := IncU32(stats.totalValidations));
      var context := "";
      if !IsValidLatitude(config, lat) {
        r, context := OutOfRange, "latitude";
        FirstFailingAt(checks, 0);
      } else if !IsValidLongitude(config, lon) {
        r, context := OutOfRange, "longitude";
        FirstFailingAt(checks, 1);
      } else if !IsValidAltitudeMaritime(config, alt) {
        r, context := MaritimeUnsafe, "altitude";
        FirstFailingAt(checks, 2);
      } else if Gt(accuracy, 10.0) {
        r, context := OutOfRange, "gnss_accuracy";
        FirstFailingAt(checks, 3);
      } else {
        r := ValidationOk;
        FirstFailingAt(checks, 4);
      }
      TallyKeepsBalance(old(stats), now, r, PositionGroup);
      Conclude(logger, now, r, context, PositionGroup);
    }

    /** `validate_battery_status`; `current` is accepted and ignored. */
    method ValidateBatteryStatus(logger: Logger, now: U32, voltage: Float, current: Float)
      returns (r: ValidationResult)
      requires Valid() && logger.Valid()
      modifies this, logger
      ensures Valid()
      ensures r == Verdict(BatteryChecks(config, voltage))
      ensures stats == Tallied(old(stats), now, r, NoGroup)
      ensures logger.Valid() && logger.config == old(logger.config)
      ensures logger.systemStartTime == old(logger.systemStartTime)
      ensures logger.Sinks() == Reported(logger.config, old(logger.Sinks()), now, BatteryChecks(config, voltage))
    {
      ghost var checks := BatteryChecks(config, voltage);
      ContextNamesNulFree();
      stats := stats.(totalValidations := IncU32(stats.totalValidations));
      var context := "";
      if Lt(voltage, config.batteryMinVoltage) || Gt(voltage, config.batteryMaxVoltage) {
        r, context := OutOfRange, "battery_voltage";
        FirstFailingAt(checks, 0);
      } else if Lt(voltage, config.batteryCriticalVoltage) {
        r, context := MaritimeUnsafe, "battery_critical";
        FirstFailingAt(checks, 1);
      } else {
        r := ValidationOk;
        FirstFailingAt(checks, 2);
      }
      TallyKeepsBalance(old(stats), now, r, NoGroup);
      Conclude(logger, now, r, context, NoGroup);
    }

    /** `validate_case_integrity`. */
    method ValidateCaseIntegrity(logger: Logger, now: U32, caseClosed: bool, tamperDetected: bool)
      returns (r: ValidationResult)
      requires Valid() && logger.Valid()
      modifies this, logger
      ensures Valid()
      ensures r == Verdict(CaseChecks(caseClosed, tamperDetected))
      ensures stats == Tallied(old(stats), now, r, SecurityGroup)
      ensures logger.Valid() && logger.config == old(logger.config)
      ensures logger.systemStartTime == old(logger.systemStartTime)
      ensures logger.Sinks() == Reported(logger.config, old(logger.Sinks()), now, CaseChecks(caseClosed, tamperDetected))
    {
      ghost var checks := CaseChecks(caseClosed, tamperDetected);
      ContextNamesNulFree();
      stats := stats.(totalValidations := IncU32(stats.totalValidations));
      var context := "";
      if tamperDetected {
        r, context := SecurityBreach, "case_tamper";
        FirstFailingAt(checks, 0);
      } else if !caseClosed {
        r, context := MaritimeUnsafe, "case_open";
        FirstFailingAt(checks, 1);
      } else {
        r := ValidationOk;
        FirstFailingAt(checks, 2);
      }
      TallyKeepsBalance(old(stats), now, r, SecurityGroup);
      Conclude(logger, now, r, context, SecurityGroup);
    }
  }
}
