/** The data-validation vocabulary: verdict codes with their names, the
    validation thresholds with their defaults, and the statistics record. */
module ValidationTypes {
  import opened CSupport

  // ValidationResult, in declaration order.
  const ValidationOk: nat := 0
  const NullPointer: nat := 1
  const OutOfRange: nat := 2
  const InvalidFormat: nat := 3
  const MaritimeUnsafe: nat := 4
  const SensorFault: nat := 5
  const Communication: nat := 6
  const SecurityBreach: nat := 7

  /** A `ValidationResult` enumerator. */
  type ValidationResult = r: nat | r < 8

  /** The name table indexed by verdict code. */
  const ResultNames: seq<string> := [
    "OK", "NULL_POINTER", "OUT_OF_RANGE", "INVALID_FORMAT",
    "MARITIME_UNSAFE", "SENSOR_FAULT", "COMMUNICATION_ERROR", "SECURITY_BREACH"]

  const UnknownName: string := "UNKNOWN_ERROR"

  /** `validation_result_to_string`: the table entry for a declared code and
      "UNKNOWN_ERROR" for any other value the enum variable may hold. */
  function ResultToString(result: nat): (r: string)
    ensures NulFree(r)
    ensures result < |ResultNames| ==> r == ResultNames[result]
    ensures result >= |ResultNames| ==> r == UnknownName
  {
    ResultNamesNulFree();
    if result < |ResultNames| then ResultNames[result] else UnknownName
  }

  lemma ResultNamesNulFree()
    ensures forall i :: 0 <= i < |ResultNames| ==> NulFree(ResultNames[i])
    ensures NulFree(UnknownName)
  {
    assert NulFree(ResultNames[0]) && NulFree(ResultNames[1]) && NulFree(ResultNames[2]);
    assert NulFree(ResultNames[3]) && NulFree(ResultNames[4]) && NulFree(ResultNames[5]);
    assert NulFree(ResultNames[6]) && NulFree(ResultNames[7]);
  }

  /** The inverse of `ResultToString` on the declared codes. */
  function ResultFromString(s: string): (r: Option<ValidationResult>)
    ensures r.Some? ==> ResultNames[r.value] == s
  {
    if s == "OK" then Some(ValidationOk)
    else if s == "NULL_POINTER" then Some(NullPointer)
    else if s == "OUT_OF_RANGE" then Some(OutOfRange)
    else if s == "INVALID_FORMAT" then Some(InvalidFormat)
    else if s == "MARITIME_UNSAFE" then Some(MaritimeUnsafe)
    else if s == "SENSOR_FAULT" then Some(SensorFault)
    else if s == "COMMUNICATION_ERROR" then Some(Communication)
    else if s == "SECURITY_BREACH" then Some(SecurityBreach)
    else None
  }

  /** Every declared verdict has a name of its own, and no declared verdict
      is reported as "UNKNOWN_ERROR": the name identifies the code. */
  lemma ResultNamesRoundTrip(result: nat)
    ensures result < 8 ==> ResultFromString(ResultToString(result)) == Some(result)
    ensures result >= 8 ==> ResultFromString(ResultToString(result)) == None
  {
  }

  /** `ValidationConfig`: the thresholds every check compares against. */
  datatype ValidationConfig = ValidationConfig(
    tempMinCelsius: real,
    tempMaxCelsius: real,
    humidityMaxPct: real,
    pressureMinHpa: real,
    pressureMaxHpa: real,
    latMin: real,
    latMax: real,
    lonMin: real,
    lonMax: real,
    altitudeMaxM: real,
    batteryMinVoltage: real,
    batteryMaxVoltage: real,
    batteryCriticalVoltage: real,
    gnssTimeoutMs: U32,
    sensorTimeoutMs: U32,
    mqttTimeoutMs: U32)

  /** The default-initialised global `validation_config`. */
  const DefaultValidationConfig: ValidationConfig :=
    ValidationConfig(-20.0, 60.0, 95.0, 950.0, 1050.0,
                     -90.0, 90.0, -180.0, 180.0, 120.0,
                     3.0, 4.2, 3.2,
                     5000, 1000, 10000)

  /** The defaults describe non-empty ranges, and the critical-battery band
      [min, critical) lies inside the accepted voltage range. */
  lemma DefaultsOrdered()
    ensures var c := DefaultValidationConfig;
      && c.tempMinCelsius < c.tempMaxCelsius
      && c.pressureMinHpa < c.pressureMaxHpa
      && c.latMin < c.latMax && c.lonMin < c.lonMax
      && 0.0 < c.altitudeMaxM == 120.0
      && c.batteryMinVoltage < c.batteryCriticalVoltage < c.batteryMaxVoltage
      && c.sensorTimeoutMs == 1000
  {
  }

  /** `ValidationStats`: wrapping `uint32_t` counters and the last failure. */
  datatype ValidationStats = ValidationStats(
    totalValidations: U32,
    successfulValidations: U32,
    failedValidations: U32,
    sensorErrors: U32,
    positionErrors: U32,
    securityErrors: U32,
    lastErrorTimestamp: U32,
    lastErrorCode: ValidationResult)

  /** The zero-initialised record (`= {0}` and `memset` to zero). */
  const ZeroValidationStats: ValidationStats := ValidationStats(0, 0, 0, 0, 0, 0, 0, ValidationOk)

  /** Which per-category error counter a validator bumps on failure. */
  datatype ErrorGroup = SensorGroup | PositionGroup | SecurityGroup | NoGroup

  /** The bookkeeping the validators and `update_validation_stats` do for one
      verdict: the total always, then either the success count or the failure
      count, the group's error counter and the last-error fields. */
  function Tallied(s: ValidationStats, now: U32, verdict: ValidationResult, group: ErrorGroup): (r: ValidationStats)
    ensures r.totalValidations == IncU32(s.totalValidations)
    ensures verdict == ValidationOk ==> r == s.(totalValidations := r.totalValidations,
                                                 successfulValidations := IncU32(s.successfulValidations))
    ensures verdict != ValidationOk ==>
      && r.successfulValidations == s.successfulValidations
      && r.failedValidations == IncU32(s.failedValidations)
      && r.sensorErrors == (if group == SensorGroup then IncU32(s.sensorErrors) else s.sensorErrors)
      && r.positionErrors == (if group == PositionGroup then IncU32(s.positionErrors) else s.positionErrors)
      && r.securityErrors == (if group == SecurityGroup then IncU32(s.securityErrors) else s.securityErrors)
      && r.lastErrorCode == verdict && r.lastErrorTimestamp == now
  {
    var counted := s.(totalValidations := IncU32(s.totalValidations));
    if verdict == ValidationOk then counted.(successfulValidations := IncU32(counted.successfulValidations))
    else Rejected(counted, now, verdict, group)
  }

  /** The failure half of a tally: the failure count, the group's counter and
      the last-error fields. */
  function Rejected(s: ValidationStats, now: U32, verdict: ValidationResult, group: ErrorGroup): (r: ValidationStats)
    ensures r.totalValidations == s.totalValidations && r.successfulValidations == s.successfulValidations
    ensures r.failedValidations == IncU32(s.failedValidations)
    ensures r.lastErrorCode == verdict && r.lastErrorTimestamp == now
  {
    var s := s.(failedValidations := IncU32(s.failedValidations), lastErrorCode := verdict, lastErrorTimestamp := now);
    match group
    case SensorGroup => s.(sensorErrors := IncU32(s.sensorErrors))
    case PositionGroup => s.(positionErrors := IncU32(s.positionErrors))
    case SecurityGroup => s.(securityErrors := IncU32(s.securityErrors))
    case NoGroup => s
  }

  /** Every tally counts the call once as a success or a failure. */
  predicate Balanced(s: ValidationStats)
  {
    s.totalValidations == (s.successfulValidations + s.failedValidations) % 0x1_0000_0000
  }

  /** From a reset, `total == successful + failed` (modulo 2^32) holds after
      every tally. */
  lemma TallyKeepsBalance(s: ValidationStats, now: U32, verdict: ValidationResult, group: ErrorGroup)
    requires Balanced(s)
    ensures Balanced(Tallied(s, now, verdict, group))
  {
    var a, b := s.successfulValidations, s.failedValidations;
    if verdict == ValidationOk {
      CountOneMore(s.totalValidations, a, b);
    } else {
      CountOneMore(s.totalValidations, b, a);
    }
  }
}
