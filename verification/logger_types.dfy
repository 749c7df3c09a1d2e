/** The logger's public vocabulary: levels, categories, configuration with its
    defaults, the statistics record and the text tables the line is built from. */
module LoggerTypes {
  import opened CSupport

  // LogLevel, ordered by severity.
  const Trace: nat := 0
  const Debug: nat := 1
  const Info: nat := 2
  const Warn: nat := 3
  const Error: nat := 4
  const Fatal: nat := 5
  const LevelNone: nat := 6

  /** A `LogLevel` enumerator, `LOG_LEVEL_NONE` included. */
  type LogLevel = l: nat | l <= 6

  // LogCategory.
  const CatSystem: nat := 0
  const CatSensor: nat := 1
  const CatGnss: nat := 2
  const CatComm: nat := 3
  const CatMavlink: nat := 4
  const CatOdid: nat := 5
  const CatSecurity: nat := 6
  const CatPower: nat := 7
  const CatMaritime: nat := 8
  const CatValidation: nat := 9
  const CatWeb: nat := 10
  const CatMax: nat := 11

  /** A `LogCategory` enumerator, `LOG_CAT_MAX` included. */
  type LogCategory = c: nat | c <= 11

  datatype LoggerConfig = LoggerConfig(
    minLevel: LogLevel,
    enableTimestamps: bool,
    enableCategories: bool,
    enableColors: bool,
    enableFileLine: bool,
    enableSerial: bool,
    enableMqttLogging: bool,
    mqttLogTopic: string,
    maxLogBuffer: U32)

  const DefaultLoggerConfig: LoggerConfig :=
    LoggerConfig(Info, true, true, true, false, true, false, "ondocean/logs", 512)

  /** Capacity in bytes of the line buffer `logger_log` allocates. */
  function Capacity(cfg: LoggerConfig): nat
  {
    cfg.maxLogBuffer as nat
  }

  datatype LogStats = LogStats(
    totalLogs: U32,
    logsByLevel: seq<U32>,
    logsByCategory: seq<U32>,
    droppedLogs: U32,
    lastLogTimestamp: U32,
    lastLogLevel: LogLevel,
    lastLogCategory: LogCategory)

  /** `logs_by_level` has one slot per level below NONE, `logs_by_category`
      one per category below MAX. */
  predicate WellShaped(s: LogStats)
  {
    |s.logsByLevel| == LevelNone && |s.logsByCategory| == CatMax
  }

  /** The statistics record after `memset(&log_stats, 0, ...)`. */
  const ZeroStats: LogStats :=
    LogStats(0, [0, 0, 0, 0, 0, 0], [0, 0, 0, 0, 0, 0, 0, 0, 0, 0, 0], 0, 0, Trace, CatSystem)

  /** Every counter of the zeroed record is 0. */
  lemma ZeroStatsCounters()
    ensures WellShaped(ZeroStats) && ZeroStats.totalLogs == 0 && ZeroStats.droppedLogs == 0
    ensures forall l :: 0 <= l < LevelNone ==> ZeroStats.logsByLevel[l] == 0
    ensures forall c :: 0 <= c < CatMax ==> ZeroStats.logsByCategory[c] == 0
  {
  }

  /** A level or category counter slot exists exactly for the values the
      logger's guards let through. */
  lemma CounterSlots(s: LogStats, level: LogLevel, category: LogCategory)
    requires WellShaped(s)
    ensures level < |s.logsByLevel| <==> level < LevelNone
    ensures category < |s.logsByCategory| <==> category < CatMax
    ensures level < LevelNone <==> level != LevelNone
  {
  }

  lemma DefaultConfigValues()
    ensures DefaultLoggerConfig.minLevel == Info
    ensures DefaultLoggerConfig.enableTimestamps && DefaultLoggerConfig.enableCategories
    ensures DefaultLoggerConfig.enableColors && DefaultLoggerConfig.enableSerial
    ensures !DefaultLoggerConfig.enableMqttLogging && !DefaultLoggerConfig.enableFileLine
    ensures Capacity(DefaultLoggerConfig) == 512
  {
  }

  // ---------------------------------------------------------------------------
  // Text tables
  // ---------------------------------------------------------------------------

  const Esc: char := '\U{1B}'

  /** ANSI colour per level (LOG_COLORS), NONE mapped to the reset code. */
  const LogColors: seq<string> := [
    [Esc] + "[37m", [Esc] + "[36m", [Esc] + "[32m", [Esc] + "[33m",
    [Esc] + "[31m", [Esc] + "[35m", [Esc] + "[0m"]

  const LogReset: string := [Esc] + "[0m"

  const LevelNames: seq<string> := ["TRACE", "DEBUG", "INFO ", "WARN ", "ERROR", "FATAL", "NONE "]

  const CategoryNames: seq<string> := [
    "SYSTEM", "SENSOR", "GNSS  ", "COMM  ", "MAVLNK",
    "ODID  ", "SECUR ", "POWER ", "MARIT ", "VALID ", "WEB   "]

  /** Every table has an entry for each enumerator it is indexed by, and no
      entry contains a NUL. */
  lemma TablesWellFormed()
    ensures |LogColors| == LevelNone + 1 && |LevelNames| == LevelNone + 1
    ensures |CategoryNames| == CatMax
    ensures forall l :: 0 <= l < |LogColors| ==> NulFree(LogColors[l]) && 4 <= |LogColors[l]| <= 5
    ensures forall l :: 0 <= l < |LevelNames| ==> NulFree(LevelNames[l]) && |LevelNames[l]| == 5
    ensures forall c :: 0 <= c < |CategoryNames| ==> NulFree(CategoryNames[c]) && |CategoryNames[c]| == 6
    ensures NulFree(LogReset) && |LogReset| == 4
  {
  }
}
