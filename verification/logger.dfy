/** The logger's global state and its public operations: `logger_log` and
    the level macros, `logger_log_raw`, `logger_reset_stats`,
    `logger_set_level`, `logger_enable_mqtt`, `logger_init`,
    `logger_get_uptime_ms`, `logger_log_hex_dump`, `logger_log_json` and
    `LOG_EMERGENCY`. Every operation is specified by a function from the
    observable state before the call to the observable state after it. */
module Logger {
  import opened CSupport
  import opened LoggerTypes
  import opened LogLine
  import opened HexDump

  /** What an observer of the device sees: the statistics record, the lines
      printed on the serial port, and whether the device has stopped in the
      FATAL loop. */
  datatype LogSinks = LogSinks(stats: LogStats, serial: seq<string>, halted: bool)

  // Long literals are written in short pieces, which keeps the proofs that
  // they hold no NUL cheap.
  const FatalBanner: string := "[FATAL] " + "System " + "halted " + "due to " + "fatal " + "error"
  const ResetNotice: string := "Logging " + "statistics " + "reset"
  const StartupNotice: string := "OndOcean " + "RemoteID " + "Maritime " + "v1.0 - " + "System " + "startup"
  const EmergencyTag: string := "[EMERGENCY] "

  lemma FatalBannerNulFree()
    ensures NulFree(FatalBanner)
  {
  }

  lemma ResetNoticeNulFree()
    ensures NulFree(ResetNotice)
  {
  }

  lemma StartupNoticeNulFree()
    ensures NulFree(StartupNotice)
  {
  }

  predicate AllNulFree(msgs: seq<string>)
  {
    forall i :: 0 <= i < |msgs| ==> NulFree(msgs[i])
  }

  /** The arguments every accepted call on `cfg` needs (see `LineArgsOk`),
      for a whole series of messages at one category. */
  predicate CallsOk(cfg: LoggerConfig, category: LogCategory)
  {
    Capacity(cfg) >= 1 && (cfg.enableCategories ==> category < CatMax)
  }

  // ---------------------------------------------------------------------------
  // logger_log
  // ---------------------------------------------------------------------------

  /** The statistics after one call that passed the level filter: the total,
      the level slot when the level is below NONE, the category slot when the
      category is below MAX, the dropped counter when the message was not
      kept, and the last timestamp, level and category. */
  function Counted(s: LogStats, now: U32, level: LogLevel, category: LogCategory, dropped: bool): (r: LogStats)
    requires WellShaped(s)
    ensures WellShaped(r)
  {
    var byLevel := if level < LevelNone then s.logsByLevel[level := IncU32(s.logsByLevel[level])] else s.logsByLevel;
    var byCategory :=
      if category < CatMax then s.logsByCategory[category := IncU32(s.logsByCategory[category])] else s.logsByCategory;
    LogStats(IncU32(s.totalLogs), byLevel, byCategory,
             if dropped then IncU32(s.droppedLogs) else s.droppedLogs,
             now, level, category)
  }

  /** The observable effect of `logger_log(level, category, msg)` at clock
      reading `now`. A halted device runs nothing more; a call below the
      minimum level returns at once; otherwise the call is counted, the
      rendered line goes to the serial port when that sink is on, and a FATAL
      call prints the halt banner (whatever the serial setting) and stops the
      device. */
  function LogEffect(cfg: LoggerConfig, s: LogSinks, now: U32, level: LogLevel, category: LogCategory, msg: string)
    : (r: LogSinks)
    requires LineArgsOk(cfg, category, msg) && WellShaped(s.stats)
    ensures WellShaped(r.stats)
  {
    if s.halted || level < cfg.minLevel then s
    else
      var shown := if cfg.enableSerial then [RenderedLine(cfg, now, level, category, msg)] else [];
      var banner := if level == Fatal then [FatalBanner] else [];
      LogSinks(Counted(s.stats, now, level, category, !MessageFits(cfg, now, level, category, msg)),
               s.serial + shown + banner,
               level == Fatal)
  }

  /** A series of `logger_log` calls at one level and category, in order. */
  function LogAll(cfg: LoggerConfig, s: LogSinks, now: U32, level: LogLevel, category: LogCategory, msgs: seq<string>)
    : (r: LogSinks)
    requires CallsOk(cfg, category) && AllNulFree(msgs) && WellShaped(s.stats)
    ensures WellShaped(r.stats)
    decreases |msgs|
  {
    if |msgs| == 0 then s
    else
      LogEffect(cfg, LogAll(cfg, s, now, level, category, msgs[..|msgs| - 1]), now, level, category, msgs[|msgs| - 1])
  }

  /** The lines a series of accepted calls prints, in order. */
  function RenderedLines(cfg: LoggerConfig, now: U32, level: LogLevel, category: LogCategory, msgs: seq<string>)
    : (lines: seq<string>)
    requires CallsOk(cfg, category) && AllNulFree(msgs)
    ensures |lines| == |msgs|
    decreases |msgs|
  {
    if |msgs| == 0 then []
    else RenderedLines(cfg, now, level, category, msgs[..|msgs| - 1])
           + [RenderedLine(cfg, now, level, category, msgs[|msgs| - 1])]
  }

  // ---------------------------------------------------------------------------
  // The other operations, as functions of the state
  // ---------------------------------------------------------------------------

  /** The line `Serial.println` prints for `logger_log_raw`'s argument: the C
      string itself, or an empty line for a null pointer. */
  function RawLine(message: Option<string>): (line: string)
    requires message.Some? ==> NulFree(message.value)
    ensures NulFree(line)
  {
    match message
    case None => ""
    case Some(text) => text
  }

  /** `logger_log_raw`: printed when the serial sink is on, counted only in
      the total, never filtered by level; a null message is an empty line. */
  function RawEffect(cfg: LoggerConfig, s: LogSinks, message: Option<string>): (r: LogSinks)
    requires message.Some? ==> NulFree(message.value)
    requires WellShaped(s.stats)
    ensures WellShaped(r.stats)
  {
    if s.halted then s
    else LogSinks(s.stats.(totalLogs := IncU32(s.stats.totalLogs)),
                  s.serial + (if cfg.enableSerial then [RawLine(message)] else []),
                  false)
  }

  /** `logger_reset_stats`: every counter and "last" field zeroed, then an
      INFO line announcing it. */
  function ResetEffect(cfg: LoggerConfig, s: LogSinks, now: U32): (r: LogSinks)
    requires Capacity(cfg) >= 1 && WellShaped(s.stats)
    ensures WellShaped(r.stats)
  {
    ResetNoticeNulFree();
    if s.halted then s
    else LogEffect(cfg, s.(stats := ZeroStats), now, Info, CatSystem, ResetNotice)
  }

  /** "Log level set to %s". */
  function LevelNotice(level: LogLevel): (r: string)
    ensures NulFree(r)
  {
    TablesWellFormed();
    "Log level set to " + LevelNames[level]
  }

  /** "MQTT logging %s (topic: %s)". */
  function MqttNotice(enable: bool, topic: string): (r: string)
    requires NulFree(topic)
    ensures NulFree(r)
  {
    "MQTT logging " + (if enable then "enabled" else "disabled") + " (topic: " + topic + ")"
  }

  /** "Hex dump: %s (%u bytes)". */
  function HexDumpHeader(name: string, length: nat): (r: string)
    requires NulFree(name)
    ensures NulFree(r)
  {
    "Hex dump: " + name + " (" + Decimal(length) + " bytes)"
  }

  /** "JSON data: %s". */
  function JsonNotice(json: string): (r: string)
    requires NulFree(json)
    ensures NulFree(r)
  {
    "JSON data: " + json
  }

  /** `logger_log_hex_dump`: nothing below the minimum level or for a null
      buffer; otherwise a DEBUG header (filtered on its own), then one line
      per 16 bytes at the caller's level. */
  function HexDumpEffect(cfg: LoggerConfig, s: LogSinks, now: U32, level: LogLevel, category: LogCategory,
                         name: string, data: Option<seq<Byte>>): (r: LogSinks)
    requires CallsOk(cfg, category) && NulFree(name) && WellShaped(s.stats)
    requires data.Some? ==> SizeT(|data.value|)
    ensures WellShaped(r.stats)
  {
    if level < cfg.minLevel || data.None? then s
    else
      HexLinesNulFree(data.value);
      var afterHeader := LogEffect(cfg, s, now, Debug, category, HexDumpHeader(name, |data.value|));
      LogAll(cfg, afterHeader, now, level, category, HexLines(data.value))
  }

  /** `logger_log_json`: nothing below the minimum level or for a null
      string; otherwise one DEBUG line (filtered on its own). */
  function JsonEffect(cfg: LoggerConfig, s: LogSinks, now: U32, level: LogLevel, category: LogCategory,
                      json: Option<string>): (r: LogSinks)
    requires CallsOk(cfg, category) && WellShaped(s.stats)
    requires json.Some? ==> NulFree(json.value)
    ensures WellShaped(r.stats)
  {
    if level < cfg.minLevel || json.None? then s
    else LogEffect(cfg, s, now, Debug, category, JsonNotice(json.value))
  }

  /** The configuration fields `logger_init` sets; the buffer size, the topic
      and the file/line switch keep their values. */
  function InitConfig(cfg: LoggerConfig): LoggerConfig
  {
    cfg.(minLevel := Info, enableTimestamps := true, enableCategories := true, enableColors := true,
         enableSerial := true, enableMqttLogging := false)
  }

  /** `logger_init`: the configuration reset to its start-up values, the
      statistics reset (with its INFO line), then the start-up banner. */
  function InitEffect(cfg: LoggerConfig, s: LogSinks, now: U32): (r: LogSinks)
    requires Capacity(cfg) >= 1 && WellShaped(s.stats)
    ensures WellShaped(r.stats)
  {
    StartupNoticeNulFree();
    var c := InitConfig(cfg);
    if s.halted then s
    else LogEffect(c, ResetEffect(c, s, now), now, Info, CatSystem, StartupNotice)
  }

  /** A call that passes the level filter on a running device, spelled out. */
  lemma AcceptedEffect(cfg: LoggerConfig, s: LogSinks, now: U32, level: LogLevel, category: LogCategory, msg: string)
    requires LineArgsOk(cfg, category, msg) && WellShaped(s.stats)
    requires !s.halted && cfg.minLevel <= level
    ensures LogEffect(cfg, s, now, level, category, msg) ==
      LogSinks(Counted(s.stats, now, level, category, !MessageFits(cfg, now, level, category, msg)),
               s.serial + (if cfg.enableSerial then [RenderedLine(cfg, now, level, category, msg)] else [])
                 + (if level == Fatal then [FatalBanner] else []),
               level == Fatal)
  {
  }

  /** One more call in a series. */
  lemma LogAllStep(cfg: LoggerConfig, s: LogSinks, now: U32, level: LogLevel, category: LogCategory,
                   msgs: seq<string>, k: nat)
    requires CallsOk(cfg, category) && AllNulFree(msgs) && WellShaped(s.stats) && k < |msgs|
    ensures LogAll(cfg, s, now, level, category, msgs[..k + 1]) ==
      LogEffect(cfg, LogAll(cfg, s, now, level, category, msgs[..k]), now, level, category, msgs[k])
  {
    assert msgs[..k + 1][..k] == msgs[..k];
  }

  /** Every line of a dump is a C string that fits its 80-byte buffer. */
  lemma HexLinesNulFree(data: seq<Byte>)
    requires SizeT(|data|)
    ensures AllNulFree(HexLines(data))
    ensures forall k :: 0 <= k < |HexLines(data)| ==> |HexLines(data)[k]| < LineBufferSize
  {
    HexLinesShape(data);
    forall k | 0 <= k < |HexLines(data)|
      ensures NulFree(HexLines(data)[k]) && |HexLines(data)[k]| < LineBufferSize
    {
      HexLineLayout(data, 16 * k);
    }
  }

  // ---------------------------------------------------------------------------
  // The logger's global state
  // ---------------------------------------------------------------------------

  /** `logger_config`, `log_stats`, `system_start_time` and the serial port.
      After a FATAL line the device spins forever: `halted` is set, and every
      operation on a halted logger leaves what an observer sees unchanged. */
  class Logger {
    var config: LoggerConfig
    var stats: LogStats
    var serial: seq<string>
    var halted: bool
    var systemStartTime: U32

    ghost predicate Valid()
      reads this
    {
      WellShaped(stats) && Capacity(config) >= 1
    }

    function Sinks(): LogSinks
      reads this
    {
      LogSinks(stats, serial, halted)
    }

    /** The state at power-on: default configuration, zeroed statistics. */
    constructor ()
      ensures Valid() && config == DefaultLoggerConfig && systemStartTime == 0
      ensures Sinks() == LogSinks(ZeroStats, [], false)
    {
      config := DefaultLoggerConfig;
      stats := ZeroStats;
      serial := [];
      halted := false;
      systemStartTime := 0;
    }

    /** `logger_log(level, category, "%s", msg)`. */
    method Log(now: U32, level: LogLevel, category: LogCategory, msg: string)
      requires Valid() && LineArgsOk(config, category, msg)
      modifies this
      ensures Valid() && config == old(config) && systemStartTime == old(systemStartTime)
      ensures Sinks() == LogEffect(config, old(Sinks()), now, level, category, msg)
    {
      if halted || level < config.minLevel {
        return;
      }
      ghost var before := Sinks();
      CountCall(now, level, category);
      var line, dropped := AssembleLine(config, now, level, category, msg);
      if dropped {
        stats := stats.(droppedLogs := IncU32(stats.droppedLogs));
      }
      AcceptedEffect(config, before, now, level, category, msg);
      if config.enableSerial {
        serial := serial + [line];
      }
      if level == Fatal {
        Halt();
      }
    }

    /** The statistics update at the head of an accepted `logger_log` call. */
    method CountCall(now: U32, level: LogLevel, category: LogCategory)
      requires WellShaped(stats)
      modifies this
      ensures stats == Counted(old(stats), now, level, category, false)
      ensures config == old(config) && serial == old(serial) && halted == old(halted)
      ensures systemStartTime == old(systemStartTime)
    {
      stats := stats.(totalLogs := IncU32(stats.totalLogs));
      if level < LevelNone {
        stats := stats.(logsByLevel := stats.logsByLevel[level := IncU32(stats.logsByLevel[level])]);
      }
      if category < CatMax {
        stats := stats.(logsByCategory := stats.logsByCategory[category := IncU32(stats.logsByCategory[category])]);
      }
      stats := stats.(lastLogTimestamp := now, lastLogLevel := level, lastLogCategory := category);
    }

    /** The FATAL branch: the banner, then the endless loop. */
    method Halt()
      modifies this
      ensures serial == old(serial) + [FatalBanner] && halted
      ensures config == old(config) && stats == old(stats) && systemStartTime == old(systemStartTime)
    {
      serial := serial + [FatalBanner];
      halted := true;
    }

    /** `LOG_EMERGENCY(msg)`: a FATAL line in the SYSTEM category with the
        "[EMERGENCY] " tag in front. */
    method Emergency(now: U32, msg: string)
      requires Valid() && NulFree(msg)
      modifies this
      ensures Valid() && config == old(config) && systemStartTime == old(systemStartTime)
      ensures Sinks() == LogEffect(config, old(Sinks()), now, Fatal, CatSystem, EmergencyTag + msg)
    {
      Log(now, Fatal, CatSystem, EmergencyTag + msg);
    }

    /** `logger_log_raw(message)`. */
    method LogRaw(message: Option<string>)
      requires Valid() && (message.Some? ==> NulFree(message.value))
      modifies this
      ensures Valid() && config == old(config) && systemStartTime == old(systemStartTime)
      ensures Sinks() == RawEffect(config, old(Sinks()), message)
    {
      if halted {
        return;
      }
      if config.enableSerial {
        serial := serial + [RawLine(message)];
      }
      stats := stats.(totalLogs := IncU32(stats.totalLogs));
    }

    /** `logger_reset_stats()`. */
    method ResetStats(now: U32)
      requires Valid()
      modifies this
      ensures Valid() && config == old(config) && systemStartTime == old(systemStartTime)
      ensures Sinks() == ResetEffect(config, old(Sinks()), now)
    {
      if halted {
        return;
      }
      stats := ZeroStats;
      Log(now, Info, CatSystem, ResetNotice);
    }

    /** `logger_set_level(level)`: the new minimum applies to the INFO line
        announcing it, so raising the minimum above INFO is silent. */
    method SetLevel(now: U32, level: LogLevel)
      requires Valid()
      modifies this
      ensures Valid() && systemStartTime == old(systemStartTime)
      ensures config == if old(halted) then old(config) else old(config).(minLevel := level)
      ensures Sinks() == LogEffect(config, old(Sinks()), now, Info, CatSystem, LevelNotice(level))
    {
      if halted {
        return;
      }
      config := config.(minLevel := level);
      Log(now, Info, CatSystem, LevelNotice(level));
    }

    /** `logger_enable_mqtt(enable, topic)`: a null topic keeps the old one. */
    method EnableMqtt(now: U32, enable: bool, topic: Option<string>)
      requires Valid() && NulFree(config.mqttLogTopic)
      requires topic.Some? ==> NulFree(topic.value)
      modifies this
      ensures Valid() && systemStartTime == old(systemStartTime) && NulFree(config.mqttLogTopic)
      ensures config == if old(halted) then old(config) else
        old(config).(enableMqttLogging := enable,
                     mqttLogTopic := if topic.Some? then topic.value else old(config).mqttLogTopic)
      ensures Sinks() == LogEffect(config, old(Sinks()), now, Info, CatSystem, MqttNotice(enable, config.mqttLogTopic))
    {
      if halted {
        return;
      }
      config := config.(enableMqttLogging := enable);
      if topic.Some? {
        config := config.(mqttLogTopic := topic.value);
      }
      Log(now, Info, CatSystem, MqttNotice(enable, config.mqttLogTopic));
    }

    /** `logger_init()` at clock reading `now`, without the hardware report
        of `logger_log_system_info`. */
    method Init(now: U32)
      requires Valid()
      modifies this
      ensures Valid()
      ensures config == if old(halted) then old(config) else InitConfig(old(config))
      ensures systemStartTime == if old(halted) then old(systemStartTime) else now
      ensures Sinks() == InitEffect(old(config), old(Sinks()), now)
    {
      if halted {
        return;
      }
      systemStartTime := now;
      config := InitConfig(config);
      ResetStats(now);
      StartupNoticeNulFree();
      Log(now, Info, CatSystem, StartupNotice);
    }

    /** `logger_get_uptime_ms()`: milliseconds since `logger_init`, right
        across one wrap of the clock. */
    method UptimeMs(now: U32) returns (ms: U32)
      ensures (systemStartTime + ms) % 0x1_0000_0000 == now
      ensures systemStartTime <= now ==> ms == now - systemStartTime
    {
      ms := SubU32(now, systemStartTime);
    }

    /** `logger_log_hex_dump(level, category, name, data, length)`. */
    method LogHexDump(now: U32, level: LogLevel, category: LogCategory, name: string, data: Option<seq<Byte>>)
      requires Valid() && CallsOk(config, category) && NulFree(name)
      requires data.Some? ==> SizeT(|data.value|)
      modifies this
      ensures Valid() && config == old(config) && systemStartTime == old(systemStartTime)
      ensures Sinks() == HexDumpEffect(config, old(Sinks()), now, level, category, name, data)
    {
      if level < config.minLevel || data.None? {
        return;
      }
      var bytes := data.value;
      Log(now, Debug, category, HexDumpHeader(name, |bytes|));
      LogRows(now, level, category, bytes);
    }

    /** The dump loop: one `logger_log` call per row of 16 bytes. */
    method LogRows(now: U32, level: LogLevel, category: LogCategory, data: seq<Byte>)
      requires Valid() && CallsOk(config, category) && SizeT(|data|)
      modifies this
      ensures Valid() && config == old(config) && systemStartTime == old(systemStartTime)
      ensures AllNulFree(HexLines(data))
      ensures Sinks() == LogAll(config, old(Sinks()), now, level, category, HexLines(data))
    {
      ghost var start := Sinks();
      HexLinesNulFree(data);
      var i := 0;
      ghost var k := 0;
      while i < |data|
        invariant i == 16 * k && k <= |HexLines(data)|
        invariant Valid() && config == old(config) && systemStartTime == old(systemStartTime)
        invariant Sinks() == LogAll(config, start, now, level, category, HexLines(data)[..k])
        decreases |data| - i
      {
        RowsLeft(data, k);
        LogHexLine(now, level, category, data, i, start, k);
        k := k + 1;
        i := i + 16;
      }
      RowsLeft(data, k);
      assert HexLines(data)[..k] == HexLines(data);
    }

    /** One pass of the dump loop: the row at `offset` formatted in its
        80-byte buffer and logged at the caller's level, which extends the
        series of calls made so far by one. */
    method LogHexLine(now: U32, level: LogLevel, category: LogCategory, data: seq<Byte>, offset: nat,
                      ghost start: LogSinks, ghost k: nat)
      requires Valid() && CallsOk(config, category) && SizeT(|data|) && WellShaped(start.stats)
      requires offset == 16 * k && offset < |data| && k < |HexLines(data)| && AllNulFree(HexLines(data))
      requires Sinks() == LogAll(config, start, now, level, category, HexLines(data)[..k])
      modifies this
      ensures Valid() && config == old(config) && systemStartTime == old(systemStartTime)
      ensures Sinks() == LogAll(config, start, now, level, category, HexLines(data)[..k + 1])
    {
      LogAllStep(config, start, now, level, category, HexLines(data), k);
      HexLinesShape(data);
      var line := FormatHexLine(data, offset);
      Log(now, level, category, line);
    }

    /** `logger_log_json(level, category, json)`. */
    method LogJson(now: U32, level: LogLevel, category: LogCategory, json: Option<string>)
      requires Valid() && CallsOk(config, category)
      requires json.Some? ==> NulFree(json.value)
      modifies this
      ensures Valid() && config == old(config) && systemStartTime == old(systemStartTime)
      ensures Sinks() == JsonEffect(config, old(Sinks()), now, level, category, json)
    {
      if level < config.minLevel || json.None? {
        return;
      }
      Log(now, Debug, category, JsonNotice(json.value));
    }
  }
}
