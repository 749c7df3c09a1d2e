/** What the logger promises across calls: the level filter, the counters,
    the FATAL halt, the emergency macro, raw lines, statistics reset, level
    changes and hex dumps. */
module LoggerProperties {
  import opened CSupport
  import opened LoggerTypes
  import opened LogLine
  import opened HexDump
  import opened Logger

  /** Levels are ordered by severity, NONE above them all. */
  lemma LevelsOrdered()
    ensures Trace < Debug < Info < Warn < Error < Fatal < LevelNone
  {
  }

  // ---------------------------------------------------------------------------
  // One call
  // ---------------------------------------------------------------------------

  /** A call changes what an observer sees exactly when the device runs and
      the level is at least the minimum: the total counter always moves. */
  lemma ChangesIffAccepted(cfg: LoggerConfig, s: LogSinks, now: U32, level: LogLevel, category: LogCategory, msg: string)
    requires LineArgsOk(cfg, category, msg) && WellShaped(s.stats)
    ensures LogEffect(cfg, s, now, level, category, msg) == s <==> s.halted || level < cfg.minLevel
  {
    if !s.halted && cfg.minLevel <= level {
      assert LogEffect(cfg, s, now, level, category, msg).stats.totalLogs != s.stats.totalLogs;
    }
  }

  /** An accepted call bumps the total, exactly the slot of its level (none
      for NONE) and of its category (none for MAX), the dropped counter
      exactly when the message was not kept, and records when, at which level
      and in which category it was made. */
  lemma AcceptedCounts(cfg: LoggerConfig, s: LogSinks, now: U32, level: LogLevel, category: LogCategory, msg: string)
    requires LineArgsOk(cfg, category, msg) && WellShaped(s.stats)
    requires !s.halted && cfg.minLevel <= level
    ensures var r := LogEffect(cfg, s, now, level, category, msg).stats;
      && r.totalLogs == IncU32(s.stats.totalLogs)
      && (forall l :: 0 <= l < LevelNone ==>
            r.logsByLevel[l] == if l == level then IncU32(s.stats.logsByLevel[l]) else s.stats.logsByLevel[l])
      && (forall c :: 0 <= c < CatMax ==>
            r.logsByCategory[c] == if c == category then IncU32(s.stats.logsByCategory[c]) else s.stats.logsByCategory[c])
      && r.droppedLogs == (if MessageFits(cfg, now, level, category, msg) then s.stats.droppedLogs
                           else IncU32(s.stats.droppedLogs))
      && r.lastLogTimestamp == now && r.lastLogLevel == level && r.lastLogCategory == category
  {
  }

  /** An accepted call prints its rendered line when the serial sink is on,
      and a FATAL one then prints the halt banner and stops the device. */
  lemma AcceptedPrints(cfg: LoggerConfig, s: LogSinks, now: U32, level: LogLevel, category: LogCategory, msg: string)
    requires LineArgsOk(cfg, category, msg) && WellShaped(s.stats)
    requires !s.halted && cfg.minLevel <= level
    ensures var r := LogEffect(cfg, s, now, level, category, msg);
      && r.serial == s.serial + (if cfg.enableSerial then [RenderedLine(cfg, now, level, category, msg)] else [])
                              + (if level == Fatal then [FatalBanner] else [])
      && r.halted == (level == Fatal)
  {
  }

  /** An empty message is never kept, so it always counts as dropped. */
  lemma EmptyMessageDropped(cfg: LoggerConfig, s: LogSinks, now: U32, level: LogLevel, category: LogCategory)
    requires CallsOk(cfg, category) && WellShaped(s.stats)
    requires !s.halted && cfg.minLevel <= level
    ensures LogEffect(cfg, s, now, level, category, []).stats.droppedLogs == IncU32(s.stats.droppedLogs)
  {
  }

  /** The prefix never exceeds 34 characters: a timestamp of at most 13, a
      colour code of at most 5, the level (7), the category (8) and the
      separator. */
  lemma PrefixAtMost34(cfg: LoggerConfig, ts: U32, level: LogLevel, category: LogCategory)
    requires CallsOk(cfg, category)
    ensures |Prefix(cfg, ts, level, category)| <= 34
  {
    TimestampPieceLength(ts);
    TablesWellFormed();
  }

  /** A non-empty message that leaves room for the longest prefix is kept. */
  lemma ShortMessageKept(cfg: LoggerConfig, ts: U32, level: LogLevel, category: LogCategory, msg: string)
    requires LineArgsOk(cfg, category, msg)
    requires 0 < |msg| && |msg| + 34 < Capacity(cfg)
    ensures MessageFits(cfg, ts, level, category, msg)
  {
    PrefixAtMost34(cfg, ts, level, category);
  }

  // ---------------------------------------------------------------------------
  // The FATAL halt
  // ---------------------------------------------------------------------------

  /** Once halted, the device never changes again: no call, raw line, reset
      or series of calls has any effect. */
  lemma HaltedStaysPut(cfg: LoggerConfig, s: LogSinks, now: U32, level: LogLevel, category: LogCategory, msg: string)
    requires LineArgsOk(cfg, category, msg) && WellShaped(s.stats) && s.halted
    ensures LogEffect(cfg, s, now, level, category, msg) == s
    ensures RawEffect(cfg, s, Some(msg)) == s && RawEffect(cfg, s, None) == s
    ensures ResetEffect(cfg, s, now) == s
  {
  }

  lemma {:induction false} HaltedSeries(cfg: LoggerConfig, s: LogSinks, now: U32, level: LogLevel, category: LogCategory,
                                        msgs: seq<string>)
    requires CallsOk(cfg, category) && AllNulFree(msgs) && WellShaped(s.stats) && s.halted
    ensures LogAll(cfg, s, now, level, category, msgs) == s
    decreases |msgs|
  {
    if |msgs| > 0 {
      HaltedSeries(cfg, s, now, level, category, msgs[..|msgs| - 1]);
    }
  }

  /** An accepted FATAL call halts the device with the banner as its last
      serial line. */
  lemma FatalHalts(cfg: LoggerConfig, s: LogSinks, now: U32, category: LogCategory, msg: string)
    requires LineArgsOk(cfg, category, msg) && WellShaped(s.stats)
    requires !s.halted && cfg.minLevel <= Fatal
    ensures var r := LogEffect(cfg, s, now, Fatal, category, msg);
      r.halted && |r.serial| > 0 && r.serial[|r.serial| - 1] == FatalBanner
  {
  }

  /** `LOG_EMERGENCY` is an ordinary FATAL call: silent when the minimum level
      is NONE, and otherwise a halt with the tagged line (when the serial sink
      is on) followed by the banner. */
  lemma EmergencyOutcome(cfg: LoggerConfig, s: LogSinks, now: U32, msg: string)
    requires Capacity(cfg) >= 1 && NulFree(msg) && WellShaped(s.stats) && !s.halted
    ensures NulFree(EmergencyTag + msg)
    ensures cfg.minLevel == LevelNone ==> LogEffect(cfg, s, now, Fatal, CatSystem, EmergencyTag + msg) == s
    ensures cfg.minLevel != LevelNone ==>
      var r := LogEffect(cfg, s, now, Fatal, CatSystem, EmergencyTag + msg);
      && r.halted
      && r.serial == s.serial
           + (if cfg.enableSerial then [RenderedLine(cfg, now, Fatal, CatSystem, EmergencyTag + msg)] else [])
           + [FatalBanner]
  {
    assert NulFree(EmergencyTag);
  }

  // ---------------------------------------------------------------------------
  // Series of calls
  // ---------------------------------------------------------------------------

  /** A series of accepted non-FATAL calls leaves the device running and
      adds its length to the total, in 32-bit arithmetic. */
  lemma {:induction false} SeriesCounts(cfg: LoggerConfig, s: LogSinks, now: U32, level: LogLevel,
                                        category: LogCategory, msgs: seq<string>)
    requires CallsOk(cfg, category) && AllNulFree(msgs) && WellShaped(s.stats)
    requires !s.halted && cfg.minLevel <= level && level != Fatal
    ensures var r := LogAll(cfg, s, now, level, category, msgs);
      !r.halted && r.stats.totalLogs == (s.stats.totalLogs + |msgs|) % 0x1_0000_0000
    decreases |msgs|
  {
    if |msgs| > 0 {
      var init := msgs[..|msgs| - 1];
      SeriesCounts(cfg, s, now, level, category, init);
      IncAfterAdd(s.stats.totalLogs, |init|);
    }
  }

  /** With the serial sink on, a series of accepted non-FATAL calls prints
      one rendered line per message, in order. */
  lemma {:induction false} SeriesPrints(cfg: LoggerConfig, s: LogSinks, now: U32, level: LogLevel,
                                        category: LogCategory, msgs: seq<string>)
    requires CallsOk(cfg, category) && AllNulFree(msgs) && WellShaped(s.stats)
    requires !s.halted && cfg.minLevel <= level && level != Fatal && cfg.enableSerial
    ensures var r := LogAll(cfg, s, now, level, category, msgs);
      !r.halted && r.serial == s.serial + RenderedLines(cfg, now, level, category, msgs)
    decreases |msgs|
  {
    if |msgs| > 0 {
      var init := msgs[..|msgs| - 1];
      SeriesPrints(cfg, s, now, level, category, init);
    }
  }

  // ---------------------------------------------------------------------------
  // logger_log_raw, logger_reset_stats, logger_set_level
  // ---------------------------------------------------------------------------

  /** A raw line ignores the level filter and moves only the total counter;
      a null message prints an empty line and still counts. */
  lemma RawOnlyTotal(cfg: LoggerConfig, s: LogSinks, message: Option<string>)
    requires (message.Some? ==> NulFree(message.value)) && WellShaped(s.stats) && !s.halted
    ensures var r := RawEffect(cfg, s, message);
      && r.stats.totalLogs == IncU32(s.stats.totalLogs)
      && r.stats.logsByLevel == s.stats.logsByLevel && r.stats.logsByCategory == s.stats.logsByCategory
      && r.stats.droppedLogs == s.stats.droppedLogs
      && r.stats.lastLogTimestamp == s.stats.lastLogTimestamp
      && r.stats.lastLogLevel == s.stats.lastLogLevel && r.stats.lastLogCategory == s.stats.lastLogCategory
      && r.serial == s.serial + (if cfg.enableSerial then [if message.Some? then message.value else ""] else [])
      && RawEffect(cfg.(minLevel := LevelNone), s, message) == r
  {
  }

  /** After a reset the statistics count only the reset's own INFO line, or
      nothing at all when INFO is filtered out. */
  lemma ResetOutcome(cfg: LoggerConfig, s: LogSinks, now: U32)
    requires Capacity(cfg) >= 1 && WellShaped(s.stats) && !s.halted
    ensures Info < cfg.minLevel ==> ResetEffect(cfg, s, now) == s.(stats := ZeroStats)
    ensures cfg.minLevel <= Info ==>
      var r := ResetEffect(cfg, s, now).stats;
      && r.totalLogs == 1
      && (forall l :: 0 <= l < LevelNone ==> r.logsByLevel[l] == if l == Info then 1 else 0)
      && (forall c :: 0 <= c < CatMax ==> r.logsByCategory[c] == if c == CatSystem then 1 else 0)
      && r.lastLogTimestamp == now && r.lastLogLevel == Info && r.lastLogCategory == CatSystem
  {
    if cfg.minLevel <= Info {
      ResetNoticeNulFree();
      ZeroStatsCounters();
      AcceptedCounts(cfg, s.(stats := ZeroStats), now, Info, CatSystem, ResetNotice);
    }
  }

  /** With room for the longest prefix, the reset line is kept, so nothing is
      counted as dropped after a reset. */
  lemma ResetNothingDropped(cfg: LoggerConfig, s: LogSinks, now: U32)
    requires Capacity(cfg) >= 1 + 34 + |ResetNotice| && WellShaped(s.stats) && !s.halted
    ensures ResetEffect(cfg, s, now).stats.droppedLogs == 0
  {
    ResetNoticeNulFree();
    ShortMessageKept(cfg, now, Info, CatSystem, ResetNotice);
  }

  /** Setting the minimum level is announced at INFO under the new minimum,
      so it is silent exactly when the new minimum is above INFO. */
  lemma SetLevelAnnounced(cfg: LoggerConfig, s: LogSinks, now: U32, level: LogLevel)
    requires Capacity(cfg) >= 1 && WellShaped(s.stats) && !s.halted
    ensures LogEffect(cfg.(minLevel := level), s, now, Info, CatSystem, LevelNotice(level)) == s <==> Info < level
  {
    ChangesIffAccepted(cfg.(minLevel := level), s, now, Info, CatSystem, LevelNotice(level));
  }

  // ---------------------------------------------------------------------------
  // logger_log_hex_dump
  // ---------------------------------------------------------------------------

  /** A dump below the minimum level, or of a null buffer, has no effect. */
  lemma HexDumpSkipped(cfg: LoggerConfig, s: LogSinks, now: U32, level: LogLevel, category: LogCategory,
                       name: string, data: Option<seq<Byte>>)
    requires CallsOk(cfg, category) && NulFree(name) && WellShaped(s.stats)
    requires data.Some? ==> SizeT(|data.value|)
    requires level < cfg.minLevel || data.None?
    ensures HexDumpEffect(cfg, s, now, level, category, name, data) == s
  {
  }

  /** An accepted dump is its DEBUG header line followed by its rows, logged
      at the caller's level; with `HeaderThenRowsCount` and `HexLinesCount`
      this gives the dump's effect on the total: ceil(n / 16) rows plus the
      header when DEBUG passes the filter. */
  lemma HexDumpIsSeries(cfg: LoggerConfig, s: LogSinks, now: U32, level: LogLevel, category: LogCategory,
                        name: string, data: seq<Byte>)
    requires CallsOk(cfg, category) && NulFree(name) && WellShaped(s.stats) && SizeT(|data|)
    requires cfg.minLevel <= level
    ensures AllNulFree(HexLines(data)) && LineArgsOk(cfg, category, HexDumpHeader(name, |data|))
    ensures HexDumpEffect(cfg, s, now, level, category, name, Some(data))
         == LogAll(cfg, LogEffect(cfg, s, now, Debug, category, HexDumpHeader(name, |data|)),
                   now, level, category, HexLines(data))
  {
    HexLinesNulFree(data);
  }

  /** A DEBUG line followed by a series of accepted non-FATAL lines: the total
      moves by the series' length, plus one when DEBUG passes the filter. */
  lemma HeaderThenRowsCount(cfg: LoggerConfig, s: LogSinks, now: U32, level: LogLevel, category: LogCategory,
                            header: string, rows: seq<string>)
    requires LineArgsOk(cfg, category, header) && AllNulFree(rows) && WellShaped(s.stats)
    requires !s.halted && cfg.minLevel <= level && level != Fatal
    ensures var r := LogAll(cfg, LogEffect(cfg, s, now, Debug, category, header), now, level, category, rows);
      && !r.halted
      && r.stats.totalLogs
         == (s.stats.totalLogs + (if cfg.minLevel <= Debug then 1 else 0) + |rows|) % 0x1_0000_0000
  {
    var afterHeader := LogEffect(cfg, s, now, Debug, category, header);
    DebugLineCounts(cfg, s, now, category, header);
    SeriesCounts(cfg, afterHeader, now, level, category, rows);
    CountAfterHeader(s.stats.totalLogs, afterHeader.stats.totalLogs,
                     LogAll(cfg, afterHeader, now, level, category, rows).stats.totalLogs,
                     |rows|, cfg.minLevel <= Debug);
  }

  /** A DEBUG line on a running device never halts it and adds one to the
      total exactly when DEBUG passes the filter. */
  lemma DebugLineCounts(cfg: LoggerConfig, s: LogSinks, now: U32, category: LogCategory, msg: string)
    requires LineArgsOk(cfg, category, msg) && WellShaped(s.stats) && !s.halted
    ensures var r := LogEffect(cfg, s, now, Debug, category, msg);
      && !r.halted
      && r.stats.totalLogs == if cfg.minLevel <= Debug then (s.stats.totalLogs + 1) % 0x1_0000_0000
                              else s.stats.totalLogs
  {
    if cfg.minLevel <= Debug {
      AcceptedCounts(cfg, s, now, Debug, category, msg);
      AcceptedPrints(cfg, s, now, Debug, category, msg);
    }
  }

  /** With the serial sink on, an accepted non-FATAL dump prints the header
      (when DEBUG passes the filter) and then every row, in order. */
  lemma HexDumpPrints(cfg: LoggerConfig, s: LogSinks, now: U32, level: LogLevel, category: LogCategory,
                      name: string, data: seq<Byte>)
    requires CallsOk(cfg, category) && NulFree(name) && WellShaped(s.stats) && SizeT(|data|)
    requires !s.halted && cfg.minLevel <= level && level != Fatal && cfg.enableSerial
    ensures AllNulFree(HexLines(data))
    ensures HexDumpEffect(cfg, s, now, level, category, name, Some(data)).serial
      == s.serial
         + (if cfg.minLevel <= Debug then [RenderedLine(cfg, now, Debug, category, HexDumpHeader(name, |data|))]
            else [])
         + RenderedLines(cfg, now, level, category, HexLines(data))
  {
    HexDumpIsSeries(cfg, s, now, level, category, name, data);
    HeaderThenRowsPrints(cfg, s, now, level, category, HexDumpHeader(name, |data|), HexLines(data));
  }

  /** With the serial sink on, a DEBUG line followed by a series of accepted
      non-FATAL lines prints the DEBUG line when it passes the filter, then
      every line of the series, in order. */
  lemma HeaderThenRowsPrints(cfg: LoggerConfig, s: LogSinks, now: U32, level: LogLevel, category: LogCategory,
                             header: string, rows: seq<string>)
    requires LineArgsOk(cfg, category, header) && AllNulFree(rows) && WellShaped(s.stats)
    requires !s.halted && cfg.minLevel <= level && level != Fatal && cfg.enableSerial
    ensures LogAll(cfg, LogEffect(cfg, s, now, Debug, category, header), now, level, category, rows).serial
      == s.serial
         + (if cfg.minLevel <= Debug then [RenderedLine(cfg, now, Debug, category, header)] else [])
         + RenderedLines(cfg, now, level, category, rows)
  {
    var afterHeader := LogEffect(cfg, s, now, Debug, category, header);
    var headerLine := if cfg.minLevel <= Debug then [RenderedLine(cfg, now, Debug, category, header)] else [];
    DebugLinePrints(cfg, s, now, category, header);
    SeriesPrints(cfg, afterHeader, now, level, category, rows);
    assert s.serial + headerLine + RenderedLines(cfg, now, level, category, rows)
        == afterHeader.serial + RenderedLines(cfg, now, level, category, rows);
  }

  /** With the serial sink on, a DEBUG line on a running device never halts
      it and prints its rendered line exactly when DEBUG passes the filter. */
  lemma DebugLinePrints(cfg: LoggerConfig, s: LogSinks, now: U32, category: LogCategory, msg: string)
    requires LineArgsOk(cfg, category, msg) && WellShaped(s.stats) && !s.halted && cfg.enableSerial
    ensures var r := LogEffect(cfg, s, now, Debug, category, msg);
      && !r.halted
      && r.serial == s.serial + if cfg.minLevel <= Debug then [RenderedLine(cfg, now, Debug, category, msg)] else []
  {
    if cfg.minLevel <= Debug {
      AcceptedPrints(cfg, s, now, Debug, category, msg);
    }
  }

  /** A FATAL dump of a non-empty buffer halts after its first row: the rows
      after it are never printed. */
  lemma FatalDumpStopsAfterFirstRow(cfg: LoggerConfig, s: LogSinks, now: U32, category: LogCategory,
                                    name: string, data: seq<Byte>)
    requires CallsOk(cfg, category) && NulFree(name) && WellShaped(s.stats) && SizeT(|data|)
    requires !s.halted && cfg.minLevel <= Fatal && 0 < |data|
    ensures AllNulFree(HexLines(data)) && 0 < |HexLines(data)|
    ensures var afterHeader := LogEffect(cfg, s, now, Debug, category, HexDumpHeader(name, |data|));
      HexDumpEffect(cfg, s, now, Fatal, category, name, Some(data))
        == LogEffect(cfg, afterHeader, now, Fatal, category, HexLines(data)[0])
  {
    HexLinesNulFree(data);
    HexLinesCount(data);
    var lines := HexLines(data);
    var afterHeader := LogEffect(cfg, s, now, Debug, category, HexDumpHeader(name, |data|));
    var afterFirst := LogEffect(cfg, afterHeader, now, Fatal, category, lines[0]);
    assert afterFirst.halted;
    LogAllPrefixThenRest(cfg, afterHeader, now, Fatal, category, lines, 1);
    assert lines[..1] == [lines[0]];
    assert LogAll(cfg, afterHeader, now, Fatal, category, [lines[0]]) == afterFirst;
    HaltedSeries(cfg, afterFirst, now, Fatal, category, lines[1..]);
  }

  /** A series splits at any point into the calls before it and the calls
      after it. */
  lemma {:induction false} LogAllPrefixThenRest(cfg: LoggerConfig, s: LogSinks, now: U32, level: LogLevel,
                                                category: LogCategory, msgs: seq<string>, j: nat)
    requires CallsOk(cfg, category) && AllNulFree(msgs) && WellShaped(s.stats) && j <= |msgs|
    ensures LogAll(cfg, s, now, level, category, msgs) ==
      LogAll(cfg, LogAll(cfg, s, now, level, category, msgs[..j]), now, level, category, msgs[j..])
    decreases |msgs|
  {
    if j == |msgs| {
      assert msgs[..j] == msgs;
    } else {
      LogAllPrefixThenRest(cfg, s, now, level, category, msgs[..|msgs| - 1], j);
      PrefixThenRestStep(cfg, s, now, level, category, msgs, j);
    }
  }

  /** The inductive step of `LogAllPrefixThenRest`: a split of all but the
      last call extends to a split of the whole series. */
  lemma PrefixThenRestStep(cfg: LoggerConfig, s: LogSinks, now: U32, level: LogLevel,
                           category: LogCategory, msgs: seq<string>, j: nat)
    requires CallsOk(cfg, category) && AllNulFree(msgs) && WellShaped(s.stats) && j < |msgs|
    requires var init := msgs[..|msgs| - 1];
      LogAll(cfg, s, now, level, category, init) ==
      LogAll(cfg, LogAll(cfg, s, now, level, category, init[..j]), now, level, category, init[j..])
    ensures LogAll(cfg, s, now, level, category, msgs) ==
      LogAll(cfg, LogAll(cfg, s, now, level, category, msgs[..j]), now, level, category, msgs[j..])
  {
    var init := msgs[..|msgs| - 1];
    assert init[..j] == msgs[..j];
    assert msgs[j..][..|msgs[j..]| - 1] == init[j..];
  }

  // ---------------------------------------------------------------------------
  // logger_init
  // ---------------------------------------------------------------------------

  /** From power-on, `logger_init` prints the reset line and the start-up
      banner and leaves both counted at INFO in the SYSTEM category. */
  lemma InitFromPowerOn(now: U32)
    ensures var r := InitEffect(DefaultLoggerConfig, LogSinks(ZeroStats, [], false), now);
      && !r.halted && |r.serial| == 2
      && r.stats.totalLogs == 2 && r.stats.logsByLevel[Info] == 2 && r.stats.logsByCategory[CatSystem] == 2
  {
    var c := InitConfig(DefaultLoggerConfig);
    var s0 := LogSinks(ZeroStats, [], false);
    ResetOutcome(c, s0, now);
    ResetNoticeNulFree();
    StartupNoticeNulFree();
    var s1 := ResetEffect(c, s0, now);
    AcceptedPrints(c, s0.(stats := ZeroStats), now, Info, CatSystem, ResetNotice);
    AcceptedCounts(c, s1, now, Info, CatSystem, StartupNotice);
    AcceptedPrints(c, s1, now, Info, CatSystem, StartupNotice);
  }
}
