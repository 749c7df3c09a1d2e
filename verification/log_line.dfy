/** How `logger_log` assembles one line in its fixed-capacity stack buffer,
    and how `logger_log_hex_dump` formats one 16-byte row. The buffer is an
    `array<char>`; every `snprintf`/`sprintf` call is `Put`, which stores as
    much of its text as the size allows followed by a NUL. */
module LogLine {
  import opened CSupport
  import opened LoggerTypes

  // ---------------------------------------------------------------------------
  // snprintf on a char buffer
  // ---------------------------------------------------------------------------

  function Min(a: nat, b: nat): nat { if a <= b then a else b }

  /** How many characters of `piece` snprintf stores in `size` bytes: at most
      `size - 1`, because the last byte holds the NUL. */
  function Stored(size: nat, piece: string): (k: nat)
    ensures k <= |piece|
    ensures size >= 1 ==> k < size
    ensures |piece| < size ==> k == |piece|
  {
    if size == 0 then 0 else Min(|piece|, size - 1)
  }

  /** The buffer `b` after `snprintf(b + at, size, "%s", piece)`. */
  function Printed(b: seq<char>, at: nat, size: nat, piece: string): (r: seq<char>)
    requires at + size <= |b|
    ensures |r| == |b|
  {
    if size == 0 then b
    else
      var k := Stored(size, piece);
      seq(|b|, i requires 0 <= i < |b| =>
        if at <= i < at + k then piece[i - at] else if i == at + k then Nul else b[i])
  }

  /** snprintf leaves everything before `at` alone, stores the stored part of
      the piece at `at`, a NUL right after it, and nothing further. */
  lemma PrintedShape(b: seq<char>, at: nat, size: nat, piece: string)
    requires at + size <= |b|
    ensures Printed(b, at, size, piece)[..at] == b[..at]
    ensures size == 0 ==> Printed(b, at, size, piece) == b
    ensures size >= 1 ==>
      var k := Stored(size, piece);
      && Printed(b, at, size, piece)[..at + k] == b[..at] + piece[..k]
      && Printed(b, at, size, piece)[at + k] == Nul
      && Printed(b, at, size, piece)[at + k + 1..] == b[at + k + 1..]
  {
    if size >= 1 {
      var k := Stored(size, piece);
      var r := Printed(b, at, size, piece);
      assert r[..at + k] == b[..at] + piece[..k];
    }
  }

  /** `snprintf(buf + at, size, "%s", piece)`: returns the length of the
      untruncated text, whatever was stored. */
  method Put(buf: array<char>, at: nat, size: nat, piece: string) returns (written: nat)
    requires at + size <= buf.Length
    modifies buf
    ensures written == |piece|
    ensures buf[..] == Printed(old(buf[..]), at, size, piece)
  {
    written := |piece|;
    if size == 0 {
      return;
    }
    var k := Stored(size, piece);
    ghost var before := buf[..];
    var i := 0;
    while i < k
      invariant 0 <= i <= k
      invariant forall j :: 0 <= j < buf.Length ==> buf[j] == if at <= j < at + i then piece[j - at] else before[j]
    {
      buf[at + i] := piece[i];
      i := i + 1;
    }
    buf[at + k] := Nul;
    assert forall j :: 0 <= j < buf.Length ==> buf[..][j] == Printed(before, at, size, piece)[j];
  }

  // ---------------------------------------------------------------------------
  // The line prefix
  // ---------------------------------------------------------------------------

  /** "[%08u] " */
  function TimestampPiece(ts: U32): (r: string)
    ensures NulFree(r)
  {
    "[" + ZeroPadded(Decimal(ts as nat), 8) + "] "
  }

  function ColorPiece(level: LogLevel): (r: string)
    ensures NulFree(r)
  {
    TablesWellFormed();
    LogColors[level]
  }

  /** "[%s]" of the level name. */
  function LevelPiece(level: LogLevel): (r: string)
    ensures NulFree(r) && |r| == 7
  {
    TablesWellFormed();
    "[" + LevelNames[level] + "]"
  }

  /** "[%s]" of the category name. */
  function CategoryPiece(category: nat): (r: string)
    requires category < CatMax
    ensures NulFree(r) && |r| == 8
  {
    TablesWellFormed();
    "[" + CategoryNames[category] + "]"
  }

  const Separator: string := " "

  /** Colour codes are written only when colours and the serial sink are both on. */
  predicate ColorsOn(cfg: LoggerConfig)
  {
    cfg.enableColors && cfg.enableSerial
  }

  /** One prefix step: the piece is kept, and the cursor advanced past it,
      only when `0 < written < remaining_space`. */
  function Advance(cap: nat, acc: string, piece: string): (r: string)
    ensures |acc| < cap ==> |r| < cap
    ensures NulFree(acc) && NulFree(piece) ==> NulFree(r)
    ensures r == acc || r == acc + piece
  {
    if 0 < |piece| < cap - |acc| then acc + piece else acc
  }

  /** What `logger_log`'s arguments must satisfy for the line to be built
      without undefined behaviour: a non-empty buffer, a category inside the
      name table whenever names are printed, and a C string as message. */
  predicate LineArgsOk(cfg: LoggerConfig, category: LogCategory, msg: string)
  {
    Capacity(cfg) >= 1 && (cfg.enableCategories ==> category < CatMax) && NulFree(msg)
  }

  lemma ConstantsNulFree()
    ensures NulFree(Separator) && NulFree(LogReset) && NulFree(Marker)
  {
    TablesWellFormed();
  }

  /** The prefix after the timestamp step. */
  function StampStep(cfg: LoggerConfig, ts: U32): string
  {
    if cfg.enableTimestamps then Advance(Capacity(cfg), [], TimestampPiece(ts)) else []
  }

  /** The prefix after the colour step. */
  function ColorStep(cfg: LoggerConfig, acc: string, level: LogLevel): string
  {
    if ColorsOn(cfg) then Advance(Capacity(cfg), acc, ColorPiece(level)) else acc
  }

  /** The prefix after the category step. */
  function CategoryStep(cfg: LoggerConfig, acc: string, category: LogCategory): string
    requires cfg.enableCategories ==> category < CatMax
  {
    if cfg.enableCategories then Advance(Capacity(cfg), acc, CategoryPiece(category)) else acc
  }

  /** The text in front of the cursor once timestamp, colour, level, category
      and separator have been offered to the buffer in that order. */
  function Prefix(cfg: LoggerConfig, ts: U32, level: LogLevel, category: LogCategory): (p: string)
    requires Capacity(cfg) >= 1 && (cfg.enableCategories ==> category < CatMax)
    ensures |p| < Capacity(cfg)
    ensures NulFree(p)
  {
    ConstantsNulFree();
    var cap := Capacity(cfg);
    var withLevel := Advance(cap, ColorStep(cfg, StampStep(cfg, ts), level), LevelPiece(level));
    Advance(cap, CategoryStep(cfg, withLevel, category), Separator)
  }

  /** The message is kept exactly when it is non-empty and fits strictly in
      the space left after the prefix. */
  predicate MessageFits(cfg: LoggerConfig, ts: U32, level: LogLevel, category: LogCategory, msg: string)
    requires Capacity(cfg) >= 1 && (cfg.enableCategories ==> category < CatMax)
  {
    FitsAfter(Capacity(cfg), Prefix(cfg, ts, level, category), msg)
  }

  /** vsnprintf's result counts as written when `0 < written < remaining_space`. */
  predicate FitsAfter(cap: nat, prefix: string, msg: string)
  {
    0 < |msg| < cap - |prefix|
  }

  // ---------------------------------------------------------------------------
  // The truncation marker
  // ---------------------------------------------------------------------------

  const Marker: string := "...[TRUNCATED]"

  /** The marker is written this many bytes before the cursor, with this size. */
  const MarkerBack: nat := 20

  /** As written: `snprintf(buffer_ptr - 20, 20, ...)`, an offset from the
      start of the buffer that is negative whenever the prefix is shorter
      than 20 bytes. */
  function MarkerOffsetAsWritten(cursor: nat): int
  {
    cursor - MarkerBack
  }

  /** Corrected: the marker starts 20 bytes before the cursor when there is
      room and at the start of the buffer otherwise, and is given at most the
      bytes between its start and the cursor. */
  function MarkerStart(cursor: nat): (start: nat)
    ensures start <= cursor && cursor - start <= MarkerBack
    ensures MarkerOffsetAsWritten(cursor) >= 0 ==> start == MarkerOffsetAsWritten(cursor)
  {
    if cursor >= MarkerBack then cursor - MarkerBack else 0
  }

  /** The line `logger_log` hands to the serial port after the given
      prefix: prefix, message and the stored part of the colour reset; or,
      when the message is dropped, the prefix cut at the marker followed by
      the stored part of the marker. */
  function LineAfter(cap: nat, colors: bool, prefix: string, msg: string): string
    requires |prefix| < cap
  {
    if FitsAfter(cap, prefix, msg) then
      var body := prefix + msg;
      if colors then body + LogReset[..Stored(cap - |body|, LogReset)] else body
    else
      var start := MarkerStart(|prefix|);
      prefix[..start] + Marker[..Stored(|prefix| - start, Marker)]
  }

  /** The line `logger_log` hands to the serial port. */
  function RenderedLine(cfg: LoggerConfig, ts: U32, level: LogLevel, category: LogCategory, msg: string): string
    requires LineArgsOk(cfg, category, msg)
  {
    LineAfter(Capacity(cfg), ColorsOn(cfg), Prefix(cfg, ts, level, category), msg)
  }

  // ---------------------------------------------------------------------------
  // Assembly in the buffer
  // ---------------------------------------------------------------------------

  /** One prefix step on the buffer: snprintf at the cursor, then advance the
      cursor only if the whole piece fitted strictly. */
  method Append(buf: array<char>, cursor: nat, piece: string) returns (next: nat)
    requires cursor < buf.Length
    modifies buf
    ensures next < buf.Length
    ensures next == cursor || next == cursor + |piece|
    ensures buf[..next] == Advance(buf.Length, old(buf[..cursor]), piece)
    ensures buf[..] == Printed(old(buf[..]), cursor, buf.Length - cursor, piece)
  {
    ghost var before := buf[..];
    var written := Put(buf, cursor, buf.Length - cursor, piece);
    PrintedShape(before, cursor, buf.Length - cursor, piece);
    next := cursor;
    if 0 < written < buf.Length - cursor {
      next := cursor + written;
    }
  }

  /** Writes the timestamp and colour pieces that fit into a fresh line. */
  method WriteLead(buf: array<char>, cfg: LoggerConfig, ts: U32, level: LogLevel)
    returns (cursor: nat)
    requires buf.Length == Capacity(cfg) >= 1
    modifies buf
    ensures cursor < buf.Length
    ensures buf[..cursor] == ColorStep(cfg, StampStep(cfg, ts), level)
  {
    cursor := 0;
    if cfg.enableTimestamps {
      cursor := Append(buf, cursor, TimestampPiece(ts));
    }
    assert buf[..cursor] == StampStep(cfg, ts);
    if ColorsOn(cfg) {
      cursor := Append(buf, cursor, ColorPiece(level));
    }
  }

  /** Writes the level, category and separator pieces that fit after the
      first `cursor` bytes. */
  method WriteTags(buf: array<char>, cfg: LoggerConfig, cursor: nat, level: LogLevel, category: LogCategory)
    returns (next: nat)
    requires buf.Length == Capacity(cfg) && cursor < buf.Length
    requires cfg.enableCategories ==> category < CatMax
    modifies buf
    ensures next < buf.Length
    ensures buf[..next] ==
      Advance(Capacity(cfg), CategoryStep(cfg, Advance(Capacity(cfg), old(buf[..cursor]), LevelPiece(level)), category), Separator)
  {
    next := Append(buf, cursor, LevelPiece(level));
    ghost var acc := buf[..next];
    if cfg.enableCategories {
      next := Append(buf, next, CategoryPiece(category));
    }
    assert buf[..next] == CategoryStep(cfg, acc, category);
    next := Append(buf, next, Separator);
  }

  /** Writes the prefix pieces that fit and returns the cursor. */
  method WritePrefix(buf: array<char>, cfg: LoggerConfig, ts: U32, level: LogLevel, category: LogCategory)
    returns (cursor: nat)
    requires Capacity(cfg) >= 1 && (cfg.enableCategories ==> category < CatMax)
    requires buf.Length == Capacity(cfg)
    modifies buf
    ensures cursor < buf.Length
    ensures buf[..cursor] == Prefix(cfg, ts, level, category)
  {
    cursor := WriteLead(buf, cfg, ts, level);
    cursor := WriteTags(buf, cfg, cursor, level, category);
  }

  /** A prefix is empty only in a one-byte buffer: the one-byte separator fits
      in any larger one. */
  lemma PrefixEmptyOnlyInUnitBuffer(cfg: LoggerConfig, ts: U32, level: LogLevel, category: LogCategory)
    requires Capacity(cfg) >= 1 && (cfg.enableCategories ==> category < CatMax)
    ensures |Prefix(cfg, ts, level, category)| == 0 ==> Capacity(cfg) == 1
  {
  }

  /** `s` holds a C string of length `n`: a NUL at `n` and none before. */
  predicate Terminated(s: seq<char>, n: nat)
  {
    n < |s| && s[n] == Nul && NulFree(s[..n])
  }

  /** What `Serial.println` prints from a terminated buffer. */
  lemma TerminatedCString(s: seq<char>, n: nat)
    requires Terminated(s, n)
    ensures CString(s) == s[..n]
  {
    CStringAt(s, n);
  }

  /** snprintf of a NUL-free piece behind NUL-free text terminates the
      buffer right after the stored part of the piece. */
  lemma PrintedTerminated(b: seq<char>, at: nat, size: nat, piece: string)
    requires 1 <= size && at + size <= |b|
    requires NulFree(b[..at]) && NulFree(piece)
    ensures var k := Stored(size, piece);
      && Terminated(Printed(b, at, size, piece), at + k)
      && Printed(b, at, size, piece)[..at + k] == b[..at] + piece[..k]
  {
    PrintedShape(b, at, size, piece);
  }

  /** snprintf behind the terminating NUL keeps the C string. */
  lemma PrintedBehind(b: seq<char>, at: nat, size: nat, piece: string, n: nat)
    requires at + size <= |b| && Terminated(b, n) && n < at
    ensures Terminated(Printed(b, at, size, piece), n)
    ensures Printed(b, at, size, piece)[..n] == b[..n]
  {
    var r := Printed(b, at, size, piece);
    PrintedShape(b, at, size, piece);
    assert r[..n] == r[..at][..n];
    assert r[n] == r[..at][n];
  }

  /** The line after a prefix when the message fits. */
  lemma LineAfterKept(cap: nat, colors: bool, prefix: string, msg: string)
    requires |prefix| < cap && FitsAfter(cap, prefix, msg)
    ensures LineAfter(cap, colors, prefix, msg) ==
      prefix + msg + (if colors then LogReset[..Stored(cap - (|prefix| + |msg|), LogReset)] else [])
  {
  }

  /** The line after a prefix when the message is dropped. */
  lemma LineAfterDropped(cap: nat, colors: bool, prefix: string, msg: string)
    requires |prefix| < cap && !FitsAfter(cap, prefix, msg)
    ensures LineAfter(cap, colors, prefix, msg) ==
      prefix[..MarkerStart(|prefix|)] + Marker[..Stored(|prefix| - MarkerStart(|prefix|), Marker)]
  {
  }

  /** The colour reset after a kept message: the C string is the text
      before the cursor followed by the stored part of the reset code. */
  method EndKept(buf: array<char>, cfg: LoggerConfig, cursor: nat, ghost prefix: string, ghost msg: string)
    returns (line: string)
    requires buf.Length == Capacity(cfg) && Terminated(buf[..], cursor)
    requires buf[..cursor] == prefix + msg && FitsAfter(buf.Length, prefix, msg)
    modifies buf
    ensures line == LineAfter(buf.Length, ColorsOn(cfg), prefix, msg)
  {
    LineAfterKept(buf.Length, ColorsOn(cfg), prefix, msg);
    ghost var end := cursor;
    if ColorsOn(cfg) {
      ConstantsNulFree();
      ghost var b := buf[..];
      assert b[..cursor] == old(buf[..cursor]);
      var _ := Put(buf, cursor, buf.Length - cursor, LogReset);
      PrintedTerminated(b, cursor, buf.Length - cursor, LogReset);
      end := cursor + Stored(buf.Length - cursor, LogReset);
    }
    TerminatedCString(buf[..], end);
    line := CString(buf[..]);
    assert line == prefix + msg + (if ColorsOn(cfg) then LogReset[..Stored(buf.Length - cursor, LogReset)] else []);
  }

  /** Where the NUL after the stored part of the marker lands. */
  function MarkerEnd(cursor: nat): (e: nat)
    ensures e <= cursor && (cursor >= 1 ==> e < cursor)
  {
    MarkerStart(cursor) + Stored(cursor - MarkerStart(cursor), Marker)
  }

  /** The marker write leaves the text before its start, the stored part of
      the marker and a NUL. */
  lemma MarkerTerminates(b1: seq<char>, cursor: nat, prefix: string)
    requires cursor < |b1| && b1[..cursor] == prefix && NulFree(prefix)
    requires cursor == 0 ==> Terminated(b1, 0)
    ensures var start := MarkerStart(cursor);
      var b2 := Printed(b1, start, cursor - start, Marker);
      && Terminated(b2, MarkerEnd(cursor))
      && b2[..MarkerEnd(cursor)] == prefix[..start] + Marker[..Stored(cursor - start, Marker)]
  {
    var start := MarkerStart(cursor);
    if cursor >= 1 {
      ConstantsNulFree();
      assert b1[..start] == prefix[..start];
      PrintedTerminated(b1, start, cursor - start, Marker);
    }
  }

  /** snprintf at or behind the terminating NUL keeps the C string, when it
      starts behind the NUL or has room for nothing but a NUL. */
  lemma ResetKeeps(b: seq<char>, at: nat, size: nat, piece: string, n: nat)
    requires at + size <= |b| && Terminated(b, n)
    requires n < at || (n == at && size == 1)
    ensures Terminated(Printed(b, at, size, piece), n)
    ensures Printed(b, at, size, piece)[..n] == b[..n]
  {
    if n < at {
      PrintedBehind(b, at, size, piece, n);
    } else {
      PrintedShape(b, at, size, piece);
    }
  }

  /** The marker and colour reset after a dropped message: the C string is
      the text before the marker's start followed by the stored part of the
      marker; the reset code lands behind the marker's NUL. */
  method EndDropped(buf: array<char>, cfg: LoggerConfig, cursor: nat, ghost prefix: string, ghost msg: string)
    returns (line: string)
    requires buf.Length == Capacity(cfg) && cursor < buf.Length && buf[..cursor] == prefix
    requires NulFree(prefix) && (cursor == 0 ==> buf.Length == 1 && Terminated(buf[..], 0))
    requires !FitsAfter(buf.Length, prefix, msg)
    modifies buf
    ensures line == LineAfter(buf.Length, ColorsOn(cfg), prefix, msg)
  {
    LineAfterDropped(buf.Length, ColorsOn(cfg), prefix, msg);
    var start := MarkerStart(cursor);
    ghost var b1 := buf[..];
    ghost var end := MarkerEnd(cursor);
    var _ := Put(buf, start, cursor - start, Marker);
    MarkerTerminates(b1, cursor, prefix);
    ghost var b2 := buf[..];
    if ColorsOn(cfg) {
      var _ := Put(buf, cursor, buf.Length - cursor, LogReset);
      ResetKeeps(b2, cursor, buf.Length - cursor, LogReset, end);
    }
    TerminatedCString(buf[..], end);
    line := CString(buf[..]);
  }

  /** Whatever the prefix and message, the line fits the buffer with its NUL
      and contains no NUL of its own. */
  lemma LineAfterFits(cap: nat, colors: bool, prefix: string, msg: string)
    requires |prefix| < cap && NulFree(prefix) && NulFree(msg)
    ensures |LineAfter(cap, colors, prefix, msg)| < cap
    ensures NulFree(LineAfter(cap, colors, prefix, msg))
  {
    ConstantsNulFree();
    if FitsAfter(cap, prefix, msg) {
      LineAfterKept(cap, colors, prefix, msg);
    } else {
      LineAfterDropped(cap, colors, prefix, msg);
      assert NulFree(prefix[..MarkerStart(|prefix|)]);
    }
  }

  /** vsnprintf of a message that fits leaves the text before the cursor
      and the message, terminated. */
  lemma MessageStored(b0: seq<char>, cursor: nat, msg: string)
    requires cursor + |msg| < |b0| && NulFree(b0[..cursor]) && NulFree(msg)
    ensures var b1 := Printed(b0, cursor, |b0| - cursor, msg);
      Terminated(b1, cursor + |msg|) && b1[..cursor + |msg|] == b0[..cursor] + msg
  {
    PrintedTerminated(b0, cursor, |b0| - cursor, msg);
    assert msg[..|msg|] == msg;
  }

  /** vsnprintf of a message that does not fit leaves the text before the
      cursor alone, and terminates a one-byte buffer at its start. */
  lemma MessageRefused(b0: seq<char>, cursor: nat, msg: string)
    requires cursor < |b0|
    ensures var b1 := Printed(b0, cursor, |b0| - cursor, msg);
      b1[..cursor] == b0[..cursor] && (|b0| == 1 ==> Terminated(b1, 0))
  {
    PrintedShape(b0, cursor, |b0| - cursor, msg);
  }

  /** Everything `logger_log` writes after the prefix: the message, then
      either the colour reset or the truncation marker and the colour reset. */
  method WriteBody(buf: array<char>, cfg: LoggerConfig, cursor: nat, msg: string)
    returns (line: string, dropped: bool)
    requires buf.Length == Capacity(cfg) && cursor < buf.Length
    requires NulFree(buf[..cursor]) && NulFree(msg) && (cursor == 0 ==> buf.Length == 1)
    modifies buf
    ensures dropped == !FitsAfter(buf.Length, old(buf[..cursor]), msg)
    ensures line == LineAfter(buf.Length, ColorsOn(cfg), old(buf[..cursor]), msg)
  {
    var cap := buf.Length;
    ghost var b0 := buf[..];
    ghost var prefix := buf[..cursor];
    var written := Put(buf, cursor, cap - cursor, msg);
    if 0 < written < cap - cursor {
      dropped := false;
      MessageStored(b0, cursor, msg);
      line := EndKept(buf, cfg, cursor + written, prefix, msg);
    } else {
      dropped := true;
      MessageRefused(b0, cursor, msg);
      line := EndDropped(buf, cfg, cursor, prefix, msg);
    }
  }

  /** The body of `logger_log` from the buffer declaration to the colour reset:
      returns the text the serial sink prints and whether the message counts
      as dropped. The truncation marker is placed by `MarkerStart`. */
  method AssembleLine(cfg: LoggerConfig, now: U32, level: LogLevel, category: LogCategory, msg: string)
    returns (line: string, dropped: bool)
    requires LineArgsOk(cfg, category, msg)
    ensures dropped == !MessageFits(cfg, now, level, category, msg)
    ensures line == RenderedLine(cfg, now, level, category, msg)
  {
    var buf := new char[cfg.maxLogBuffer as nat];
    var cursor := WritePrefix(buf, cfg, now, level, category);
    PrefixEmptyOnlyInUnitBuffer(cfg, now, level, category);
    line, dropped := WriteBody(buf, cfg, cursor, msg);
  }

  // ---------------------------------------------------------------------------
  // Properties of the rendered line
  // ---------------------------------------------------------------------------

  /** The printed line always fits the buffer with its NUL and never contains
      a NUL of its own. */
  lemma LineFitsBuffer(cfg: LoggerConfig, ts: U32, level: LogLevel, category: LogCategory, msg: string)
    requires LineArgsOk(cfg, category, msg)
    ensures |RenderedLine(cfg, ts, level, category, msg)| < Capacity(cfg)
    ensures NulFree(RenderedLine(cfg, ts, level, category, msg))
  {
    LineAfterFits(Capacity(cfg), ColorsOn(cfg), Prefix(cfg, ts, level, category), msg);
  }

  /** Behind a prefix of at least 20 bytes a dropped message leaves the
      prefix without its last 20 bytes, followed by the whole marker. */
  lemma DroppedAfterLongPrefix(cap: nat, colors: bool, prefix: string, msg: string)
    requires |prefix| < cap && !FitsAfter(cap, prefix, msg) && |prefix| >= MarkerBack
    ensures LineAfter(cap, colors, prefix, msg) == prefix[..|prefix| - MarkerBack] + Marker
  {
    LineAfterDropped(cap, colors, prefix, msg);
    assert Stored(MarkerBack, Marker) == |Marker|;
    assert Marker[..|Marker|] == Marker;
  }

  /** The same for the line `logger_log` prints. */
  lemma DroppedLineEndsWithMarker(cfg: LoggerConfig, ts: U32, level: LogLevel, category: LogCategory, msg: string)
    requires LineArgsOk(cfg, category, msg) && !MessageFits(cfg, ts, level, category, msg)
    requires |Prefix(cfg, ts, level, category)| >= MarkerBack
    ensures var p := Prefix(cfg, ts, level, category);
      RenderedLine(cfg, ts, level, category, msg) == p[..|p| - MarkerBack] + Marker
  {
    DroppedAfterLongPrefix(Capacity(cfg), ColorsOn(cfg), Prefix(cfg, ts, level, category), msg);
  }

  /** The "[%08u] " piece is 11 to 13 bytes long: eight to ten digits. */
  lemma TimestampPieceLength(ts: U32)
    ensures 11 <= |TimestampPiece(ts)| <= 13
  {
    DecimalLength32(ts as nat);
  }

  /** Under the default configuration every piece fits, so the prefix is the
      whole timestamp, colour, level, category and separator, at least 20
      bytes long: the truncation marker then stays inside the buffer. */
  lemma DefaultPrefix(ts: U32, level: LogLevel, category: LogCategory)
    requires category < CatMax
    ensures Prefix(DefaultLoggerConfig, ts, level, category) ==
      TimestampPiece(ts) + ColorPiece(level) + LevelPiece(level) + CategoryPiece(category) + Separator
    ensures MarkerBack <= |Prefix(DefaultLoggerConfig, ts, level, category)| < Capacity(DefaultLoggerConfig)
    ensures MarkerOffsetAsWritten(|Prefix(DefaultLoggerConfig, ts, level, category)|) >= 0
  {
    TimestampPieceLength(ts);
    TablesWellFormed();
    var cfg := DefaultLoggerConfig;
    var a1 := StampStep(cfg, ts);
    assert a1 == TimestampPiece(ts);
    var a2 := ColorStep(cfg, a1, level);
    assert a2 == a1 + ColorPiece(level);
    var a3 := Advance(Capacity(cfg), a2, LevelPiece(level));
    assert a3 == a2 + LevelPiece(level);
    var a4 := CategoryStep(cfg, a3, category);
    assert a4 == a3 + CategoryPiece(category);
  }

  /** The input that shows the marker underflow: with timestamps, colours and
      categories off the prefix is "[INFO ] ", 8 bytes, an empty message is
      dropped, and `buffer_ptr - 20` points 12 bytes before the buffer. */
  lemma MarkerUnderflowAsWritten()
    ensures var cfg := DefaultLoggerConfig.(enableTimestamps := false, enableColors := false, enableCategories := false);
      && Prefix(cfg, 0, Info, CatSystem) == "[INFO ] "
      && !MessageFits(cfg, 0, Info, CatSystem, [])
      && MarkerOffsetAsWritten(|Prefix(cfg, 0, Info, CatSystem)|) == -12
  {
    var cfg := DefaultLoggerConfig.(enableTimestamps := false, enableColors := false, enableCategories := false);
    assert LevelPiece(Info) == "[INFO ]";
    assert Advance(512, [], LevelPiece(Info)) == "[INFO ]";
  }
}
