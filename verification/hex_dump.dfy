/** How `logger_log_hex_dump` lays out a byte buffer: one line per 16 bytes,
    a four-digit (at least) hexadecimal offset, one "XX " group per byte,
    blank groups that pad a short last line, a space and an ASCII column. */
module HexDump {
  import opened CSupport
  import opened LogLine

  /** Bytes per dump line. */
  const BytesPerLine: nat := 16

  /** Width of the hex column: three characters per byte slot. */
  const HexColumnWidth: nat := 48

  /** Size of the `hex_line` stack buffer. */
  const LineBufferSize: nat := 80

  /** The byte count handed over as a `size_t`, which is 32 bits wide on the
      target. */
  predicate SizeT(n: nat)
  {
    n < 0x1_0000_0000
  }

  // ---------------------------------------------------------------------------
  // Columns
  // ---------------------------------------------------------------------------

  /** "%02X" of one byte: its high and its low nibble. */
  function HexByte(b: Byte): (r: string)
    ensures |r| == 2 && NulFree(r)
  {
    [DigitChar(b as nat / 16), DigitChar(b as nat % 16)]
  }

  /** The two characters are exactly what the `%02X` conversion prints. */
  lemma HexByteIsPadded(b: Byte)
    ensures HexByte(b) == ZeroPadded(Hex(b as nat), 2)
  {
    TwoDigitsPadded(b as nat);
  }

  lemma TwoDigitsPadded(n: nat)
    requires n < 256
    ensures [DigitChar(n / 16), DigitChar(n % 16)] == ZeroPadded(Hex(n), 2)
  {
    if n < 16 {
      assert DigitChar(n / 16) == '0';
      assert Zeros(1) == ['0'];
      assert Hex(n) == [DigitChar(n % 16)];
    } else {
      assert Hex(n / 16) == [DigitChar(n / 16)];
      assert Hex(n) == [DigitChar(n / 16)] + [DigitChar(n % 16)];
    }
  }

  /** The two digits read back in base 16 give the byte. */
  lemma HexByteDecodes(b: Byte)
    ensures DigitsValue(HexByte(b), 16) == b as nat
  {
    HexByteIsPadded(b);
    HexRoundTrip(b as nat);
    ZeroPaddedValue(Hex(b as nat), 2, 16);
  }

  /** The ASCII column shows printable characters 32..126 as themselves and
      every other byte as '.'. */
  function AsciiChar(b: Byte): (c: char)
    ensures c != Nul
    ensures 32 <= c as int <= 126
  {
    if 32 <= b <= 126 then (b as int) as char else '.'
  }

  /** The hex column of a run of bytes: "XX " per byte. */
  function HexColumn(bytes: seq<Byte>): (r: string)
    ensures |r| == 3 * |bytes|
    ensures NulFree(r)
  {
    if |bytes| == 0 then [] else HexByte(bytes[0]) + " " + HexColumn(bytes[1..])
  }

  /** Group `k` of the hex column is the byte's two digits and a space. */
  lemma {:induction false} HexColumnGroup(bytes: seq<Byte>, k: nat)
    requires k < |bytes|
    ensures HexColumn(bytes)[3 * k] == HexByte(bytes[k])[0]
    ensures HexColumn(bytes)[3 * k + 1] == HexByte(bytes[k])[1]
    ensures HexColumn(bytes)[3 * k + 2] == ' '
  {
    if k > 0 {
      var tail := bytes[1..];
      HexColumnGroup(tail, k - 1);
      assert tail[k - 1] == bytes[k];
      assert HexColumn(bytes) == (HexByte(bytes[0]) + " ") + HexColumn(tail);
    }
  }

  /** The ASCII column of a run of bytes. */
  function AsciiColumn(bytes: seq<Byte>): (r: string)
    ensures |r| == |bytes|
    ensures NulFree(r)
  {
    seq(|bytes|, k requires 0 <= k < |bytes| => AsciiChar(bytes[k]))
  }

  /** Printable bytes are shown as themselves, the others as '.'. */
  lemma AsciiColumnShows(bytes: seq<Byte>, k: nat)
    requires k < |bytes|
    ensures 32 <= bytes[k] <= 126 ==> AsciiColumn(bytes)[k] as int == bytes[k] as int
    ensures !(32 <= bytes[k] <= 126) ==> AsciiColumn(bytes)[k] == '.'
  {
  }

  /** `count` blank groups of three spaces. */
  function Spaces(count: nat): (r: string)
    ensures |r| == 3 * count
    ensures forall i :: 0 <= i < |r| ==> r[i] == ' '
  {
    if count == 0 then [] else Spaces(count - 1) + "   "
  }

  /** The hexadecimal digits of a 32-bit offset take at most 8 characters. */
  lemma HexOffsetWidth(offset: nat)
    ensures SizeT(offset) ==> |Hex(offset)| <= 8
  {
    if SizeT(offset) {
      HexLength32(offset);
    }
  }

  /** "%04X: " of the line's offset. */
  function HexOffset(offset: nat): (r: string)
    ensures 6 <= |r| && NulFree(r)
    ensures SizeT(offset) ==> |r| <= 10
  {
    HexOffsetWidth(offset);
    ZeroPadded(Hex(offset), 4) + ": "
  }

  // ---------------------------------------------------------------------------
  // Lines
  // ---------------------------------------------------------------------------

  /** How many bytes the line at `offset` shows. */
  function BytesOnLine(length: nat, offset: nat): (n: nat)
    requires offset < length
    ensures 1 <= n <= BytesPerLine && offset + n <= length
  {
    if length - offset < BytesPerLine then length - offset else BytesPerLine
  }

  /** The bytes the line at `offset` shows. */
  function LineBytes(data: seq<Byte>, offset: nat): (bytes: seq<Byte>)
    requires offset < |data|
    ensures 1 <= |bytes| <= BytesPerLine
    ensures forall k :: 0 <= k < |bytes| ==> offset + k < |data| && bytes[k] == data[offset + k]
  {
    data[offset..offset + BytesOnLine(|data|, offset)]
  }

  /** What follows the offset field: the hex column, blank groups for the
      byte slots a short line does not fill, a space and the ASCII column. */
  function HexBody(bytes: seq<Byte>): string
    requires |bytes| <= BytesPerLine
  {
    HexColumn(bytes) + (Spaces(BytesPerLine - |bytes|) + (" " + AsciiColumn(bytes)))
  }

  /** The text of the dump line at `offset`. */
  function HexLine(data: seq<Byte>, offset: nat): string
    requires offset < |data|
  {
    HexOffset(offset) + HexBody(LineBytes(data, offset))
  }

  /** Every line has the offset, a 48-character hex column (padded on the
      last line, so the ASCII column always starts at the same place), a
      space and one ASCII character per byte shown; with its NUL it fits the
      80-byte buffer. */
  lemma HexLineLayout(data: seq<Byte>, offset: nat)
    requires offset < |data| && SizeT(offset)
    ensures |HexLine(data, offset)| == |HexOffset(offset)| + HexColumnWidth + 1 + |LineBytes(data, offset)|
    ensures |HexLine(data, offset)| < LineBufferSize
    ensures NulFree(HexLine(data, offset))
  {
  }

  /** Slot `k` of the hex column shows the line's byte `k` as two digits and
      a space when the line has that byte, and is blank when it does not. */
  lemma HexBodyGroupAt(bytes: seq<Byte>, k: nat, j: nat)
    requires |bytes| <= BytesPerLine && k < BytesPerLine && 3 * k <= j < 3 * k + 3
    ensures j < |HexBody(bytes)|
    ensures HexBody(bytes)[j] == if k < |bytes| then (HexByte(bytes[k]) + " ")[j - 3 * k] else ' '
  {
    if k < |bytes| {
      HexColumnGroup(bytes, k);
      assert HexBody(bytes)[j] == HexColumn(bytes)[j];
    } else {
      assert HexBody(bytes)[j] == Spaces(BytesPerLine - |bytes|)[j - 3 * |bytes|];
    }
  }

  /** After the hex column come a space and then, at position `k` of the
      ASCII column, the line's byte `k`. */
  lemma HexBodyAsciiAt(bytes: seq<Byte>, k: nat)
    requires k < |bytes| <= BytesPerLine
    ensures HexColumnWidth + 1 + k < |HexBody(bytes)|
    ensures HexBody(bytes)[HexColumnWidth] == ' '
    ensures HexBody(bytes)[HexColumnWidth + 1 + k] == AsciiChar(bytes[k])
  {
    var tail := Spaces(BytesPerLine - |bytes|) + (" " + AsciiColumn(bytes));
    assert HexBody(bytes)[HexColumnWidth] == tail[HexColumnWidth - 3 * |bytes|];
    assert HexBody(bytes)[HexColumnWidth + 1 + k] == tail[HexColumnWidth + 1 + k - 3 * |bytes|];
  }

  /** The offsets the outer loop visits from `offset` on, 16 apart, while
      they are below `length`. */
  function LineOffsetsFrom(length: nat, offset: nat): (offs: seq<nat>)
    ensures forall k :: 0 <= k < |offs| ==> offs[k] < length
    decreases length - offset
  {
    if offset >= length then [] else [offset] + LineOffsetsFrom(length, offset + BytesPerLine)
  }

  /** From `offset` on there is one line per started group of 16 bytes, and
      line `k` starts `16 k` bytes further on. */
  lemma {:induction false} LineOffsetsFromShape(length: nat, offset: nat)
    requires offset <= length
    ensures |LineOffsetsFrom(length, offset)| == (length - offset + 15) / 16
    ensures forall k :: 0 <= k < |LineOffsetsFrom(length, offset)| ==>
      LineOffsetsFrom(length, offset)[k] == offset + 16 * k
    decreases length - offset
  {
    if offset < length {
      var rest := LineOffsetsFrom(length, offset + BytesPerLine);
      if offset + BytesPerLine <= length {
        LineOffsetsFromShape(length, offset + BytesPerLine);
      }
      forall k | 0 <= k < |LineOffsetsFrom(length, offset)|
        ensures LineOffsetsFrom(length, offset)[k] == offset + 16 * k
      {
        if k > 0 {
          assert LineOffsetsFrom(length, offset)[k] == rest[k - 1];
        }
      }
    }
  }

  /** The offsets of the lines of a `length`-byte dump. */
  function LineOffsets(length: nat): seq<nat>
  {
    LineOffsetsFrom(length, 0)
  }

  /** Every dump line of a buffer, in order. */
  function HexLines(data: seq<Byte>): (lines: seq<string>)
    ensures |lines| == |LineOffsets(|data|)|
  {
    var offs := LineOffsets(|data|);
    seq(|offs|, k requires 0 <= k < |offs| => HexLine(data, offs[k]))
  }

  /** A buffer of `length` bytes dumps as ceil(length / 16) lines, line `k`
      showing the bytes from offset `16 k` on. */
  lemma HexLinesShape(data: seq<Byte>)
    ensures |HexLines(data)| == (|data| + 15) / 16
    ensures forall k :: 0 <= k < |HexLines(data)| ==>
      16 * k < |data| && HexLines(data)[k] == HexLine(data, 16 * k)
  {
    LineOffsetsFromShape(|data|, 0);
  }

  /** The number of dump lines alone: ceil(length / 16). */
  lemma HexLinesCount(data: seq<Byte>)
    ensures |HexLines(data)| == (|data| + 15) / 16
  {
    LineOffsetsFromShape(|data|, 0);
  }

  /** The outer loop runs again after `k` lines exactly when fewer than
      ceil(length / 16) lines have been logged. */
  lemma RowsLeft(data: seq<Byte>, k: nat)
    ensures 16 * k < |data| <==> k < |HexLines(data)|
  {
    HexLinesCount(data);
  }

  // ---------------------------------------------------------------------------
  // Formatting one line in the 80-byte buffer
  // ---------------------------------------------------------------------------

  /** `sprintf(ptr, ...)`: stores the whole text and a NUL, with no bound of
      its own; the caller must know that it fits. */
  method Sprintf(buf: array<char>, at: nat, piece: string) returns (written: nat)
    requires at + |piece| < buf.Length
    modifies buf
    ensures written == |piece|
    ensures forall i :: at <= i < at + |piece| ==> buf[i] == piece[i - at]
    ensures buf[at + |piece|] == Nul
    ensures forall i :: 0 <= i < buf.Length && !(at <= i <= at + |piece|) ==> buf[i] == old(buf[i])
  {
    ghost var before := buf[..];
    written := Put(buf, at, buf.Length - at, piece);
    assert Stored(buf.Length - at, piece) == |piece|;
    forall i | 0 <= i < buf.Length
      ensures buf[i] == Printed(before, at, buf.Length - at, piece)[i]
    {
      assert buf[i] == buf[..][i];
    }
  }

  /** The first inner loop of `logger_log_hex_dump`: "XX " for each byte of
      the line, written from `w` on. */
  method PutHexBytes(buf: array<char>, w: nat, data: seq<Byte>, offset: nat) returns (ptr: nat)
    requires offset < |data| && w + HexColumnWidth < buf.Length
    modifies buf
    ensures ptr == w + 3 * |LineBytes(data, offset)|
    ensures forall i :: 0 <= i < w ==> buf[i] == old(buf[i])
    ensures forall i :: w <= i < ptr ==> buf[i] == HexBody(LineBytes(data, offset))[i - w]
  {
    ghost var bytes := LineBytes(data, offset);
    ptr := w;
    var j := 0;
    while j < BytesPerLine && offset + j < |data|
      invariant j <= |bytes| && ptr == w + 3 * j
      invariant forall i :: 0 <= i < w ==> buf[i] == old(buf[i])
      invariant forall i :: w <= i < ptr ==> buf[i] == HexBody(bytes)[i - w]
    {
      var k := Sprintf(buf, ptr, HexByte(data[offset + j]) + " ");
      forall i | ptr <= i < ptr + 3
        ensures buf[i] == HexBody(bytes)[i - w]
      {
        HexBodyGroupAt(bytes, j, i - w);
      }
      ptr := ptr + k;
      j := j + 1;
    }
  }

  /** The second inner loop: three spaces for each byte slot a short line
      leaves empty, so that the hex column is always 48 wide. */
  method PutPadding(buf: array<char>, w: nat, ptr: nat, data: seq<Byte>, offset: nat) returns (end: nat)
    requires offset < |data| && ptr == w + 3 * |LineBytes(data, offset)|
    requires w + HexColumnWidth < buf.Length
    modifies buf
    ensures end == w + HexColumnWidth
    ensures forall i :: 0 <= i < ptr ==> buf[i] == old(buf[i])
    ensures forall i :: ptr <= i < end ==> buf[i] == HexBody(LineBytes(data, offset))[i - w]
  {
    ghost var bytes := LineBytes(data, offset);
    end := ptr;
    var j := |data| - offset;
    while j < BytesPerLine
      invariant |bytes| <= j || |bytes| == BytesPerLine
      invariant end == w + 3 * (if j < BytesPerLine then j else BytesPerLine)
      invariant forall i :: 0 <= i < ptr ==> buf[i] == old(buf[i])
      invariant forall i :: ptr <= i < end ==> buf[i] == HexBody(bytes)[i - w]
    {
      var k := Sprintf(buf, end, "   ");
      forall i | end <= i < end + 3
        ensures buf[i] == HexBody(bytes)[i - w]
      {
        HexBodyGroupAt(bytes, j, i - w);
      }
      end := end + k;
      j := j + 1;
    }
  }

  /** The separating space and the ASCII loop of `logger_log_hex_dump`,
      written from `ptr` = `w` + 48 on. */
  method PutAsciiColumn(buf: array<char>, w: nat, ptr: nat, data: seq<Byte>, offset: nat) returns (end: nat)
    requires offset < |data| && ptr == w + HexColumnWidth
    requires ptr + 1 + |LineBytes(data, offset)| < buf.Length
    modifies buf
    ensures end == w + |HexBody(LineBytes(data, offset))|
    ensures forall i :: 0 <= i < ptr ==> buf[i] == old(buf[i])
    ensures forall i :: ptr <= i < end ==> buf[i] == HexBody(LineBytes(data, offset))[i - w]
  {
    ghost var bytes := LineBytes(data, offset);
    var k := Sprintf(buf, ptr, " ");
    HexBodyAsciiAt(bytes, 0);
    end := ptr + k;
    var j := 0;
    while j < BytesPerLine && offset + j < |data|
      invariant j <= |bytes| && end == ptr + 1 + j
      invariant forall i :: 0 <= i < ptr ==> buf[i] == old(buf[i])
      invariant forall i :: ptr <= i < end ==> buf[i] == HexBody(bytes)[i - w]
    {
      HexBodyAsciiAt(bytes, j);
      buf[end] := AsciiChar(data[offset + j]);
      end := end + 1;
      j := j + 1;
    }
  }

  /** Everything the loop writes after the offset field: the hex column,
      its padding and the ASCII column, leaving the offset field alone. */
  method PutLineBody(buf: array<char>, w: nat, data: seq<Byte>, offset: nat) returns (end: nat)
    requires offset < |data| && w + HexColumnWidth + 1 + |LineBytes(data, offset)| < buf.Length
    modifies buf
    ensures end == w + |HexBody(LineBytes(data, offset))|
    ensures forall i :: 0 <= i < w ==> buf[i] == old(buf[i])
    ensures forall i :: w <= i < end ==> buf[i] == HexBody(LineBytes(data, offset))[i - w]
  {
    var ptr := PutHexBytes(buf, w, data, offset);
    ptr := PutPadding(buf, w, ptr, data, offset);
    end := PutAsciiColumn(buf, w, ptr, data, offset);
  }

  /** The body of the outer loop of `logger_log_hex_dump`: builds the line at
      `offset` in a fresh 80-byte buffer and returns the C string in it. */
  method FormatHexLine(data: seq<Byte>, offset: nat) returns (line: string)
    requires offset < |data| && SizeT(offset)
    ensures line == HexLine(data, offset)
  {
    ghost var head := HexOffset(offset);
    ghost var body := HexBody(LineBytes(data, offset));
    HexLineLayout(data, offset);
    var buf := new char[LineBufferSize];
    var w := Sprintf(buf, 0, HexOffset(offset));
    var ptr := PutLineBody(buf, w, data, offset);
    buf[ptr] := Nul;
    forall i | 0 <= i < ptr
      ensures buf[..ptr][i] == (head + body)[i]
    {
    }
    assert buf[..ptr] == HexLine(data, offset);
    TerminatedCString(buf[..], ptr);
    line := CString(buf[..]);
  }
}
