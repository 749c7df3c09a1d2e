/** Values of the C runtime that the firmware relies on: nullable pointers,
    IEEE-754 floats seen through their ordered comparisons, NUL-terminated
    strings and the text produced by the `%u`, `%0Nu` and `%0NX` conversions. */
module CSupport {

  /** A pointer argument that may be null. */
  datatype Option<T> = None | Some(value: T)

  const Nul: char := '\0'

  // ---------------------------------------------------------------------------
  // Fixed-width unsigned integers
  // ---------------------------------------------------------------------------

  /** A `uint8_t`. */
  type Byte = b: nat | b < 0x100

  /** A `uint32_t` (`unsigned long` on the target): the counters, the
      millisecond clock and the configured buffer size. */
  type U32 = x: nat | x < 0x1_0000_0000

  /** `a + 1` in `uint32_t` arithmetic: wraps from the largest value to 0. */
  function IncU32(a: U32): (r: U32)
    ensures a < 0xFFFF_FFFF ==> r == a + 1
    ensures a == 0xFFFF_FFFF ==> r == 0
  {
    (a + 1) % 0x1_0000_0000
  }

  /** Counting one more after `n` increments from `a`. */
  lemma IncAfterAdd(a: nat, n: nat)
    ensures IncU32((a + n) % 0x1_0000_0000) == (a + n + 1) % 0x1_0000_0000
  {
  }

  /** Reducing modulo 2^32 before an addition does not change the sum
      modulo 2^32. */
  lemma ModAdd(x: nat, n: nat)
    ensures (x % 0x1_0000_0000 + n) % 0x1_0000_0000 == (x + n) % 0x1_0000_0000
  {
  }

  /** When a `uint32_t` total tracks the sum of two counters, bumping the
      total and one of the counters keeps it tracking the sum. */
  lemma CountOneMore(t: nat, a: nat, b: nat)
    requires t == (a + b) % 0x1_0000_0000
    ensures (t + 1) % 0x1_0000_0000 == ((a + 1) % 0x1_0000_0000 + b) % 0x1_0000_0000
    ensures (t + 1) % 0x1_0000_0000 == (b + (a + 1) % 0x1_0000_0000) % 0x1_0000_0000
  {
    ModAdd(a + b, 1);
    ModAdd(a + 1, b);
  }

  /** A `uint32_t` counter `t` that is bumped once when `first` holds (giving
      `h`) and then advanced by `n` (giving `x`) has moved by the sum of both. */
  lemma CountAfterHeader(t: nat, h: nat, x: nat, n: nat, first: bool)
    requires h == if first then (t + 1) % 0x1_0000_0000 else t
    requires x == (h + n) % 0x1_0000_0000
    ensures x == (t + (if first then 1 else 0) + n) % 0x1_0000_0000
  {
    if first {
      ModAdd(t + 1, n);
    }
  }

  /** `a - b` in `uint32_t` arithmetic: the difference modulo 2^32, so a
      later reading minus an earlier one is right across one wrap of the
      clock. */
  function SubU32(a: U32, b: U32): (r: U32)
    ensures b <= a ==> r == a - b
    ensures a < b ==> r == a + 0x1_0000_0000 - b
  {
    (a - b) % 0x1_0000_0000
  }

  // ---------------------------------------------------------------------------
  // Floating point
  // ---------------------------------------------------------------------------

  /** A `float` or `double`: a finite value (rounding is not modelled), NaN or
      an infinity. */
  datatype Float = Num(val: real) | NaN | Inf(negative: bool)

  predicate IsFinite(x: Float) { x.Num? }

  /** `x < b` in C: false whenever `x` is NaN. */
  predicate Lt(x: Float, b: real)
  {
    match x
    case Num(v) => v < b
    case NaN => false
    case Inf(neg) => neg
  }

  /** `x > b` in C: false whenever `x` is NaN. */
  predicate Gt(x: Float, b: real)
  {
    match x
    case Num(v) => v > b
    case NaN => false
    case Inf(neg) => !neg
  }

  /** `x >= b` in C: false whenever `x` is NaN. */
  predicate Ge(x: Float, b: real)
  {
    match x
    case Num(v) => v >= b
    case NaN => false
    case Inf(neg) => !neg
  }

  /** `x <= b` in C: false whenever `x` is NaN. */
  predicate Le(x: Float, b: real)
  {
    match x
    case Num(v) => v <= b
    case NaN => false
    case Inf(neg) => neg
  }

  /** `lo <= x && x <= hi`: the positive form of a range test, which unlike
      the negated `Outside` form rejects a NaN. */
  predicate Within(x: Float, lo: real, hi: real)
  {
    Ge(x, lo) && Le(x, hi)
  }

  /** The two forms of a range test agree except on NaN, which `Within`
      rejects and `Outside` lets through. */
  lemma WithinVersusOutside(x: Float, lo: real, hi: real)
    ensures !x.NaN? ==> (Within(x, lo, hi) <==> !Outside(x, lo, hi))
    ensures x.NaN? ==> !Within(x, lo, hi) && !Outside(x, lo, hi)
  {
  }

  /** `x < lo || x > hi`, the shape of every range test in the firmware. */
  predicate Outside(x: Float, lo: real, hi: real)
  {
    Lt(x, lo) || Gt(x, hi)
  }

  /** For a finite value the range test rejects exactly what lies outside the
      closed interval; a NaN is never rejected by it. */
  lemma OutsideMeaning(x: Float, lo: real, hi: real)
    ensures x.Num? ==> (Outside(x, lo, hi) <==> !(lo <= x.val <= hi))
    ensures x.NaN? ==> !Outside(x, lo, hi)
    ensures x.Inf? ==> Outside(x, lo, hi)
  {
  }

  // ---------------------------------------------------------------------------
  // NUL-terminated strings
  // ---------------------------------------------------------------------------

  predicate NulFree(s: seq<char>)
  {
    forall i :: 0 <= i < |s| ==> s[i] != Nul
  }

  /** The index of the first NUL in `s`, or `|s|` when there is none. */
  function NulIndex(s: seq<char>): (k: nat)
    ensures k <= |s|
    ensures NulFree(s[..k])
    ensures k < |s| ==> s[k] == Nul
  {
    if |s| == 0 then 0
    else if s[0] == Nul then 0
    else 1 + NulIndex(s[1..])
  }

  /** A NUL at position `e` (or the end of `s`) with no NUL before it is the
      first NUL. */
  lemma NulIndexAt(s: seq<char>, e: nat)
    requires e <= |s| && NulFree(s[..e]) && (e < |s| ==> s[e] == Nul)
    ensures NulIndex(s) == e
    decreases e
  {
    if e > 0 {
      assert s[..e][0] == s[0];
      assert s[1..][..e - 1] == s[..e][1..];
      NulIndexAt(s[1..], e - 1);
    }
  }

  /** What a C routine such as `Serial.println` reads from a char buffer: the
      characters before the first NUL. */
  function CString(s: seq<char>): (r: seq<char>)
    ensures NulFree(r)
    ensures r <= s
  {
    s[..NulIndex(s)]
  }

  /** A NUL at position `e` with no NUL before it ends the C string there. */
  lemma CStringAt(s: seq<char>, e: nat)
    requires e < |s| && s[e] == Nul && NulFree(s[..e])
    ensures CString(s) == s[..e]
  {
  }

  // ---------------------------------------------------------------------------
  // Numeric conversions of printf
  // ---------------------------------------------------------------------------

  /** The digit for `d`, from "0123456789ABCDEF". */
  function DigitChar(d: nat): (c: char)
    requires d < 16
    ensures c != Nul
  {
    if d < 10 then ('0' as int + d) as char else ('A' as int + d - 10) as char
  }

  /** `%u`: the decimal digits of `n`, most significant first, "0" for zero. */
  function Decimal(n: nat): (r: string)
    ensures 1 <= |r|
    ensures NulFree(r)
  {
    if n < 10 then [DigitChar(n)] else Decimal(n / 10) + [DigitChar(n % 10)]
  }

  /** `%X`: the upper-case hexadecimal digits of `n`, "0" for zero. */
  function Hex(n: nat): (r: string)
    ensures 1 <= |r|
    ensures NulFree(r)
  {
    if n < 16 then [DigitChar(n)] else Hex(n / 16) + [DigitChar(n % 16)]
  }

  function Power16(k: nat): nat
  {
    if k == 0 then 1 else 16 * Power16(k - 1)
  }

  /** A number below `16^k` has at most `k` hexadecimal digits. */
  lemma {:induction false} HexLengthBelow(n: nat, k: nat)
    requires 1 <= k && n < Power16(k)
    ensures |Hex(n)| <= k
  {
    if n >= 16 {
      HexLengthBelow(n / 16, k - 1);
    }
  }

  /** An unsigned 32-bit value prints in at most eight hexadecimal digits. */
  lemma HexLength32(n: nat)
    requires n < 0x1_0000_0000
    ensures |Hex(n)| <= 8
  {
    assert Power16(8) == 0x1_0000_0000;
    HexLengthBelow(n, 8);
  }

  function Power10(k: nat): nat
  {
    if k == 0 then 1 else 10 * Power10(k - 1)
  }

  /** A number below `10^k` has at most `k` decimal digits. */
  lemma {:induction false} DecimalLengthBelow(n: nat, k: nat)
    requires 1 <= k && n < Power10(k)
    ensures |Decimal(n)| <= k
  {
    if n >= 10 {
      DecimalLengthBelow(n / 10, k - 1);
    }
  }

  /** An unsigned 32-bit value prints in at most ten decimal digits. */
  lemma DecimalLength32(n: nat)
    requires n < 0x1_0000_0000
    ensures |Decimal(n)| <= 10
  {
    assert Power10(10) == 10_000_000_000;
    DecimalLengthBelow(n, 10);
  }

  /** `%0wu` / `%0wX`: the digits, left-padded with zeros to at least `w`. */
  function ZeroPadded(d: string, w: nat): (r: string)
    requires NulFree(d)
    ensures |r| == if |d| < w then w else |d|
    ensures NulFree(r)
  {
    if |d| < w then Zeros(w - |d|) + d else d
  }

  /** `k` padding zeros. */
  function Zeros(k: nat): (r: string)
    ensures |r| == k
    ensures forall i :: 0 <= i < k ==> r[i] == '0'
  {
    if k == 0 then [] else Zeros(k - 1) + "0"
  }

  // ---------------------------------------------------------------------------
  // Reading digits back
  // ---------------------------------------------------------------------------

  /** The value of a decimal or upper-case hexadecimal digit. */
  function DigitValue(c: char): nat
  {
    if '0' <= c <= '9' then c as nat - '0' as nat
    else if 'A' <= c <= 'F' then c as nat - 'A' as nat + 10
    else 0
  }

  lemma DigitRoundTrip(d: nat)
    requires d < 16
    ensures DigitValue(DigitChar(d)) == d
  {
  }

  /** The number a digit string denotes in the given base. */
  function DigitsValue(s: string, base: nat): nat
  {
    if |s| == 0 then 0 else base * DigitsValue(s[..|s| - 1], base) + DigitValue(s[|s| - 1])
  }

  /** `%X` read back in base 16 gives the number printed. */
  lemma {:induction false} HexRoundTrip(n: nat)
    ensures DigitsValue(Hex(n), 16) == n
  {
    if n < 16 {
      DigitRoundTrip(n);
      assert [DigitChar(n)][..0] == [];
    } else {
      HexRoundTrip(n / 16);
      DigitRoundTrip(n % 16);
      var s := Hex(n);
      assert s[..|s| - 1] == Hex(n / 16);
    }
  }

  /** `%u` read back in base 10 gives the number printed. */
  lemma {:induction false} DecimalRoundTrip(n: nat)
    ensures DigitsValue(Decimal(n), 10) == n
  {
    if n < 10 {
      DigitRoundTrip(n);
      assert [DigitChar(n)][..0] == [];
    } else {
      DecimalRoundTrip(n / 10);
      DigitRoundTrip(n % 10);
      var s := Decimal(n);
      assert s[..|s| - 1] == Decimal(n / 10);
    }
  }

  /** Leading zeros do not change the value of a digit string. */
  lemma {:induction false} LeadingZeros(z: string, d: string, base: nat)
    requires forall i :: 0 <= i < |z| ==> z[i] == '0'
    ensures DigitsValue(z + d, base) == DigitsValue(d, base)
    decreases |d|, |z|
  {
    if |d| == 0 {
      assert z + d == z;
      if |z| > 0 {
        LeadingZeros(z[..|z| - 1], [], base);
        assert z[..|z| - 1] + [] == z[..|z| - 1];
      }
    } else {
      var init := d[..|d| - 1];
      assert (z + d)[..|z + d| - 1] == z + init;
      LeadingZeros(z, init, base);
    }
  }

  /** Zero padding does not change the value printed. */
  lemma ZeroPaddedValue(d: string, w: nat, base: nat)
    requires NulFree(d)
    ensures DigitsValue(ZeroPadded(d, w), base) == DigitsValue(d, base)
  {
    if |d| < w {
      LeadingZeros(Zeros(w - |d|), d, base);
    }
  }
}
