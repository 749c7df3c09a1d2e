/** The three sanitisers of the data-validation engine: `sanitize_sensor_reading`
    (a non-finite reading becomes the midpoint, a finite one is clamped),
    `sanitize_coordinates` (latitude clamped, longitude wrapped by whole turns)
    and `sanitize_string` (forced terminator, non-printable characters
    replaced). Values behind the pointers are passed in and the written values
    returned; a null pointer is `None`. */
module Sanitizers {
  import opened CSupport

  // ---------------------------------------------------------------------------
  // sanitize_sensor_reading
  // ---------------------------------------------------------------------------

  /** The reading `sanitize_sensor_reading` leaves behind. */
  function SanitizedReading(x: Float, lo: real, hi: real): (r: Float)
    ensures r.Num?
  {
    match x
    case Num(v) =>
      var low := if v < lo then lo else v;
      Num(if low > hi then hi else low)
    case _ => Num((lo + hi) / 2.0)
  }

  /** For a well-formed range the result lies in it, a reading already in
      range is kept, a non-finite one becomes the midpoint, and sanitising
      twice is sanitising once. */
  lemma ReadingSanitized(x: Float, lo: real, hi: real)
    requires lo <= hi
    ensures var r := SanitizedReading(x, lo, hi);
      && lo <= r.val <= hi
      && (x.Num? && lo <= x.val <= hi ==> r == x)
      && (!x.Num? ==> r.val == (lo + hi) / 2.0)
      && SanitizedReading(r, lo, hi) == r
  {
  }

  /** `sanitize_sensor_reading`: false for a null pointer (nothing written) and
      for a non-finite value (the midpoint written); true for a finite value,
      whether or not clamping changed it. */
  method SanitizeSensorReading(value: Option<Float>, minVal: real, maxVal: real)
    returns (ok: bool, written: Option<Float>)
    ensures ok == (value.Some? && value.value.Num?)
    ensures value.None? ==> written.None?
    ensures value.Some? ==> written == Some(SanitizedReading(value.value, minVal, maxVal))
  {
    if value.None? {
      return false, None;
    }
    var v := value.value;
    if !v.Num? {
      return false, Some(Num((minVal + maxVal) / 2.0));
    }
    if v.val < minVal {
      v := Num(minVal);
    }
    if v.val > maxVal {
      v := Num(maxVal);
    }
    return true, Some(v);
  }

  // ---------------------------------------------------------------------------
  // sanitize_coordinates
  // ---------------------------------------------------------------------------

  /** The latitude after the two clamping tests: below -90 becomes -90, above
      90 becomes 90 (infinities included); NaN passes both tests unchanged. */
  function ClampedLatitude(x: Float): (r: Float)
    ensures !x.NaN? ==> r.Num? && -90.0 <= r.val <= 90.0
    ensures Within(x, -90.0, 90.0) ==> r == x
  {
    if Lt(x, -90.0) then Num(-90.0)
    else if Gt(x, 90.0) then Num(90.0)
    else x
  }

  /** The number of whole turns the two longitude loops add to a finite `v`
      (negative when they subtract). */
  function LongitudeTurns(v: real): (k: int)
    ensures -180.0 <= v + 360.0 * k as real <= 180.0
    decreases if v < -180.0 then (-v).Floor else if v > 180.0 then v.Floor else 0
  {
    if v < -180.0 then LongitudeTurns(v + 360.0) + 1
    else if v > 180.0 then LongitudeTurns(v - 360.0) - 1
    else 0
  }

  /** A finite longitude moved into [-180, 180] by whole turns. */
  function WrappedLongitude(v: real): real
  {
    v + 360.0 * LongitudeTurns(v) as real
  }

  /** The longitude `sanitize_coordinates` leaves behind: finite values
      wrapped, NaN untouched (both loop tests are false), and an infinity
      replaced by 0.0, the midpoint of the range (see `LongitudeLoopsAsWritten`
      for what the loops do with an infinity). */
  function SanitizedLongitude(x: Float): Float
  {
    match x
    case Num(v) => Num(WrappedLongitude(v))
    case NaN => NaN
    case Inf(_) => Num(0.0)
  }

  /** Every longitude but NaN ends in [-180, 180]; one already there is kept;
      a finite one moves by a whole number of turns. */
  lemma LongitudeSanitized(x: Float)
    ensures !x.NaN? ==> var r := SanitizedLongitude(x); r.Num? && -180.0 <= r.val <= 180.0
    ensures x.Num? && -180.0 <= x.val <= 180.0 ==> SanitizedLongitude(x) == x
    ensures x.Num? ==> SanitizedLongitude(x).val == x.val + 360.0 * LongitudeTurns(x.val) as real
  {
  }

  /** Sanitising coordinates twice is sanitising them once. */
  lemma CoordinatesIdempotent(lat: Float, lon: Float)
    ensures ClampedLatitude(ClampedLatitude(lat)) == ClampedLatitude(lat)
    ensures SanitizedLongitude(SanitizedLongitude(lon)) == SanitizedLongitude(lon)
  {
    LongitudeSanitized(lon);
    LongitudeSanitized(SanitizedLongitude(lon));
  }

  /** `f + c` for a float: infinities and NaN absorb a finite addend. */
  function AddF(x: Float, c: real): Float
  {
    match x
    case Num(v) => Num(v + c)
    case _ => x
  }

  /** The two longitude loops exactly as written, run for at most `fuel`
      iterations in all; `None` when they have not finished by then. */
  function LongitudeLoopsAsWritten(x: Float, fuel: nat): Option<Float>
    decreases fuel
  {
    if Lt(x, -180.0) then
      if fuel == 0 then None else LongitudeLoopsAsWritten(AddF(x, 360.0), fuel - 1)
    else SecondLoopAsWritten(x, fuel)
  }

  /** `while (*lon > 180.0) *lon -= 360.0;` with at most `fuel` iterations. */
  function SecondLoopAsWritten(x: Float, fuel: nat): Option<Float>
    decreases fuel
  {
    if Gt(x, 180.0) then
      if fuel == 0 then None else SecondLoopAsWritten(AddF(x, -360.0), fuel - 1)
    else Some(x)
  }

  /** On an infinite longitude the loops as written never finish: adding or
      subtracting 360 leaves an infinity where it is. */
  lemma {:induction false} InfiniteLongitudeNeverSettles(negative: bool, fuel: nat)
    ensures LongitudeLoopsAsWritten(Inf(negative), fuel) == None
    decreases fuel
  {
    if negative {
      if fuel > 0 {
        InfiniteLongitudeNeverSettles(negative, fuel - 1);
      }
    } else {
      InfiniteSecondLoop(fuel);
    }
  }

  lemma {:induction false} InfiniteSecondLoop(fuel: nat)
    ensures SecondLoopAsWritten(Inf(false), fuel) == None
    decreases fuel
  {
    if fuel > 0 {
      InfiniteSecondLoop(fuel - 1);
    }
  }

  /** On a finite longitude the loops as written finish after |turns|
      iterations with the wrapped value, as `SanitizedLongitude` has it; on
      NaN they finish at once with NaN. */
  lemma {:induction false} FiniteLongitudeSettles(v: real, fuel: nat)
    requires fuel >= if LongitudeTurns(v) < 0 then -LongitudeTurns(v) else LongitudeTurns(v)
    ensures LongitudeLoopsAsWritten(Num(v), fuel) == Some(SanitizedLongitude(Num(v)))
    ensures LongitudeLoopsAsWritten(NaN, fuel) == Some(SanitizedLongitude(NaN))
    decreases fuel
  {
    if v < -180.0 {
      FiniteLongitudeSettles(v + 360.0, fuel - 1);
    } else {
      FiniteSecondLoop(v, fuel);
    }
  }

  lemma {:induction false} FiniteSecondLoop(v: real, fuel: nat)
    requires v >= -180.0
    requires fuel >= if LongitudeTurns(v) < 0 then -LongitudeTurns(v) else LongitudeTurns(v)
    ensures SecondLoopAsWritten(Num(v), fuel) == Some(Num(WrappedLongitude(v)))
    decreases fuel
  {
    if v > 180.0 {
      FiniteSecondLoop(v - 360.0, fuel - 1);
    }
  }

  /** `sanitize_coordinates`, with an infinite longitude replaced by 0.0
      before the loops so that they finish: false and nothing written when
      either pointer is null, otherwise true with both values sanitised. */
  method SanitizeCoordinates(lat: Option<Float>, lon: Option<Float>)
    returns (ok: bool, latOut: Option<Float>, lonOut: Option<Float>)
    ensures ok == (lat.Some? && lon.Some?)
    ensures !ok ==> latOut == lat && lonOut == lon
    ensures ok ==> latOut == Some(ClampedLatitude(lat.value)) && lonOut == Some(SanitizedLongitude(lon.value))
  {
    if lat.None? || lon.None? {
      return false, lat, lon;
    }
    var la := lat.value;
    if Lt(la, -90.0) {
      la := Num(-90.0);
    }
    if Gt(la, 90.0) {
      la := Num(90.0);
    }
    var lo := lon.value;
    if lo.Inf? {
      lo := Num(0.0);
    }
    while Lt(lo, -180.0)
      invariant !lo.Inf? && SanitizedLongitude(lo) == SanitizedLongitude(lon.value)
      decreases if lo.Num? && lo.val < -180.0 then (-lo.val).Floor else 0
    {
      lo := AddF(lo, 360.0);
    }
    while Gt(lo, 180.0)
      invariant !lo.Inf? && !Lt(lo, -180.0) && SanitizedLongitude(lo) == SanitizedLongitude(lon.value)
      decreases if lo.Num? && lo.val > 180.0 then lo.val.Floor else 0
    {
      lo := AddF(lo, -360.0);
    }
    return true, Some(la), Some(lo);
  }

  // ---------------------------------------------------------------------------
  // sanitize_string
  // ---------------------------------------------------------------------------

  /** Characters 32..126 are kept by `sanitize_string`. */
  predicate Printable(c: char)
  {
    ' ' <= c <= '~'
  }

  /** The buffer after `sanitize_string(str, maxLen)`: a NUL forced at
      `maxLen - 1`, then every non-printable character before the first NUL
      replaced by '?'. */
  function SanitizedString(s: seq<char>, maxLen: nat): (r: seq<char>)
    requires 1 <= maxLen <= |s|
    ensures |r| == |s|
  {
    var t := s[maxLen - 1 := Nul];
    var n := NulIndex(t);
    seq(|t|, i requires 0 <= i < |t| => if i < n && !Printable(t[i]) then '?' else t[i])
  }

  /** The result is terminated at or before `maxLen - 1`; its C string is
      printable; printable characters and everything from the terminator on
      (but the forced NUL) are left as they were. */
  lemma StringSanitized(s: seq<char>, maxLen: nat)
    requires 1 <= maxLen <= |s|
    ensures var r := SanitizedString(s, maxLen); var n := NulIndex(r);
      && r[maxLen - 1] == Nul && n < maxLen
      && n == NulIndex(s[maxLen - 1 := Nul])
      && (forall i :: 0 <= i < n ==> Printable(r[i]))
      && (forall i :: 0 <= i < |s| && i != maxLen - 1 && (Printable(s[i]) || n <= i) ==> r[i] == s[i])
  {
    var t := s[maxLen - 1 := Nul];
    var r := SanitizedString(s, maxLen);
    var n := NulIndex(t);
    assert NulFree(r[..n]) by {
      forall i | 0 <= i < n ensures r[..n][i] != Nul {
        assert t[..n][i] == t[i];
      }
    }
    NulIndexAt(r, n);
  }

  /** Sanitising a string twice is sanitising it once. */
  lemma StringIdempotent(s: seq<char>, maxLen: nat)
    requires 1 <= maxLen <= |s|
    ensures SanitizedString(SanitizedString(s, maxLen), maxLen) == SanitizedString(s, maxLen)
  {
    var r := SanitizedString(s, maxLen);
    StringSanitized(s, maxLen);
    StringSanitized(r, maxLen);
    assert r[maxLen - 1 := Nul] == r;
  }

  /** `sanitize_string`: false for a null buffer; otherwise the buffer is
      rewritten as `SanitizedString` says and the result is true. The caller
      must pass `1 <= max_len <= ` the buffer's size (`max_len = 0` writes
      before the buffer). */
  method SanitizeString(str: array?<char>, maxLen: nat) returns (ok: bool)
    requires str != null ==> 1 <= maxLen <= str.Length
    modifies str
    ensures ok == (str != null)
    ensures str != null ==> str[..] == SanitizedString(old(str[..]), maxLen)
  {
    if str == null {
      return false;
    }
    str[maxLen - 1] := Nul;
    ghost var t := str[..];
    ghost var n := NulIndex(t);
    var i := 0;
    while i < maxLen && str[i] != Nul
      invariant 0 <= i <= n < maxLen
      invariant forall j :: 0 <= j < str.Length ==> str[j] == if j < i && !Printable(t[j]) then '?' else t[j]
    {
      if str[i] < ' ' || str[i] > '~' {
        str[i] := '?';
      }
      i := i + 1;
    }
    NulIndexAt(t, i);
    assert str[..] == SanitizedString(old(str[..]), maxLen);
    return true;
  }
}
