/** Java's fixed-width integers as the endpoint uses them: `int` counters held
    in `AtomicInteger`, `long` clock readings, the narrowing `(int)` cast, the
    truncating `/` on `long`, and `Long.toString` for the response id. */
module JavaInts {
  import opened Wrappers

  const TwoTo31: int := 0x8000_0000
  const TwoTo32: int := 0x1_0000_0000

  /** A Java `int`. */
  newtype int32 = x: int | -0x8000_0000 <= x < 0x8000_0000

  /** A Java `long`. */
  newtype int64 = x: int | -0x8000_0000_0000_0000 <= x < 0x8000_0000_0000_0000

  /** The two's-complement value of the low 32 bits of `x`: what `AtomicInteger`
      arithmetic and the `(int)` cast of a `long` produce. */
  function Wrap32(x: int): (r: int32)
    ensures (r as int - x) % TwoTo32 == 0
    ensures -TwoTo31 <= x < TwoTo31 ==> r as int == x
  {
    ((x + TwoTo31) % TwoTo32 - TwoTo31) as int32
  }

  /** Incrementing a wrapped counter wraps the incremented count: a counter
      bumped `n` times from 0 holds `Wrap32(n)`. */
  lemma Wrap32Step(n: int)
    ensures Wrap32(Wrap32(n) as int + 1) == Wrap32(n + 1)
  {
  }

  /** Java's `a / b` on `long` for a positive divisor: the quotient truncated
      toward zero (Dafny's `/` floors for a negative dividend). */
  function TruncDiv(a: int, b: int): (q: int)
    requires b > 0
    ensures a >= 0 ==> q * b <= a < q * b + b
    ensures a < 0 ==> q * b - b < a <= q * b
  {
    if a >= 0 then a / b else -((-a) / b)
  }

  /** `(int) (millis / 1000)`: epoch seconds narrowed to a Java `int`. */
  function EpochSeconds(millis: int64): (s: int32)
    ensures 0 <= millis as int < TwoTo31 * 1000 ==> s as int == millis as int / 1000
  {
    Wrap32(TruncDiv(millis as int, 1000))
  }

  /** From 2038-01-19T03:14:08Z (2^31 seconds) until 2^32 seconds, the
      narrowed seconds are the true seconds less 2^32, hence negative. */
  lemma EpochSecondsOverflowIn2038(millis: int64)
    requires TwoTo31 * 1000 <= millis as int < TwoTo32 * 1000
    ensures EpochSeconds(millis) as int == millis as int / 1000 - TwoTo32
    ensures EpochSeconds(millis) < 0
  {
  }

  function DigitChar(d: nat): (c: char)
    requires d < 10
    ensures '0' <= c <= '9'
    ensures c as int == '0' as int + d
  {
    "0123456789"[d]
  }

  predicate IsDigit(c: char) {
    '0' <= c <= '9'
  }

  function DigitValue(c: char): (d: nat)
    requires IsDigit(c)
    ensures d < 10 && DigitChar(d) == c
  {
    (c as int - '0' as int)
  }

  /** The decimal digits of `n`, most significant first, with no leading zero. */
  function Digits(n: nat): (s: string)
    ensures |s| > 0 && forall i :: 0 <= i < |s| ==> IsDigit(s[i])
    ensures |s| > 1 ==> s[0] != '0'
    decreases n
  {
    if n < 10 then [DigitChar(n)] else Digits(n / 10) + [DigitChar(n % 10)]
  }

  /** `Long.toString(n)`: a minus sign for a negative value, then the digits
      of its magnitude. */
  function LongToString(n: int64): (s: string) {
    if n < 0 then "-" + Digits(-(n as int)) else Digits(n as int)
  }

  /** The value of a non-empty string of decimal digits. */
  function DigitsValue(s: string): (n: nat)
    requires |s| > 0 && forall i :: 0 <= i < |s| ==> IsDigit(s[i])
    decreases |s|
  {
    if |s| == 1 then DigitValue(s[0])
    else DigitsValue(s[..|s| - 1]) * 10 + DigitValue(s[|s| - 1])
  }

  /** Reads back what `LongToString` writes: an optional minus sign, then at
      least one digit. */
  function ParseLong(s: string): (r: Option<int>) {
    if |s| > 0 && s[0] == '-' then
      var t := s[1..];
      if |t| > 0 && forall i :: 0 <= i < |t| ==> IsDigit(t[i]) then Some(-(DigitsValue(t) as int)) else None
    else if |s| > 0 && forall i :: 0 <= i < |s| ==> IsDigit(s[i]) then Some(DigitsValue(s) as int)
    else None
  }

  lemma {:induction false} DigitsRoundTrip(n: nat)
    ensures DigitsValue(Digits(n)) == n
    decreases n
  {
    if n >= 10 {
      var s := Digits(n);
      assert s[..|s| - 1] == Digits(n / 10);
      DigitsRoundTrip(n / 10);
    }
  }

  lemma ParseNonNegative(d: string)
    requires |d| > 0 && forall i :: 0 <= i < |d| ==> IsDigit(d[i])
    ensures ParseLong(d) == Some(DigitsValue(d) as int)
  {
    assert d[0] != '-' by { assert IsDigit(d[0]); }
  }

  lemma ParseNegative(d: string)
    requires |d| > 0 && forall i :: 0 <= i < |d| ==> IsDigit(d[i])
    ensures ParseLong("-" + d) == Some(-(DigitsValue(d) as int))
  {
    var s := "-" + d;
    assert s[0] == '-' && s[1..] == d;
  }

  /** The decimal text of a `long` determines it. */
  lemma LongToStringRoundTrip(n: int64)
    ensures ParseLong(LongToString(n)) == Some(n as int)
  {
    if n < 0 {
      var m: nat := -(n as int);
      var d := Digits(m);
      assert LongToString(n) == "-" + d;
      ParseNegative(d);
      DigitsRoundTrip(m);
    } else {
      var m: nat := n as int;
      var d := Digits(m);
      assert LongToString(n) == d;
      ParseNonNegative(d);
      DigitsRoundTrip(m);
    }
  }
}
