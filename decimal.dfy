/**
 * Decimal text and 32-bit integers as the JDK handles them: the ASCII digits
 * matched by the regular-expression class `\d`, `Integer.toString` (used by
 * string concatenation), `Integer.parseInt` and `BigInteger.intValue`.
 */
module Decimal {
  import opened Wrappers

  const IntMin: int := -0x8000_0000
  const IntMax: int := 0x7fff_ffff
  const TwoTo32: int := 0x1_0000_0000

  /** The value range of a Java `int`. */
  predicate InInt32(x: int) {
    IntMin <= x <= IntMax
  }

  /** The regular-expression class `\d` (ASCII digits only). */
  predicate IsDigit(c: char) {
    '0' <= c <= '9'
  }

  predicate AllDigits(s: string) {
    forall i :: 0 <= i < |s| ==> IsDigit(s[i])
  }

  function DigitValue(c: char): (d: nat)
    requires IsDigit(c)
    ensures d < 10
  {
    (c as int) - ('0' as int)
  }

  function DigitChar(d: nat): (c: char)
    requires d < 10
    ensures IsDigit(c) && DigitValue(c) == d
  {
    (('0' as int) + d) as char
  }

  function Pow10(n: nat): (p: nat)
    ensures p >= 1
  {
    if n == 0 then 1 else 10 * Pow10(n - 1)
  }

  /** The value of a digit string, most significant digit first. */
  function DigitsValue(s: string): nat
    requires AllDigits(s)
  {
    if s == [] then 0 else DigitsValue(s[..|s| - 1]) * 10 + DigitValue(s[|s| - 1])
  }

  /** A digit string of length n denotes a number below 10^n. */
  lemma {:induction false} DigitsValueBound(s: string)
    requires AllDigits(s)
    ensures DigitsValue(s) < Pow10(|s|)
  {
    if s != [] {
      var init := s[..|s| - 1];
      assert AllDigits(init);
      DigitsValueBound(init);
      assert DigitsValue(init) + 1 <= Pow10(|init|);
      assert DigitsValue(s) == DigitsValue(init) * 10 + DigitValue(s[|s| - 1]);
    }
  }

  /** `Integer.toString` of a non-negative value: no sign, no leading zero. */
  function NatToDecimal(n: nat): (s: string)
    ensures 1 <= |s| && AllDigits(s)
    decreases n
  {
    if n < 10 then [DigitChar(n)] else NatToDecimal(n / 10) + [DigitChar(n % 10)]
  }

  /** `Integer.toString`: a minus sign before the magnitude of a negative value. */
  function IntToDecimal(n: int): string {
    if n < 0 then "-" + NatToDecimal(-n) else NatToDecimal(n)
  }

  /** Reading the rendered digits back gives the number, and the first digit is a zero only for 0. */
  lemma {:induction false} NatToDecimalRoundTrip(n: nat)
    ensures DigitsValue(NatToDecimal(n)) == n
    ensures NatToDecimal(n)[0] == '0' <==> n == 0
  {
    var s := NatToDecimal(n);
    if n >= 10 {
      NatToDecimalRoundTrip(n / 10);
      assert s[..|s| - 1] == NatToDecimal(n / 10);
      assert s[0] == NatToDecimal(n / 10)[0];
    }
  }

  /**
   * `Integer.parseInt(s)` in radix 10: an optional sign, then at least one
   * digit, with a value that fits in an `int`; anything else throws.
   */
  function ParseInt(s: string): (r: Option<int>)
    ensures r.Some? ==> InInt32(r.value) && 1 <= |s|
  {
    if 2 <= |s| && s[0] == '-' && AllDigits(s[1..]) then
      (var v: int := DigitsValue(s[1..]); if InInt32(-v) then Some(-v) else None)
    else if 2 <= |s| && s[0] == '+' && AllDigits(s[1..]) then
      (if InInt32(DigitsValue(s[1..])) then Some(DigitsValue(s[1..])) else None)
    else if 1 <= |s| && AllDigits(s) && InInt32(DigitsValue(s)) then
      Some(DigitsValue(s))
    else
      None
  }

  /** A run of one to nine plain digits always parses, to its decimal value. */
  lemma ParseIntOfDigits(s: string)
    requires 1 <= |s| <= 9 && AllDigits(s)
    ensures ParseInt(s) == Some(DigitsValue(s))
  {
    DigitsValueBound(s);
    Pow10Monotone(|s|, 9);
    assert IsDigit(s[0]);
  }

  lemma {:induction false} Pow10Monotone(m: nat, n: nat)
    requires m <= n
    ensures Pow10(m) <= Pow10(n)
  {
    if m < n {
      Pow10Monotone(m, n - 1);
    }
  }

  /** `Integer.parseInt(Integer.toString(n)) == n` for every `int`. */
  lemma ParseIntRoundTrip(n: int)
    requires InInt32(n)
    ensures ParseInt(IntToDecimal(n)) == Some(n)
  {
    var s := IntToDecimal(n);
    if n < 0 {
      var digits := NatToDecimal(-n);
      NatToDecimalRoundTrip(-n);
      assert s[0] == '-' && s[1..] == digits;
      var v: int := DigitsValue(digits);
      assert v == -n;
    } else {
      NatToDecimalRoundTrip(n);
      assert IsDigit(s[0]);
      assert s[0] != '-' && s[0] != '+';
    }
  }

  /**
   * `BigInteger.intValue`: the low 32 bits read as a two's-complement `int`.
   * The result is the one `int` congruent to x modulo 2^32.
   */
  function IntValue(x: int): (r: int)
    ensures InInt32(r)
    ensures (x - r) % TwoTo32 == 0
  {
    var low := x % TwoTo32;
    if low <= IntMax then low else low - TwoTo32
  }

  /** An amount that already fits in an `int` is not changed by `intValue`. */
  lemma IntValueKeepsInt32(x: int)
    requires InInt32(x)
    ensures IntValue(x) == x
  {
  }
}
