/**
 * The two pieces of Java integer semantics the renderer relies on:
 * `Integer.parseInt` (used to read a header's level) and the narrowing cast
 * `(int)` applied to a floating-point value (used to turn a scaled indent into pixels).
 */
module JavaInt {
  import opened Wrappers

  const MinInt: int := -0x8000_0000
  const MaxInt: int := 0x7fff_ffff

  predicate InRange(n: int) { MinInt <= n <= MaxInt }

  predicate IsDigit(c: char) { '0' <= c <= '9' }

  predicate AllDigits(s: string) { forall i :: 0 <= i < |s| ==> IsDigit(s[i]) }

  function DigitValue(c: char): (d: nat)
    requires IsDigit(c)
    ensures d < 10
  {
    c as int - '0' as int
  }

  function DigitChar(d: nat): (c: char)
    requires d < 10
    ensures IsDigit(c) && DigitValue(c) == d
  {
    ('0' as int + d) as char
  }

  /** The value of a string of decimal digits, most significant first. */
  function DigitsValue(s: string): nat
    requires AllDigits(s)
    decreases |s|
  {
    if |s| == 0 then 0 else 10 * DigitsValue(s[..|s| - 1]) + DigitValue(s[|s| - 1])
  }

  /**
   * `Integer.parseInt(s)` in radix 10: `None` for the argument stands for a null
   * string, `None` for the result for the NumberFormatException. An optional
   * leading '-' or '+' is followed by at least one digit, and the value must fit
   * in 32 bits.
   */
  function ParseInt(s: Option<string>): (r: Option<int>)
    ensures r.Some? ==> InRange(r.value)
    ensures r.Some? ==> s.Some? && |s.value| > 0
    ensures r.Some? && r.value < 0 ==> s.value[0] == '-'
  {
    match s
    case None => None
    case Some(str) =>
      if |str| == 0 then None
      else
        var signed := str[0] == '-' || str[0] == '+';
        var digits := if signed then str[1..] else str;
        if |digits| == 0 || !AllDigits(digits) then None
        else
          var magnitude: int := DigitsValue(digits);
          var v := if str[0] == '-' then -magnitude else magnitude;
          if InRange(v) then Some(v) else None
  }

  /** The decimal digits of a natural number, without leading zeros. */
  function DecimalString(n: nat): (s: string)
    ensures |s| > 0 && AllDigits(s)
    ensures DigitsValue(s) == n
  {
    if n < 10 then [DigitChar(n)]
    else
      var t := DecimalString(n / 10);
      var s := t + [DigitChar(n % 10)];
      assert s[..|s| - 1] == t;
      s
  }

  /** What `Integer.toString(n)` produces: an optional '-' and the digits of |n|. */
  function IntToString(n: int): string
  {
    if n < 0 then "-" + DecimalString(-n) else DecimalString(n)
  }

  /** `Integer.parseInt` reads back every 32-bit value that `Integer.toString` writes. */
  lemma {:induction false} ParseIntToString(n: int)
    requires InRange(n)
    ensures ParseInt(Some(IntToString(n))) == Some(n)
  {
    var s := IntToString(n);
    if n < 0 {
      assert s[1..] == DecimalString(-n);
    } else {
      var d := DecimalString(n);
      assert d[0] != '-' && d[0] != '+';
    }
  }

  /** A string with a character that is not a digit after the optional sign is rejected. */
  lemma {:induction false} ParseIntRejectsNonDigit(s: string, i: nat)
    requires 0 < i < |s| && !IsDigit(s[i])
    ensures ParseInt(Some(s)) == None
  {
    if s[0] == '-' || s[0] == '+' {
      assert s[1..][i - 1] == s[i];
    }
  }

  /**
   * The Java narrowing cast `(int) x` of a floating-point value, on the reals:
   * rounds toward zero and saturates at the bounds of `int`.
   */
  function FloatToInt(x: real): (r: int)
    ensures InRange(r)
    ensures (MaxInt as real) <= x ==> r == MaxInt
    ensures x <= (MinInt as real) ==> r == MinInt
    ensures 0.0 <= x < (MaxInt as real) ==> 0 <= r && (r as real) <= x < (r as real) + 1.0
    ensures (MinInt as real) < x < 0.0 ==> r <= 0 && (r as real) - 1.0 < x <= (r as real)
  {
    if (MaxInt as real) <= x then MaxInt
    else if x <= (MinInt as real) then MinInt
    else if 0.0 <= x then x.Floor
    else -((-x).Floor)
  }
}
