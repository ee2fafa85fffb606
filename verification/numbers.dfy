/** Number handling the minimap relies on: `Math.round` on exact reals and the
    decimal text JavaScript produces when an integral number is concatenated
    into a string. */
module Numbers {

  import opened Wrappers

  /** `n` is the integer nearest to `x`, a tie going to the larger integer:
      the promise `Math.round` makes. */
  predicate IsRounding(n: int, x: real) {
    n as real - 0.5 <= x < n as real + 0.5
  }

  /** `Math.round(x)`: floor of `x + 1/2`, so halves round toward +infinity,
      also for negative arguments (`Math.round(-2.5) == -2`). */
  function Round(x: real): (n: int)
    ensures IsRounding(n, x)
  {
    (x + 0.5).Floor
  }

  /** There is exactly one rounding of every real. */
  lemma RoundingIsUnique(n: int, m: int, x: real)
    requires IsRounding(n, x) && IsRounding(m, x)
    ensures n == m
  {
  }

  lemma RoundOfInteger(n: int)
    ensures Round(n as real) == n
  {
  }

  /** Halves go up, whatever the sign: `Math.round(2.5) == 3`,
      `Math.round(-2.5) == -2`. */
  lemma RoundHalfGoesUp(n: int)
    ensures Round(n as real + 0.5) == n + 1
    ensures Round(n as real - 0.5) == n
  {
  }

  lemma RoundIsMonotone(x: real, y: real)
    requires x <= y
    ensures Round(x) <= Round(y)
  {
  }

  predicate IsDigit(c: char) {
    '0' <= c <= '9'
  }

  function DigitValue(c: char): (d: nat)
    requires IsDigit(c)
    ensures d < 10
  {
    (c as int) - ('0' as int)
  }

  function DigitChar(d: nat): (c: char)
    requires d < 10
    ensures IsDigit(c) && DigitValue(c) == d
  {
    "0123456789"[d]
  }

  /** Decimal digits of `n`, most significant first, without leading zeros. */
  function NatToString(n: nat): (s: string)
    ensures |s| >= 1
    ensures forall i :: 0 <= i < |s| ==> IsDigit(s[i])
    ensures s[0] == '0' <==> n == 0
    ensures n == 0 ==> s == "0"
    decreases n
  {
    if n < 10 then [DigitChar(n)] else NatToString(n / 10) + [DigitChar(n % 10)]
  }

  /** The text of an integral JavaScript number: an optional minus sign and
      the decimal digits. Rounded pixel values are small integers, far below
      the 10^21 at which JavaScript switches to exponent notation. A
      `Math.round` result of `-0` prints as `0`, which the unbounded `0` here
      matches. */
  function IntToString(i: int): (s: string)
    ensures |s| >= 1
    ensures s[0] == '-' <==> i < 0
    ensures forall k :: 0 <= k < |s| ==> IsDigit(s[k]) || (k == 0 && s[k] == '-')
  {
    if i < 0 then "-" + NatToString(-i) else NatToString(i)
  }

  /** The value of a string of decimal digits. */
  function DigitsValue(s: string): nat
    requires forall i :: 0 <= i < |s| ==> IsDigit(s[i])
  {
    if |s| == 0 then 0
    else DigitsValue(s[..|s| - 1]) * 10 + DigitValue(s[|s| - 1])
  }

  /** Reads back the text of an integral number; `None` when it is not one. */
  function ParseInt(s: string): (r: Option<int>)
    ensures r.Some? ==> |s| >= 1
  {
    if |s| >= 2 && s[0] == '-' && forall i :: 1 <= i < |s| ==> IsDigit(s[i]) then
      var magnitude: int := DigitsValue(s[1..]);
      Some(-magnitude)
    else if |s| >= 1 && forall i :: 0 <= i < |s| ==> IsDigit(s[i]) then
      Some(DigitsValue(s))
    else
      None
  }

  lemma {:induction false} DigitsOfNat(n: nat)
    ensures DigitsValue(NatToString(n)) == n
    decreases n
  {
    if n >= 10 {
      var prefix := NatToString(n / 10);
      var s := prefix + [DigitChar(n % 10)];
      assert s[..|s| - 1] == prefix;
      DigitsOfNat(n / 10);
    }
  }

  predicate AllDigits(s: string) {
    forall i :: 0 <= i < |s| ==> IsDigit(s[i])
  }

  /** The text of a negative number: a minus sign, then the magnitude's
      digits. */
  lemma {:induction false} ParseSigned(digits: string, n: nat)
    requires |digits| >= 1 && AllDigits(digits) && DigitsValue(digits) == n
    ensures ParseInt("-" + digits) == Some(-(n as int))
  {
    var s := "-" + digits;
    assert s[1..] == digits;
    assert forall i :: 1 <= i < |s| ==> s[i] == digits[i - 1];
  }

  lemma {:induction false} ParseUnsigned(digits: string, n: nat)
    requires |digits| >= 1 && AllDigits(digits) && DigitsValue(digits) == n
    ensures ParseInt(digits) == Some(n)
  {
    assert digits[0] != '-';
  }

  /** Printing a rounded coordinate loses nothing: the text reads back as
      the same integer. */
  lemma {:induction false} IntTextRoundTrip(i: int)
    ensures ParseInt(IntToString(i)) == Some(i)
  {
    if i < 0 {
      DigitsOfNat(-i);
      ParseSigned(NatToString(-i), -i);
    } else {
      DigitsOfNat(i);
      ParseUnsigned(NatToString(i), i);
    }
  }

  /** Two integers with the same text are the same integer. */
  lemma IntTextIsInjective(i: int, j: int)
    requires IntToString(i) == IntToString(j)
    ensures i == j
  {
    IntTextRoundTrip(i);
    IntTextRoundTrip(j);
  }
}
