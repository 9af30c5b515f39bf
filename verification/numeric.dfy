/** Integer helpers for the source's number formatting: half-up rounding of
    an exact quotient (JavaScript `Math.round(n / d)`) and decimal rendering
    of integers (JavaScript `String(n)`). */
module Numeric {

  function Abs(x: int): (r: nat)
    ensures r == x || r == -x
  {
    if x < 0 then -x else x
  }

  /** `Math.round(n / d)`: the integer nearest to n/d, halves rounded toward
      +infinity, computed exactly on the rational n/d. */
  function RoundHalfUpDiv(n: int, d: int): (r: int)
    requires d != 0
    ensures d > 0 ==> (2 * r - 1) * d <= 2 * n < (2 * r + 1) * d
    ensures d < 0 ==> (2 * r - 1) * -d <= -2 * n < (2 * r + 1) * -d
  {
    var (n', d') := if d < 0 then (-n, -d) else (n, d);
    RoundBounds(n', d');
    (2 * n' + d') / (2 * d')
  }

  lemma RoundBounds(n: int, d: int)
    requires d > 0
    ensures var q := (2 * n + d) / (2 * d);
      (2 * q - 1) * d <= 2 * n < (2 * q + 1) * d
  {
    var a, b := 2 * n + d, 2 * d;
    var q := a / b;
    assert q * b + a % b == a;
    assert 0 <= a % b < b;
    assert (2 * q - 1) * d == q * b - d;
    assert (2 * q + 1) * d == q * b + d;
  }

  /** A product of two positive integers is positive. */
  lemma {:induction false} MulPos(a: int, d: int)
    requires a > 0 && d > 0
    ensures a * d > 0
    decreases a
  {
    if a > 1 {
      MulPos(a - 1, d);
      assert a * d == (a - 1) * d + d;
    }
  }

  /** The sign of a product with a positive factor is the sign of the other. */
  lemma MulSign(a: int, d: int)
    requires d > 0
    ensures a > 0 <==> a * d > 0
    ensures a < 0 <==> a * d < 0
  {
    if a > 0 {
      MulPos(a, d);
    } else if a < 0 {
      MulPos(-a, d);
      assert a * d == -((-a) * d);
    }
  }

  /** Half-up rounding of a quotient n/d with 0 <= n <= d*k lies in [0, k]. */
  lemma RoundHalfUpDivRange(n: int, d: int, k: nat)
    requires d > 0 && 0 <= n <= d * k
    ensures 0 <= RoundHalfUpDiv(n, d) <= k
  {
    var r := RoundHalfUpDiv(n, d);
    MulSign(2 * r + 1, d);
    MulSign(2 * r - 1 - 2 * k, d);
    assert (2 * r - 1 - 2 * k) * d == (2 * r - 1) * d - 2 * (d * k);
  }

  function DigitChar(d: nat): (c: char)
    requires d < 10
    ensures '0' <= c <= '9'
    ensures c as int - '0' as int == d
  {
    ('0' as int + d) as char
  }

  predicate IsDigit(c: char) {
    '0' <= c <= '9'
  }

  predicate AllDigits(s: string) {
    forall i :: 0 <= i < |s| ==> IsDigit(s[i])
  }

  /** Decimal rendering of a natural number, without leading zeros. */
  function NatToString(n: nat): (s: string)
    ensures |s| >= 1 && AllDigits(s)
    ensures s[0] == '0' ==> n == 0
    decreases n
  {
    if n < 10 then [DigitChar(n)]
    else NatToString(n / 10) + [DigitChar(n % 10)]
  }

  /** Value of a string of decimal digits. */
  function DigitsValue(s: string): (n: nat)
    requires AllDigits(s)
    decreases |s|
  {
    if |s| == 0 then 0
    else 10 * DigitsValue(s[..|s| - 1]) + (s[|s| - 1] as int - '0' as int)
  }

  /** Reading back a rendered number gives the number. */
  lemma {:induction false} NatToStringRoundTrip(n: nat)
    ensures DigitsValue(NatToString(n)) == n
    decreases n
  {
    if n >= 10 {
      var s := NatToString(n);
      assert s[..|s| - 1] == NatToString(n / 10);
      NatToStringRoundTrip(n / 10);
    }
  }

  /** JavaScript `String(t / 10)` for a number with at most one decimal,
      given as a count of tenths: "12", "12.5", "-0.5". */
  function TenthsToString(t: int): (s: string)
    ensures |s| >= 1
    ensures s[0] == '-' <==> t < 0
    ensures s[0] != '+'
  {
    var a := Abs(t);
    var sign := if t < 0 then "-" else "";
    if a % 10 == 0 then sign + NatToString(a / 10)
    else sign + NatToString(a / 10) + "." + [DigitChar(a % 10)]
  }
}
