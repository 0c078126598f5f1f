/** Number formatting and the arithmetic helpers the scorer and the reports
    share.  Python floats are modelled as exact `real`s. */
module Numeric {

  /** Round to the nearest integer, ties to the even neighbour (the rule
      Python's `round` follows). */
  function RoundHalfEven(y: real): (r: int)
    ensures -(1.0 / 2.0) <= r as real - y <= 1.0 / 2.0
  {
    var f := y.Floor;
    var d := y - f as real;
    if d < 1.0 / 2.0 then f
    else if d > 1.0 / 2.0 then f + 1
    else if f % 2 == 0 then f else f + 1
  }

  /** Rounding a value between two integers stays between them. */
  lemma RoundBetween(y: real, lo: int, hi: int)
    requires lo as real <= y <= hi as real
    ensures lo <= RoundHalfEven(y) <= hi
  {
  }

  /** Python `round(x, 1)`: the nearest multiple of 0.1, ties to even. */
  function Round1(x: real): (r: real)
    ensures -(1.0 / 20.0) <= r - x <= 1.0 / 20.0
  {
    RoundHalfEven(x * 10.0) as real / 10.0
  }

  /** `round(x, 1)` of a value in `[0, 100]` is in `[0, 100]`. */
  lemma Round1Percent(x: real)
    requires 0.0 <= x <= 100.0
    ensures 0.0 <= Round1(x) <= 100.0
  {
    RoundBetween(x * 10.0, 0, 1000);
  }

  /** Rounding keeps order. */
  lemma Round1Monotone(x: real, y: real)
    requires x <= y
    ensures Round1(x) <= Round1(y)
  {
    assert x * 10.0 <= y * 10.0;
    RoundHalfEvenMonotone(x * 10.0, y * 10.0);
  }

  lemma RoundHalfEvenMonotone(x: real, y: real)
    requires x <= y
    ensures RoundHalfEven(x) <= RoundHalfEven(y)
  {
  }

  lemma Round1Zero()
    ensures Round1(0.0) == 0.0
  {
    assert RoundHalfEven(0.0) == 0;
  }

  function DigitChar(d: nat): char
    requires d < 10
  {
    ('0' as int + d) as char
  }

  /** Decimal digits of a natural number, no leading zeros. */
  function NatToString(n: nat): (s: string)
    ensures |s| >= 1
    ensures forall i :: 0 <= i < |s| ==> '0' <= s[i] <= '9'
  {
    if n < 10 then [DigitChar(n)] else NatToString(n / 10) + [DigitChar(n % 10)]
  }

  /** Python `str(i)` for an integer. */
  function IntToString(i: int): string
  {
    if i < 0 then "-" + NatToString(-i) else NatToString(i)
  }

  /** Python `format(x, ".2f")`: a sign for negative values, the integer
      part, a point and two rounded decimals. */
  function Fixed2(x: real): (s: string)
    ensures '.' in s
  {
    var n := RoundHalfEven(if x < 0.0 then -x * 100.0 else x * 100.0);
    var m: nat := n;
    var body := NatToString(m / 100) + "." + [DigitChar(m % 100 / 10), DigitChar(m % 10)];
    assert body[|NatToString(m / 100)|] == '.';
    if x < 0.0 then "-" + body else body
  }

  function Sum(xs: seq<real>): real
  {
    if xs == [] then 0.0 else xs[0] + Sum(xs[1..])
  }

  /** Summing elements that each lie in `[lo, hi]` gives a total between
      `|xs| * lo` and `|xs| * hi`. */
  lemma {:induction false} SumBounds(xs: seq<real>, lo: real, hi: real)
    requires forall i :: 0 <= i < |xs| ==> lo <= xs[i] <= hi
    ensures |xs| as real * lo <= Sum(xs) <= |xs| as real * hi
  {
    if xs != [] {
      SumBounds(xs[1..], lo, hi);
    }
  }

  function Max(xs: seq<real>): (m: real)
    requires xs != []
    ensures m in xs
    ensures forall i :: 0 <= i < |xs| ==> xs[i] <= m
  {
    if |xs| == 1 then xs[0]
    else
      var rest := Max(xs[1..]);
      assert forall i :: 1 <= i < |xs| ==> xs[i] == xs[1..][i - 1];
      if xs[0] >= rest then xs[0] else rest
  }

  function Min(xs: seq<real>): (m: real)
    requires xs != []
    ensures m in xs
    ensures forall i :: 0 <= i < |xs| ==> m <= xs[i]
  {
    if |xs| == 1 then xs[0]
    else
      var rest := Min(xs[1..]);
      assert forall i :: 1 <= i < |xs| ==> xs[i] == xs[1..][i - 1];
      if xs[0] <= rest then xs[0] else rest
  }

  /** The mean of a non-empty list lies between its minimum and maximum. */
  lemma {:induction false} MeanBetweenMinAndMax(xs: seq<real>)
    requires xs != []
    ensures Min(xs) <= Sum(xs) / |xs| as real <= Max(xs)
  {
    var lo, hi, total := Min(xs), Max(xs), Sum(xs);
    SumBounds(xs, lo, hi);
    QuotientBetween(total, |xs| as real, lo, hi);
  }

  lemma QuotientBetween(s: real, n: real, lo: real, hi: real)
    requires n > 0.0 && n * lo <= s <= n * hi
    ensures lo <= s / n <= hi
  {
    assert (s / n) * n == s;
  }
}
