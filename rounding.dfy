/** Python's round(x, d) on exact values: half to even at d decimals. */
module Rounding {
  import opened Common


  function Pow10(d: nat): (p: nat)
    ensures p >= 1
  {
    if d == 0 then 1 else 10 * Pow10(d - 1)
  }

  predicate IsInteger(x: real) {
    x.Floor as real == x
  }

  /** Half of the last kept decimal place: the largest rounding error. */
  function HalfUnit(d: nat): real {
    0.5 / Pow10(d) as real
  }

  lemma HalfUnits()
    ensures HalfUnit(2) == 0.005 && HalfUnit(3) == 0.0005 && HalfUnit(6) == 0.0000005
  {
  }

  /** The integer nearest to s, ties going to the even neighbour. */
  function NearestEven(s: real): (n: int)
    ensures Abs(n as real - s) <= 0.5
    ensures Abs(n as real - s) == 0.5 ==> n % 2 == 0
    ensures IsInteger(s) ==> n as real == s
  {
    var f := s.Floor;
    var frac := s - f as real;
    if frac < 0.5 then f
    else if frac > 0.5 then f + 1
    else if f % 2 == 0 then f else f + 1
  }

  /** round(x, d): within half a unit of the d-th decimal of x. */
  function Round(x: real, d: nat): (r: real)
    ensures Abs(r - x) <= HalfUnit(d)
  {
    var scale := Pow10(d) as real;
    var n := NearestEven(x * scale);
    RoundError(x, scale, n);
    n as real / scale
  }

  // A value that already has no more decimals than round() keeps (x * 10^d
  // is the integer k) is left as it is; one lemma per precision in use.

  lemma RoundExact2(x: real, k: int)
    requires x * 100.0 == k as real
    ensures Round(x, 2) == x
  {
    NearestOfInteger(k);
    assert Pow10(2) == 100;
    assert Round(x, 2) == k as real / 100.0;
  }

  lemma RoundExact3(x: real, k: int)
    requires x * 1000.0 == k as real
    ensures Round(x, 3) == x
  {
    NearestOfInteger(k);
    assert Pow10(3) == 1000;
    assert Round(x, 3) == k as real / 1000.0;
  }

  lemma RoundExact6(x: real, k: int)
    requires x * 1000000.0 == k as real
    ensures Round(x, 6) == x
  {
    NearestOfInteger(k);
    assert Pow10(6) == 1000000;
    assert Round(x, 6) == k as real / 1000000.0;
  }

  // The results of the three precisions in use have at most that many
  // decimals: multiplied by 10^d they are whole numbers.

  lemma RoundDecimals2(x: real)
    ensures IsInteger(Round(x, 2) * 100.0)
  {
    assert Pow10(2) == 100;
    var n := NearestEven(x * 100.0);
    assert Round(x, 2) == n as real / 100.0;
    assert (n as real).Floor == n;
  }

  lemma RoundDecimals3(x: real)
    ensures IsInteger(Round(x, 3) * 1000.0)
  {
    assert Pow10(3) == 1000;
    var n := NearestEven(x * 1000.0);
    assert Round(x, 3) == n as real / 1000.0;
    assert (n as real).Floor == n;
  }

  lemma RoundDecimals6(x: real)
    ensures IsInteger(Round(x, 6) * 1000000.0)
  {
    assert Pow10(6) == 1000000;
    var n := NearestEven(x * 1000000.0);
    assert Round(x, 6) == n as real / 1000000.0;
    assert (n as real).Floor == n;
  }

  lemma NearestOfInteger(k: int)
    ensures NearestEven(k as real) == k
  {
    assert (k as real).Floor == k;
  }

  lemma RoundError(x: real, scale: real, n: int)
    requires scale >= 1.0
    requires Abs(n as real - x * scale) <= 0.5
    ensures Abs(n as real / scale - x) <= 0.5 / scale
  {
    var e := n as real - x * scale;
    assert n as real / scale - x == e / scale;
    DivideBound(Abs(e), 0.5, scale);
    assert Abs(e / scale) == Abs(e) / scale;
  }

  lemma DivideBound(a: real, b: real, c: real)
    requires 0.0 <= a <= b && c > 0.0
    ensures a / c <= b / c
  {
    assert b / c - a / c == (b - a) / c;
  }

}
