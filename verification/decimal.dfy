/** Exact decimal arithmetic standing in for the Python 2 numeric built-ins the
    procedures use on dB values: abs(), int() on a float, and round(x, n). */
module Decimal {

  function Abs(x: real): (r: real)
    ensures r >= 0.0
    ensures r == x || r == -x
  {
    if x < 0.0 then -x else x
  }

  function Pow10(n: nat): (p: nat)
    ensures p >= 1
  {
    if n == 0 then 1 else 10 * Pow10(n - 1)
  }

  /** Python's int() on a float: truncation toward zero. */
  function Trunc(x: real): (n: int)
    ensures Abs(n as real) <= Abs(x) < Abs(n as real) + 1.0
    ensures x >= 0.0 ==> n >= 0
    ensures x <= 0.0 ==> n <= 0
  {
    if x >= 0.0 then x.Floor else -((-x).Floor)
  }

  /** Nearest integer, halves rounded away from zero (Python 2 round()). */
  function RoundHalfAway(y: real): (n: int)
    ensures -0.5 <= n as real - y <= 0.5
    ensures y >= 0.0 ==> n >= 0
    ensures y <= 0.0 ==> n <= 0
    ensures n as real - y == 0.5 ==> y > 0.0
    ensures y - n as real == 0.5 ==> y < 0.0
  {
    if y >= 0.0 then (y + 0.5).Floor else -((-y + 0.5).Floor)
  }

  /** 10^places as a real: the size of one unit of the last decimal place. */
  function Scale(places: nat): (s: real)
    ensures s >= 1.0
  {
    Pow10(places) as real
  }

  /** x has at most `places` decimal places. */
  predicate HasPlaces(x: real, places: nat) {
    var y := x * Scale(places);
    y.Floor as real == y
  }

  /** round(x, places) on the exact decimal value of x: at most `places`
      decimals, within half a unit of the last place, the sign of x kept,
      and an exact half of a unit taken away from zero (above x only for a
      positive x, below it only for a negative one). */
  function Round(x: real, places: nat): (r: real)
    ensures HasPlaces(r, places)
    ensures -0.5 <= (r - x) * Scale(places) <= 0.5
    ensures (r - x) * Scale(places) == 0.5 ==> x > 0.0
    ensures (x - r) * Scale(places) == 0.5 ==> x < 0.0
    ensures x >= 0.0 ==> r >= 0.0
    ensures x <= 0.0 ==> r <= 0.0
  {
    var n := RoundHalfAway(x * Scale(places));
    var r := n as real / Scale(places);
    RoundFacts(x, places, n, r);
    r
  }

  lemma RoundFacts(x: real, places: nat, n: int, r: real)
    requires n == RoundHalfAway(x * Scale(places))
    requires r == n as real / Scale(places)
    ensures HasPlaces(r, places)
    ensures -0.5 <= (r - x) * Scale(places) <= 0.5
    ensures (r - x) * Scale(places) == 0.5 ==> x > 0.0
    ensures (x - r) * Scale(places) == 0.5 ==> x < 0.0
    ensures x >= 0.0 ==> r >= 0.0
    ensures x <= 0.0 ==> r <= 0.0
  {
    DivideBack(n as real, Scale(places));
    WholeHasPlaces(r, places, n);
    Unscale(r, x, Scale(places), n);
  }

  /** Dividing the rounded integer back by the scale keeps its distance,
      sign and tie behaviour relative to x. */
  lemma Unscale(r: real, x: real, scale: real, n: int)
    requires scale >= 1.0
    requires r * scale == n as real
    requires -0.5 <= n as real - x * scale <= 0.5
    requires x >= 0.0 ==> n >= 0
    requires x <= 0.0 ==> n <= 0
    requires n as real - x * scale == 0.5 ==> x * scale > 0.0
    requires x * scale - n as real == 0.5 ==> x * scale < 0.0
    ensures -0.5 <= (r - x) * scale <= 0.5
    ensures (r - x) * scale == 0.5 ==> x > 0.0
    ensures (x - r) * scale == 0.5 ==> x < 0.0
    ensures x >= 0.0 ==> r >= 0.0
    ensures x <= 0.0 ==> r <= 0.0
  {
    Distribute(r, x, scale);
    ScaledAbs(r - x, scale);
    ScaledAbs(r, scale);
    ScaledAbs(x, scale);
  }

  lemma DivideBack(a: real, s: real)
    requires s > 0.0
    ensures (a / s) * s == a
  {
  }

  lemma WholeHasPlaces(r: real, places: nat, n: int)
    requires r * Scale(places) == n as real
    ensures HasPlaces(r, places)
  {
    assert (n as real).Floor == n;
  }

  lemma Distribute(a: real, b: real, c: real)
    ensures (a - b) * c == a * c - b * c
  {
  }

  lemma ScaledAbs(a: real, s: real)
    requires s > 0.0
    ensures Abs(a) * s == Abs(a * s)
  {
  }
}
