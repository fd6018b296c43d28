/** Exact decimal rounding, as `money`, `price` and the quantised exposures use it.
    Amounts are real numbers of the unit being rounded to. */
module Rounding {

  /** Nearest integer, ties away from zero (`ROUND_HALF_UP`). */
  function HalfUp(x: real): (r: int)
    ensures -0.5 <= r as real - x <= 0.5
    ensures x - x.Floor as real == 0.5 ==> r == if x > 0.0 then x.Floor + 1 else x.Floor
  {
    if x >= 0.0 then (x + 0.5).Floor else -((0.5 - x).Floor)
  }

  /** Nearest integer, ties to the even neighbour (the decimal context's default). */
  function HalfEven(x: real): (r: int)
    ensures -0.5 <= r as real - x <= 0.5
    ensures x - x.Floor as real == 0.5 ==> r % 2 == 0
  {
    var f := x.Floor;
    var part := x - f as real;
    if part < 0.5 || (part == 0.5 && f % 2 == 0) then f else f + 1
  }

  lemma HalfUpMonotone(x: real, y: real)
    requires x <= y
    ensures HalfUp(x) <= HalfUp(y)
  {
  }

  lemma HalfUpOfInt(n: int)
    ensures HalfUp(n as real) == n
  {
  }

  lemma HalfEvenOfInt(x: real, n: int)
    requires x == n as real
    ensures HalfEven(x) == n
  {
  }

  lemma SignOfFactor(u: real, w: real)
    requires u * w >= 0.0 && w > 0.0
    ensures u >= 0.0
  {
  }

  lemma QuotientBounds(p: real, a: real, w: real)
    requires w > 0.0 && 0.0 <= p <= a * w
    ensures 0.0 <= p / w <= a
  {
    var x := p / w;
    assert x * w == p;
    assert (a - x) * w == a * w - p;
    SignOfFactor(x, w);
    SignOfFactor(a - x, w);
  }

  lemma ProductBounds(a: real, t: real, w: real)
    requires a >= 0.0 && 0.0 <= t <= w
    ensures 0.0 <= a * t <= a * w
  {
    assert a * (w - t) >= 0.0;
  }

  /** The exact share `take / whole` of an amount. */
  function Proportion(amount: int, take: int, whole: int): real
    requires whole != 0
  {
    amount as real * take as real / whole as real
  }

  /** A share `take / whole` of a non-negative amount never rounds outside the amount. */
  lemma HalfUpShareBounds(amount: int, take: int, whole: int)
    requires 0 <= amount && 0 < take <= whole
    ensures 0 <= HalfUp(Proportion(amount, take, whole)) <= amount
  {
    ProportionBounds(amount, take, whole);
    hide HalfUp, Proportion;
    HalfUpMonotone(0.0, Proportion(amount, take, whole));
    HalfUpMonotone(Proportion(amount, take, whole), amount as real);
    HalfUpOfInt(0);
    HalfUpOfInt(amount);
  }

  lemma ProportionBounds(amount: int, take: int, whole: int)
    requires 0 <= amount && 0 < take <= whole
    ensures 0.0 <= Proportion(amount, take, whole) <= amount as real
  {
    var a, t, w := amount as real, take as real, whole as real;
    var p := a * t;
    ProductBounds(a, t, w);
    QuotientBounds(p, a, w);
    assert Proportion(amount, take, whole) == p / w;
  }
}
