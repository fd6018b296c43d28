/** Whole lots that fit under an upper bound, and the few facts about products and quotients they need. */
module Lots {
  import opened Basics

  /** The value of `q` shares at price `p`. */
  function Value(q: nat, p: real): real { Times(q as real, p) }

  function WholeLots(raw: real, lot: nat): (q: nat)
    requires raw >= 0.0 && lot > 0
  {
    var f := (raw / lot as real).Floor;
    assert raw / lot as real >= 0.0;
    f * lot
  }

  lemma AtMost(x: real, d: real, c: real)
    requires d > 0.0
    ensures x / d <= c <==> x <= Times(c, d)
  {
    var q := x / d;
    assert q * d == x;
    assert (c - q) * d == Times(c, d) - x;
    if q <= c { assert (c - q) * d >= 0.0; } else { assert (q - c) * d > 0.0; }
  }

  lemma LotMonotone(k: nat, f: nat, lot: nat)
    requires lot > 0
    ensures k * lot <= f * lot <==> k <= f
  {
    if k <= f { assert (f - k) * lot >= 0; } else { assert (k - f) * lot > 0; }
  }

  /** The quantity is whole lots, and exactly the whole lots up to it fit under `raw`. */
  lemma WholeLotsGreatest(raw: real, lot: nat, k: nat)
    requires raw >= 0.0 && lot > 0
    ensures WholeLots(raw, lot) % lot == 0
    ensures (k * lot) as real <= raw <==> k * lot <= WholeLots(raw, lot)
  {
    var f := (raw / lot as real).Floor;
    assert raw / lot as real >= 0.0;
    AtLeast(raw, lot as real, k as real);
    assert Times(k as real, lot as real) == (k * lot) as real;
    LotMonotone(k, f, lot);
    Multiple(f, lot);
  }

  lemma AtLeast(x: real, d: real, c: real)
    requires d > 0.0
    ensures x / d >= c <==> x >= Times(c, d)
  {
    var q := x / d;
    assert q * d == x;
    assert (q - c) * d == x - Times(c, d);
    if q >= c { assert (q - c) * d >= 0.0; } else { assert (c - q) * d > 0.0; }
  }

  lemma Apart(d: int, lot: int)
    requires lot > 0
    ensures d > 0 ==> d * lot >= lot
    ensures d < 0 ==> d * lot <= -lot
  {
    if d > 0 { assert (d - 1) * lot >= 0; }
    if d < 0 { assert (-d - 1) * lot >= 0; }
  }

  lemma Multiple(f: nat, lot: nat)
    requires lot > 0
    ensures (f * lot) % lot == 0
  {
    MultipleOf(f * lot, f, lot);
  }

  lemma MultipleOf(n: nat, f: nat, lot: nat)
    requires lot > 0 && n == f * lot
    ensures n % lot == 0
  {
    Apart(f - n / lot, lot);
    assert (f - n / lot) * lot == n % lot;
  }

  /** Every multiple of the lot is a number of lots. */
  lemma LotCount(q: nat, lot: nat) returns (k: nat)
    requires lot > 0 && q % lot == 0
    ensures k * lot == q
  {
    k := q / lot;
  }
}
