/** The arithmetic behind the competition's metrics: calibration bins, rank correlation and
    drawdown, over exact numbers. Folds end on the last element, as the loops do. */
module Statistics {
  import opened Wrappers
  import opened Basics

  function Abs(x: real): real { if x < 0.0 then -x else x }

  function Square(x: real): real { Times(x, x) }

  function Diff(x: real, y: real): real { x - y }

  function Sum(s: seq<real>): real {
    if s == [] then 0.0 else Sum(s[..|s| - 1]) + s[|s| - 1]
  }

  function Dot(a: seq<real>, b: seq<real>): real
    requires |a| == |b|
  {
    if a == [] then 0.0 else Dot(a[..|a| - 1], b[..|b| - 1]) + Times(a[|a| - 1], b[|b| - 1])
  }

  function Minus(a: seq<real>, b: seq<real>): (r: seq<real>)
    requires |a| == |b|
    ensures |r| == |a|
  {
    seq(|a|, i requires 0 <= i < |a| => Diff(a[i], b[i]))
  }

  // ---------------------------------------------------------------- Cauchy-Schwarz

  lemma PositiveProduct(x: real, y: real)
    requires x > 0.0 && y > 0.0
    ensures Times(x, y) > 0.0
  {
  }

  lemma SquareNonNegative(x: real)
    ensures Square(x) >= 0.0
    ensures Square(x) == 0.0 ==> x == 0.0
  {
    if x > 0.0 {
      PositiveProduct(x, x);
    } else if x < 0.0 {
      PositiveProduct(-x, -x);
      assert Times(-x, -x) == Times(x, x);
    }
  }

  lemma {:induction false} SquaresNonNegative(a: seq<real>)
    ensures Dot(a, a) >= 0.0
    ensures Dot(a, a) == 0.0 ==> forall i :: 0 <= i < |a| ==> a[i] == 0.0
  {
    if a != [] {
      SquaresNonNegative(a[..|a| - 1]);
      SquareNonNegative(a[|a| - 1]);
      hide Times;
      if Dot(a, a) == 0.0 {
        forall i | 0 <= i < |a| ensures a[i] == 0.0 {
          if i < |a| - 1 { assert a[i] == a[..|a| - 1][i]; }
        }
      }
    }
  }

  function Mix(x: real, p: real, y: real, q: real): real { x * p - y * q }

  function Blend(x: real, a: seq<real>, y: real, b: seq<real>): (r: seq<real>)
    requires |a| == |b|
    ensures |r| == |a|
  {
    seq(|a|, i requires 0 <= i < |a| => Mix(x, a[i], y, b[i]))
  }

  function Quadratic(x: real, y: real, aa: real, ab: real, bb: real): real {
    x * x * aa - 2.0 * x * y * ab + y * y * bb
  }

  lemma Distribute(c: real, u: real, v: real)
    ensures c * (u + v) == c * u + c * v
  {
  }

  lemma QuadraticAdds(x: real, y: real, aa: real, ab: real, bb: real, u: real, v: real, w: real)
    ensures Quadratic(x, y, aa, ab, bb) + Quadratic(x, y, u, v, w) == Quadratic(x, y, aa + u, ab + v, bb + w)
  {
    Distribute(x * x, aa, u);
    Distribute(2.0 * x * y, ab, v);
    Distribute(y * y, bb, w);
  }

  lemma MixSquare(x: real, p: real, y: real, q: real)
    ensures Square(Mix(x, p, y, q)) == Quadratic(x, y, Times(p, p), Times(p, q), Times(q, q))
  {
    var s, t := x * p, y * q;
    assert s * s == x * x * (p * p);
    assert t * t == y * y * (q * q);
    assert s * t == x * y * (p * q);
    assert (s - t) * (s - t) == s * s - 2.0 * (s * t) + t * t;
  }

  lemma BlendPrefix(x: real, a: seq<real>, y: real, b: seq<real>)
    requires |a| == |b| > 0
    ensures Blend(x, a, y, b)[..|a| - 1] == Blend(x, a[..|a| - 1], y, b[..|a| - 1])
  {
    hide Mix;
  }

  /** The sum of squares of `x * a - y * b`, expanded. */
  lemma {:induction false} BlendExpands(x: real, a: seq<real>, y: real, b: seq<real>)
    requires |a| == |b|
    ensures Dot(Blend(x, a, y, b), Blend(x, a, y, b)) == Quadratic(x, y, Dot(a, a), Dot(a, b), Dot(b, b))
  {
    if a == [] {
    } else {
      var k := |a| - 1;
      hide Quadratic, Times, Mix;
      BlendExpands(x, a[..k], y, b[..k]);
      BlendPrefix(x, a, y, b);
      MixSquare(x, a[k], y, b[k]);
      QuadraticAdds(x, y, Dot(a[..k], a[..k]), Dot(a[..k], b[..k]), Dot(b[..k], b[..k]),
                    Times(a[k], a[k]), Times(a[k], b[k]), Times(b[k], b[k]));
    }
  }

  lemma QuadraticAtRoot(aa: real, ab: real, bb: real)
    ensures Quadratic(bb, ab, aa, ab, bb) == Times(bb, Times(aa, bb) - Square(ab))
  {
  }

  lemma NegativeProduct(x: real, y: real)
    requires x > 0.0 && y < 0.0
    ensures Times(x, y) < 0.0
  {
  }

  /** Cauchy-Schwarz, with the case of equality. */
  lemma CauchySchwarz(a: seq<real>, b: seq<real>)
    requires |a| == |b|
    ensures Square(Dot(a, b)) <= Times(Dot(a, a), Dot(b, b))
    ensures Square(Dot(a, b)) == Times(Dot(a, a), Dot(b, b)) ==>
      forall i :: 0 <= i < |a| ==> Times(Dot(b, b), a[i]) == Times(Dot(a, b), b[i])
  {
    var aa, ab, bb := Dot(a, a), Dot(a, b), Dot(b, b);
    var d := Blend(bb, a, ab, b);
    var gap := Times(aa, bb) - Square(ab);
    BlendExpands(bb, a, ab, b);
    QuadraticAtRoot(aa, ab, bb);
    SquaresNonNegative(d);
    SquaresNonNegative(b);
    if bb == 0.0 { ZeroDot(a, b); }
    assert gap >= 0.0 by {
      hide Dot, Quadratic;
      if gap < 0.0 && bb > 0.0 { NegativeProduct(bb, gap); }
    }
    if gap == 0.0 {
      forall i | 0 <= i < |a| ensures Times(bb, a[i]) == Times(ab, b[i]) {
        hide Dot, Quadratic;
        assert d[i] == Mix(bb, a[i], ab, b[i]);
      }
    }
  }

  lemma {:induction false} ZeroDot(a: seq<real>, b: seq<real>)
    requires |a| == |b| && forall i :: 0 <= i < |b| ==> b[i] == 0.0
    ensures Dot(a, b) == 0.0
  {
    if a != [] { ZeroDot(a[..|a| - 1], b[..|b| - 1]); }
  }

  // -------------------------------------------------------------------- calibration

  type Probability = x: real | 0.0 <= x <= 1.0 witness 0.0

  const BINS := 10

  function Bin(p: Probability): (k: nat)
    ensures k < BINS
  {
    var k := (p * 10.0).Floor;
    assert 0.0 <= p * 10.0 < 11.0;
    if k > 9 then 9 else k
  }

  /** The bins are tenths, the last one closed. */
  lemma BinIsTenth(p: Probability, k: nat)
    requires k < BINS
    ensures Bin(p) == k <==> 10.0 * p >= k as real && (10.0 * p < (k + 1) as real || k == 9)
  {
  }

  /** The samples that fall into one bin, in order. */
  function Bucket(k: nat, ps: seq<Probability>, ls: seq<Probability>): seq<(Probability, Probability)>
    requires |ps| == |ls|
  {
    if ps == [] then []
    else
      var n := |ps| - 1;
      var b := Bucket(k, ps[..n], ls[..n]);
      if Bin(ps[n]) == k then b + [(ps[n], ls[n])] else b
  }

  function Firsts(b: seq<(Probability, Probability)>): real {
    if b == [] then 0.0 else Firsts(b[..|b| - 1]) + b[|b| - 1].0
  }

  function Seconds(b: seq<(Probability, Probability)>): real {
    if b == [] then 0.0 else Seconds(b[..|b| - 1]) + b[|b| - 1].1
  }

  function Sizes(ps: seq<Probability>, ls: seq<Probability>, k: nat): nat
    requires |ps| == |ls|
  {
    if k == 0 then 0 else Sizes(ps, ls, k - 1) + |Bucket(k - 1, ps, ls)|
  }

  /** By how much the probabilities of one bin exceed its labels, in total. */
  function Gap(k: nat, ps: seq<Probability>, ls: seq<Probability>): real
    requires |ps| == |ls|
  {
    if ps == [] then 0.0
    else
      var n := |ps| - 1;
      Gap(k, ps[..n], ls[..n]) + (if Bin(ps[n]) == k then Diff(ps[n], ls[n]) else 0.0)
  }

  function Gaps(ps: seq<Probability>, ls: seq<Probability>, k: nat): real
    requires |ps| == |ls|
  {
    if k == 0 then 0.0 else Gaps(ps, ls, k - 1) + Abs(Gap(k - 1, ps, ls))
  }

  /** The expected calibration error: the bins' absolute gaps over the number of samples. */
  function Calibration(ps: seq<Probability>, ls: seq<Probability>): real
    requires |ps| == |ls| > 0
  {
    Gaps(ps, ls, BINS) / |ps| as real
  }

  lemma {:induction false} BucketSnoc(k: nat, ps: seq<Probability>, ls: seq<Probability>, i: nat)
    requires |ps| == |ls| && i < |ps|
    ensures Bucket(k, ps[..i + 1], ls[..i + 1]) ==
            Bucket(k, ps[..i], ls[..i]) + (if Bin(ps[i]) == k then [(ps[i], ls[i])] else [])
  {
    TakeSnoc(ps, i);
    TakeSnoc(ls, i);
  }

  lemma {:induction false} GapOfBucket(k: nat, ps: seq<Probability>, ls: seq<Probability>)
    requires |ps| == |ls|
    ensures Gap(k, ps, ls) == Firsts(Bucket(k, ps, ls)) - Seconds(Bucket(k, ps, ls))
  {
    if ps != [] {
      var n := |ps| - 1;
      GapOfBucket(k, ps[..n], ls[..n]);
      var b := Bucket(k, ps[..n], ls[..n]);
      assert (b + [(ps[n], ls[n])])[..|b|] == b;
    }
  }

  /** What one bin adds: its share of the samples times the gap between its two means. */
  function BinTerm(b: seq<(Probability, Probability)>, total: nat): real
    requires b != [] && total > 0
  {
    var size := |b| as real;
    size / total as real * Abs(Firsts(b) / size - Seconds(b) / size)
  }

  lemma BinTermIsGap(b: seq<(Probability, Probability)>, total: nat)
    requires b != [] && total > 0
    ensures BinTerm(b, total) == Abs(Firsts(b) - Seconds(b)) / total as real
  {
    var size, x, y, t := |b| as real, Firsts(b), Seconds(b), total as real;
    hide Abs, Firsts, Seconds;
    assert x / size - y / size == (x - y) / size;
    AbsQuotient(x - y, size);
    Cancel(size, t, Abs(x - y));
  }

  lemma AbsQuotient(x: real, d: real)
    requires d > 0.0
    ensures Abs(x / d) == Abs(x) / d
  {
    if x < 0.0 { assert x / d < 0.0; assert -(x / d) == (-x) / d; } else { assert x / d >= 0.0; }
  }

  lemma Cancel(size: real, t: real, x: real)
    requires size > 0.0 && t > 0.0
    ensures size / t * (x / size) == x / t
  {
    var q, r := size / t, x / size;
    assert q * t == size && r * size == x;
    assert q * r * t == x;
  }

  /** The ten lists filled sample by sample, then summed bin by bin. */
  method ExpectedCalibrationError(ps: seq<Probability>, ls: seq<Probability>) returns (e: real)
    requires |ps| == |ls| > 0
    ensures e == Calibration(ps, ls)
  {
    hide Abs, BinTerm, Bin, Bucket, Gap, Gaps, Calibration, PerSample;
    var bins: seq<seq<(Probability, Probability)>> := seq(BINS, _ => []);
    EmptyBuckets();
    assert ps[..0] == [] && ls[..0] == [];
    for i := 0 to |ps|
      invariant |bins| == BINS
      invariant forall k :: 0 <= k < BINS ==> bins[k] == Bucket(k, ps[..i], ls[..i])
    {
      forall k | 0 <= k < BINS
        ensures Bucket(k, ps[..i + 1], ls[..i + 1]) == if Bin(ps[i]) == k then bins[k] + [(ps[i], ls[i])] else bins[k]
      {
        BucketSnoc(k, ps, ls, i);
      }
      var b := Bin(ps[i]);
      bins := bins[b := bins[b] + [(ps[i], ls[i])]];
    }
    assert ps[..|ps|] == ps && ls[..|ls|] == ls;
    e := 0.0;
    NoGaps(ps, ls);
    for k := 0 to BINS
      invariant e == PerSample(Gaps(ps, ls, k), |ps|)
    {
      NextGap(ps, ls, k);
      AddTerm(bins[k], Gaps(ps, ls, k), |ps|);
      if bins[k] != [] { e := e + BinTerm(bins[k], |ps|); }
    }
    CalibrationIs(ps, ls);
  }

  lemma CalibrationIs(ps: seq<Probability>, ls: seq<Probability>)
    requires |ps| == |ls| > 0
    ensures Calibration(ps, ls) == PerSample(Gaps(ps, ls, BINS), |ps|)
  {
  }

  function PerSample(x: real, total: nat): real
    requires total > 0
  {
    x / total as real
  }

  lemma NoGaps(ps: seq<Probability>, ls: seq<Probability>)
    requires |ps| == |ls| > 0
    ensures PerSample(Gaps(ps, ls, 0), |ps|) == 0.0
  {
  }

  lemma NextGap(ps: seq<Probability>, ls: seq<Probability>, k: nat)
    requires |ps| == |ls|
    ensures var b := Bucket(k, ps, ls); Gaps(ps, ls, k + 1) == Gaps(ps, ls, k) + Abs(Firsts(b) - Seconds(b))
  {
    GapOfBucket(k, ps, ls);
    hide Gap, Bucket, Abs;
  }

  lemma EmptyBuckets()
    ensures forall k: nat :: Bucket(k, [], []) == []
  {
  }

  lemma AddTerm(b: seq<(Probability, Probability)>, before: real, total: nat)
    requires total > 0
    ensures PerSample(before, total) + (if b == [] then 0.0 else BinTerm(b, total)) ==
            PerSample(before + Abs(Firsts(b) - Seconds(b)), total)
  {
    if b != [] {
      BinTermIsGap(b, total);
      hide Abs, BinTerm, Firsts, Seconds;
      AddQuotient(before, Abs(Firsts(b) - Seconds(b)), total as real);
    }
  }

  lemma AddQuotient(x: real, y: real, n: real)
    requires n > 0.0
    ensures x / n + y / n == (x + y) / n
  {
  }

  /** Every sample is in exactly one bin. */
  lemma {:induction false} BinsPartition(ps: seq<Probability>, ls: seq<Probability>)
    requires |ps| == |ls|
    ensures Sizes(ps, ls, BINS) == |ps|
    ensures forall i, k: nat :: 0 <= i < |ps| && k < BINS && Bin(ps[i]) == k ==> (ps[i], ls[i]) in Bucket(k, ps, ls)
  {
    hide Bin;
    if ps == [] {
      EmptySizes(BINS);
    } else {
      var n := |ps| - 1;
      BinsPartition(ps[..n], ls[..n]);
      SizesStep(ps, ls, BINS);
      forall i, k: nat | 0 <= i < |ps| && k < BINS && Bin(ps[i]) == k ensures (ps[i], ls[i]) in Bucket(k, ps, ls) {
        if i < n { assert (ps[..n][i], ls[..n][i]) in Bucket(k, ps[..n], ls[..n]); }
      }
    }
  }

  lemma {:induction false} EmptySizes(k: nat)
    ensures Sizes([], [], k) == 0
  {
    if k > 0 { EmptySizes(k - 1); }
  }

  lemma {:induction false} SizesStep(ps: seq<Probability>, ls: seq<Probability>, k: nat)
    requires |ps| == |ls| > 0
    ensures var n := |ps| - 1;
      Sizes(ps, ls, k) == Sizes(ps[..n], ls[..n], k) + (if Bin(ps[n]) < k then 1 else 0)
  {
    hide Bin;
    if k > 0 { SizesStep(ps, ls, k - 1); }
  }

  /** The absolute errors of the samples, summed. */
  function Errors(ps: seq<Probability>, ls: seq<Probability>): (r: seq<real>)
    requires |ps| == |ls|
    ensures |r| == |ps|
  {
    seq(|ps|, i requires 0 <= i < |ps| => Abs(Diff(ps[i], ls[i])))
  }

  lemma {:induction false} GapsStep(ps: seq<Probability>, ls: seq<Probability>, k: nat)
    requires |ps| == |ls| > 0
    ensures var n := |ps| - 1;
      Gaps(ps, ls, k) <= Gaps(ps[..n], ls[..n], k) + (if Bin(ps[n]) < k then Abs(Diff(ps[n], ls[n])) else 0.0)
  {
    hide Bin;
    if k > 0 { GapsStep(ps, ls, k - 1); }
  }

  lemma ErrorsPrefix(ps: seq<Probability>, ls: seq<Probability>)
    requires |ps| == |ls| > 0
    ensures Errors(ps, ls)[..|ps| - 1] == Errors(ps[..|ps| - 1], ls[..|ps| - 1])
  {
  }

  lemma {:induction false} GapsWithinErrors(ps: seq<Probability>, ls: seq<Probability>)
    requires |ps| == |ls|
    ensures 0.0 <= Gaps(ps, ls, BINS) <= Sum(Errors(ps, ls)) <= |ps| as real
  {
    if ps == [] {
      EmptyGaps(BINS);
    } else {
      GapsWithinErrors(ps[..|ps| - 1], ls[..|ps| - 1]);
      GapsStep(ps, ls, BINS);
      ErrorsPrefix(ps, ls);
      GapsNonNegative(ps, ls, BINS);
      hide Gaps, Gap, Bin;
    }
  }

  lemma {:induction false} GapsNonNegative(ps: seq<Probability>, ls: seq<Probability>, k: nat)
    requires |ps| == |ls|
    ensures Gaps(ps, ls, k) >= 0.0
  {
    if k > 0 { GapsNonNegative(ps, ls, k - 1); }
  }

  lemma {:induction false} EmptyGaps(k: nat)
    ensures Gaps([], [], k) == 0.0
  {
    if k > 0 { EmptyGaps(k - 1); }
  }

  function Brier(ps: seq<Probability>, ls: seq<Probability>): real
    requires |ps| == |ls| > 0
  {
    Dot(Minus(ps, ls), Minus(ps, ls)) / |ps| as real
  }

  function Ones(n: nat): (r: seq<real>)
    ensures |r| == n
  {
    seq(n, _ => 1.0)
  }

  lemma {:induction false} DotOnes(a: seq<real>)
    ensures Dot(a, Ones(|a|)) == Sum(a)
  {
    if a != [] {
      DotOnes(a[..|a| - 1]);
      assert Ones(|a|)[..|a| - 1] == Ones(|a| - 1);
    }
  }

  lemma {:induction false} SumOnes(n: nat)
    ensures Sum(Ones(n)) == n as real
  {
    if n > 0 {
      SumOnes(n - 1);
      assert Ones(n)[..n - 1] == Ones(n - 1);
    }
  }

  lemma ErrorSquare(p: Probability, l: Probability)
    ensures Square(Abs(Diff(p, l))) == Square(Diff(p, l)) <= Abs(Diff(p, l))
  {
    var x := Diff(p, l);
    var d := Abs(x);
    assert 0.0 <= d <= 1.0;
    assert d * d <= 1.0 * d;
    assert Square(d) == d * d && Square(x) == x * x;
    assert (-x) * (-x) == x * x;
  }

  lemma {:induction false} ErrorsSquared(ps: seq<Probability>, ls: seq<Probability>)
    requires |ps| == |ls|
    ensures Dot(Errors(ps, ls), Errors(ps, ls)) == Dot(Minus(ps, ls), Minus(ps, ls)) <= Sum(Errors(ps, ls))
  {
    if ps != [] {
      var n := |ps| - 1;
      hide Diff, Abs, Times;
      ErrorsSquared(ps[..n], ls[..n]);
      ErrorsPrefix(ps, ls);
      assert Minus(ps, ls)[..n] == Minus(ps[..n], ls[..n]);
      ErrorSquare(ps[n], ls[n]);
    }
  }

  /** The squared mean error never exceeds the mean squared error. */
  lemma MeanSquare(ps: seq<Probability>, ls: seq<Probability>)
    requires |ps| == |ls|
    ensures Square(Sum(Errors(ps, ls))) <= Dot(Minus(ps, ls), Minus(ps, ls)) * |ps| as real
  {
    hide Dot, Sum, Errors, Ones, Minus;
    var e := Errors(ps, ls);
    CauchySchwarz(e, Ones(|e|));
    DotOnes(e);
    DotOnes(Ones(|e|));
    SumOnes(|e|);
    ErrorsSquared(ps, ls);
  }

  lemma SquareMonotone(x: real, y: real)
    requires 0.0 <= x <= y
    ensures Square(x) <= Square(y)
  {
    assert x * x <= x * y <= y * y;
  }

  lemma SquareOverN(g: real, d: real, n: real)
    requires n > 0.0 && Square(g) <= d * n
    ensures Square(g / n) <= d / n
  {
    var q, m := g / n, d / n;
    assert q * n == g && m * n == d;
    assert n * n > 0.0;
    assert q * q * (n * n) == g * g;
    assert m * (n * n) == d * n;
    if m < q * q { NegativeProduct(n * n, m - q * q); }
  }

  lemma Quotient(x: real, n: real)
    requires 0.0 <= x <= n && n > 0.0
    ensures 0.0 <= x / n <= 1.0
  {
  }

  /** Both scores lie in [0, 1], and the squared calibration error never exceeds the Brier score. */
  lemma CalibrationBounds(ps: seq<Probability>, ls: seq<Probability>)
    requires |ps| == |ls| > 0
    ensures 0.0 <= Calibration(ps, ls) <= 1.0
    ensures 0.0 <= Brier(ps, ls) <= 1.0
    ensures Square(Calibration(ps, ls)) <= Brier(ps, ls)
  {
    var n, g, e, d := |ps| as real, Gaps(ps, ls, BINS), Sum(Errors(ps, ls)), Dot(Minus(ps, ls), Minus(ps, ls));
    GapsWithinErrors(ps, ls);
    ErrorsSquared(ps, ls);
    MeanSquare(ps, ls);
    SquaresNonNegative(Minus(ps, ls));
    SquareMonotone(g, e);
    Quotient(g, n);
    Quotient(d, n);
    SquareOverN(g, d, n);
    hide Gaps, Sum, Dot, Square;
  }

  lemma {:induction false} GapsCoverBias(ps: seq<Probability>, ls: seq<Probability>, k: nat)
    requires |ps| == |ls|
    ensures Abs(GapSum(ps, ls, k)) <= Gaps(ps, ls, k)
  {
    if k > 0 { GapsCoverBias(ps, ls, k - 1); }
  }

  function GapSum(ps: seq<Probability>, ls: seq<Probability>, k: nat): real
    requires |ps| == |ls|
  {
    if k == 0 then 0.0 else GapSum(ps, ls, k - 1) + Gap(k - 1, ps, ls)
  }

  lemma {:induction false} GapSumStep(ps: seq<Probability>, ls: seq<Probability>, k: nat)
    requires |ps| == |ls| > 0
    ensures var n := |ps| - 1;
      GapSum(ps, ls, k) == GapSum(ps[..n], ls[..n], k) + (if Bin(ps[n]) < k then Diff(ps[n], ls[n]) else 0.0)
  {
    hide Bin;
    if k > 0 { GapSumStep(ps, ls, k - 1); }
  }

  lemma {:induction false} GapSumTotal(ps: seq<Probability>, ls: seq<Probability>)
    requires |ps| == |ls|
    ensures GapSum(ps, ls, BINS) == Sum(Minus(ps, ls))
  {
    if ps == [] {
      EmptyGapSum(BINS);
    } else {
      var n := |ps| - 1;
      GapSumTotal(ps[..n], ls[..n]);
      GapSumStep(ps, ls, BINS);
      assert Minus(ps, ls)[..n] == Minus(ps[..n], ls[..n]);
      hide GapSum, Bin;
    }
  }

  lemma {:induction false} EmptyGapSum(k: nat)
    ensures GapSum([], [], k) == 0.0
  {
    if k > 0 { EmptyGapSum(k - 1); }
  }

  /** Binning cannot hide a bias: the error is at least the gap between the two overall means. */
  lemma CalibrationCoversBias(ps: seq<Probability>, ls: seq<Probability>)
    requires |ps| == |ls| > 0
    ensures Abs(Sum(Minus(ps, ls)) / |ps| as real) <= Calibration(ps, ls)
  {
    var x, n, g := Sum(Minus(ps, ls)), |ps| as real, Gaps(ps, ls, BINS);
    GapSumTotal(ps, ls);
    GapsCoverBias(ps, ls, BINS);
    AbsQuotient(x, n);
    QuotientMonotone(Abs(x), g, n);
    hide Gaps, Sum, Abs;
  }

  lemma QuotientMonotone(x: real, y: real, n: real)
    requires x <= y && n > 0.0
    ensures x / n <= y / n
  {
  }

  // ------------------------------------------------------------------ rank correlation

  ghost predicate Ascending(s: seq<real>) {
    forall i, j :: 0 <= i <= j < |s| ==> s[i] <= s[j]
  }

  function InsertReal(s: seq<real>, x: real): (r: seq<real>)
    ensures multiset(r) == multiset(s) + multiset{x}
  {
    if s == [] || s[|s| - 1] <= x then s + [x]
    else
      assert s == s[..|s| - 1] + [s[|s| - 1]];
      InsertReal(s[..|s| - 1], x) + [s[|s| - 1]]
  }

  function Sorted(s: seq<real>): (r: seq<real>)
    ensures multiset(r) == multiset(s)
  {
    if s == [] then []
    else
      assert s == s[..|s| - 1] + [s[|s| - 1]];
      InsertReal(Sorted(s[..|s| - 1]), s[|s| - 1])
  }

  /** How many of the values do not exceed `v`. */
  function CountUpTo(s: seq<real>, v: real): nat {
    if s == [] then 0 else CountUpTo(s[..|s| - 1], v) + (if s[|s| - 1] <= v then 1 else 0)
  }

  /** Each value's position in the sorted list; the last position of a repeated value wins. */
  function Positions(sorted: seq<real>): (m: map<real, int>)
    ensures forall v :: v in m <==> v in sorted
  {
    if sorted == [] then map[]
    else
      var n := |sorted| - 1;
      assert sorted == sorted[..n] + [sorted[n]];
      Positions(sorted[..n])[sorted[n] := n]
  }

  function Ranks(s: seq<real>): (r: seq<real>)
    ensures |r| == |s|
  {
    var positions := Positions(Sorted(s));
    seq(|s|, i requires 0 <= i < |s| => SortedHas(s, i); positions[s[i]] as real)
  }

  lemma SortedHas(s: seq<real>, i: nat)
    requires i < |s|
    ensures s[i] in Positions(Sorted(s))
  {
    assert s[i] in multiset(s);
    assert s[i] in multiset(Sorted(s));
  }

  lemma AscendingSnoc(s: seq<real>, x: real)
    requires Ascending(s) && (s == [] || s[|s| - 1] <= x)
    ensures Ascending(s + [x])
  {
  }

  /** Inserting keeps a list ascending, and its largest element is the old one or the new one. */
  lemma {:induction false} InsertKeepsAscending(s: seq<real>, x: real)
    requires Ascending(s)
    ensures var r := InsertReal(s, x);
      |r| > 0 && Ascending(r) && (r[|r| - 1] == x || (s != [] && r[|r| - 1] == s[|s| - 1]))
  {
    if s == [] || s[|s| - 1] <= x {
      AscendingSnoc(s, x);
    } else {
      var n := |s| - 1;
      InsertKeepsAscending(s[..n], x);
      AscendingSnoc(InsertReal(s[..n], x), s[n]);
    }
  }

  lemma CountSnoc(s: seq<real>, x: real, v: real)
    ensures CountUpTo(s + [x], v) == CountUpTo(s, v) + (if x <= v then 1 else 0)
  {
    assert (s + [x])[..|s|] == s;
  }

  lemma {:induction false} InsertCounts(s: seq<real>, x: real, v: real)
    ensures CountUpTo(InsertReal(s, x), v) == CountUpTo(s, v) + (if x <= v then 1 else 0)
  {
    if s == [] || s[|s| - 1] <= x {
      CountSnoc(s, x, v);
    } else {
      var n := |s| - 1;
      InsertCounts(s[..n], x, v);
      CountSnoc(InsertReal(s[..n], x), s[n], v);
    }
  }

  lemma {:induction false} SortedAscending(s: seq<real>, v: real)
    ensures Ascending(Sorted(s))
    ensures CountUpTo(Sorted(s), v) == CountUpTo(s, v)
  {
    if s != [] {
      SortedAscending(s[..|s| - 1], v);
      InsertKeepsAscending(Sorted(s[..|s| - 1]), s[|s| - 1]);
      InsertCounts(Sorted(s[..|s| - 1]), s[|s| - 1], v);
    }
  }

  lemma {:induction false} PositionIsCount(sorted: seq<real>, v: real)
    requires Ascending(sorted) && v in sorted
    ensures Positions(sorted)[v] == CountUpTo(sorted, v) - 1
  {
    var n := |sorted| - 1;
    if v == sorted[n] {
      AllCounted(sorted, v);
    } else {
      assert sorted == sorted[..n] + [sorted[n]];
      PositionIsCount(sorted[..n], v);
    }
  }

  lemma {:induction false} AllCounted(s: seq<real>, v: real)
    requires forall i :: 0 <= i < |s| ==> s[i] <= v
    ensures CountUpTo(s, v) == |s|
  {
    if s != [] { AllCounted(s[..|s| - 1], v); }
  }

  /** A value's rank is the number of values not above it, less one: ties share the highest rank. */
  lemma RankIsCount(s: seq<real>, i: nat)
    requires i < |s|
    ensures Ranks(s)[i] == (CountUpTo(s, s[i]) - 1) as real
  {
    SortedHas(s, i);
    SortedAscending(s, s[i]);
    PositionIsCount(Sorted(s), s[i]);
  }

  lemma {:induction false} CountMonotone(s: seq<real>, v: real, w: real)
    requires v <= w
    ensures CountUpTo(s, v) <= CountUpTo(s, w)
    ensures v < w && w in s ==> CountUpTo(s, v) < CountUpTo(s, w)
  {
    if s != [] {
      CountMonotone(s[..|s| - 1], v, w);
      assert s == s[..|s| - 1] + [s[|s| - 1]];
    }
  }

  lemma RankKeepsOrder(s: seq<real>, i: nat, j: nat)
    requires i < |s| && j < |s|
    ensures Ranks(s)[i] <= Ranks(s)[j] <==> s[i] <= s[j]
  {
    RankIsCount(s, i);
    RankIsCount(s, j);
    if s[i] <= s[j] { CountMonotone(s, s[i], s[j]); } else { CountMonotone(s, s[j], s[i]); }
  }

  ghost predicate SameOrder(a: seq<real>, b: seq<real>) {
    |a| == |b| && forall i, j :: 0 <= i < |a| && 0 <= j < |a| ==> (a[i] <= a[j] <==> b[i] <= b[j])
  }

  lemma {:induction false} CountsAgree(a: seq<real>, b: seq<real>, k: nat, i: nat)
    requires SameOrder(a, b) && k <= |a| && i < |a|
    ensures CountUpTo(a[..k], a[i]) == CountUpTo(b[..k], b[i])
  {
    if k > 0 {
      CountsAgree(a, b, k - 1, i);
      TakeSnoc(a, k - 1);
      TakeSnoc(b, k - 1);
    }
  }

  lemma RankAgrees(a: seq<real>, b: seq<real>, i: nat)
    requires SameOrder(a, b) && i < |a|
    ensures Ranks(a)[i] == Ranks(b)[i]
  {
    RankIsCount(a, i);
    RankIsCount(b, i);
    hide Ranks, CountUpTo;
    CountsAgree(a, b, |a|, i);
    assert a[..|a|] == a && b[..|b|] == b;
  }

  /** Only the order of the values matters. */
  lemma RanksAgree(a: seq<real>, b: seq<real>)
    requires SameOrder(a, b)
    ensures Ranks(a) == Ranks(b)
  {
    forall i | 0 <= i < |a| ensures Ranks(a)[i] == Ranks(b)[i] {
      RankAgrees(a, b, i);
    }
    hide Ranks;
  }

  function Centred(s: seq<real>): (r: seq<real>)
    requires s != []
    ensures |r| == |s|
  {
    var mean := Sum(s) / |s| as real;
    seq(|s|, i requires 0 <= i < |s| => s[i] - mean)
  }

  /** The correlation is `numerator` over the root of `square`, or zero if `square` is zero. */
  datatype Correlation = Correlation(numerator: real, square: real)

  function RankCorrelation(left: seq<real>, right: seq<real>): Option<Correlation> {
    if |left| < 2 || |left| != |right| then None
    else
      var a, b := Centred(Ranks(left)), Centred(Ranks(right));
      Some(Correlation(Dot(a, b), Times(Dot(a, a), Dot(b, b))))
  }

  /** The correlation lies between minus one and one. */
  lemma CorrelationBounded(left: seq<real>, right: seq<real>)
    requires |left| == |right| >= 2
    ensures var c := RankCorrelation(left, right).value;
      Square(c.numerator) <= c.square && (c.square == 0.0 ==> c.numerator == 0.0)
  {
    var a, b := Centred(Ranks(left)), Centred(Ranks(right));
    CauchySchwarz(a, b);
    SquareNonNegative(Dot(a, b));
    hide Dot, Times, Ranks, Centred;
  }

  lemma ScaledOrder(x: real, y: real, p: real, q: real, a: real, b: real)
    requires x > 0.0 && y > 0.0 && Times(x, p) == Times(y, q) && Times(x, a) == Times(y, b)
    ensures p <= a <==> q <= b
  {
    assert x * (a - p) == y * (b - q);
    if a >= p { assert x * (a - p) >= 0.0; } else { assert x * (a - p) < 0.0; }
    if b >= q { assert y * (b - q) >= 0.0; } else { assert y * (b - q) < 0.0; }
  }

  /** It is exactly one when, and only when, both lists put the samples in the same order, ties included. */
  lemma PerfectCorrelationIff(left: seq<real>, right: seq<real>)
    requires |left| == |right| >= 2 && RankCorrelation(left, right).value.square > 0.0
    ensures var c := RankCorrelation(left, right).value;
      c.numerator > 0.0 && Square(c.numerator) == c.square <==> SameOrder(left, right)
  {
    var a, b := Centred(Ranks(left)), Centred(Ranks(right));
    CauchySchwarz(a, b);
    SquaresNonNegative(b);
    if SameOrder(left, right) {
      RanksAgree(left, right);
      SquaresNonNegative(a);
      assert a == b;
      hide Dot, Ranks, Centred, SameOrder;
      ZeroSquare(Dot(a, a));
    } else if Dot(a, b) > 0.0 && Square(Dot(a, b)) == Times(Dot(a, a), Dot(b, b)) {
      hide Dot, Ranks;
      ZeroTimes(Dot(a, a), Dot(b, b));
      forall i, j | 0 <= i < |left| && 0 <= j < |left| ensures left[i] <= left[j] <==> right[i] <= right[j] {
        hide Times;
        ScaledOrder(Dot(b, b), Dot(a, b), a[i], b[i], a[j], b[j]);
        RankKeepsOrder(left, i, j);
        RankKeepsOrder(right, i, j);
      }
    }
  }

  lemma ZeroSquare(x: real)
    requires x >= 0.0
    ensures Times(x, x) > 0.0 ==> x > 0.0
  {
  }

  lemma ZeroTimes(x: real, y: real)
    requires y >= 0.0
    ensures Times(x, y) > 0.0 ==> y > 0.0
  {
  }

  // ------------------------------------------------------------------------- drawdown

  function Net(values: seq<real>, charge: real): (r: seq<real>)
    ensures |r| == |values|
  {
    seq(|values|, i requires 0 <= i < |values| => values[i] - charge)
  }

  function Peak(steps: seq<real>): real {
    if steps == [] then 0.0 else Max(Peak(steps[..|steps| - 1]), Sum(steps))
  }

  function Drawdown(steps: seq<real>): real {
    if steps == [] then 0.0 else Max(Drawdown(steps[..|steps| - 1]), Peak(steps) - Sum(steps))
  }

  method MaxDrawdown(values: seq<real>, charge: real) returns (drawdown: real)
    ensures drawdown == Drawdown(Net(values, charge))
  {
    var running, peak := 0.0, 0.0;
    drawdown := 0.0;
    ghost var steps := Net(values, charge);
    assert steps[..0] == [];
    for i := 0 to |values|
      invariant running == Sum(steps[..i]) && peak == Peak(steps[..i]) && drawdown == Drawdown(steps[..i])
    {
      TakeSnoc(steps, i);
      running := running + (values[i] - charge);
      peak := Max(peak, running);
      drawdown := Max(drawdown, peak - running);
    }
    assert steps[..|values|] == steps;
  }

  /** The cumulative sum after `k` steps. */
  function Cumulative(steps: seq<real>, k: nat): real
    requires k <= |steps|
  {
    Sum(steps[..k])
  }

  lemma CumulativePrefix(steps: seq<real>, n: nat, k: nat)
    requires k <= n <= |steps|
    ensures Cumulative(steps[..n], k) == Cumulative(steps, k)
  {
    assert steps[..n][..k] == steps[..k];
  }

  lemma CumulativeAll(steps: seq<real>)
    ensures Cumulative(steps, |steps|) == Sum(steps)
  {
    assert steps[..|steps|] == steps;
  }

  ghost predicate Highest(steps: seq<real>, peak: real) {
    && (forall i :: 0 <= i <= |steps| ==> Cumulative(steps, i) <= peak)
    && exists i :: 0 <= i <= |steps| && Cumulative(steps, i) == peak
  }

  ghost predicate Drop(steps: seq<real>, i: nat, j: nat, d: real)
    requires i <= j <= |steps|
  {
    Cumulative(steps, i) - Cumulative(steps, j) == d
  }

  ghost predicate Bounded(steps: seq<real>, d: real) {
    forall i, j :: 0 <= i <= j <= |steps| ==> Cumulative(steps, i) - Cumulative(steps, j) <= d
  }

  ghost predicate Reached(steps: seq<real>, d: real) {
    exists i, j :: 0 <= i <= j <= |steps| && Drop(steps, i, j, d)
  }

  ghost predicate Deepest(steps: seq<real>, d: real) {
    Bounded(steps, d) && Reached(steps, d)
  }

  /** The peak is the largest cumulative sum so far, the empty one included. */
  lemma {:induction false} PeakIsHighest(steps: seq<real>)
    ensures Highest(steps, Peak(steps))
  {
    CumulativeAll(steps);
    if steps == [] {
      assert Cumulative(steps, 0) == Peak(steps);
    } else {
      var n := |steps| - 1;
      PeakIsHighest(steps[..n]);
      hide Cumulative, Sum;
      forall i | 0 <= i <= n ensures Cumulative(steps[..n], i) == Cumulative(steps, i) {
        CumulativePrefix(steps, n, i);
      }
      var i :| 0 <= i <= n && Cumulative(steps[..n], i) == Peak(steps[..n]);
      var k := if Peak(steps) == Peak(steps[..n]) then i else n + 1;
      assert Cumulative(steps, k) == Peak(steps);
    }
  }

  lemma BoundedStep(steps: seq<real>, before: real, peak: real)
    requires steps != [] && Bounded(steps[..|steps| - 1], before) && Highest(steps, peak)
    ensures Bounded(steps, Max(before, peak - Sum(steps)))
  {
    hide Cumulative, Sum;
    var n := |steps| - 1;
    CumulativeAll(steps);
    forall i, j | 0 <= i <= j <= |steps|
      ensures Cumulative(steps, i) - Cumulative(steps, j) <= Max(before, peak - Sum(steps))
    {
      if j <= n {
        CumulativePrefix(steps, n, i);
        CumulativePrefix(steps, n, j);
      }
    }
  }

  lemma ReachedKeeps(steps: seq<real>, n: nat, d: real)
    requires n <= |steps| && Reached(steps[..n], d)
    ensures Reached(steps, d)
  {
    hide Cumulative;
    var i, j :| 0 <= i <= j <= n && Drop(steps[..n], i, j, d);
    CumulativePrefix(steps, n, i);
    CumulativePrefix(steps, n, j);
    assert Drop(steps, i, j, d);
  }

  lemma ReachedNow(steps: seq<real>, peak: real)
    requires Highest(steps, peak)
    ensures Reached(steps, peak - Sum(steps))
  {
    hide Sum, Cumulative;
    CumulativeAll(steps);
    var k :| 0 <= k <= |steps| && Cumulative(steps, k) == peak;
    assert Drop(steps, k, |steps|, peak - Sum(steps));
  }

  lemma DeepestStep(steps: seq<real>, before: real, peak: real)
    requires steps != [] && Deepest(steps[..|steps| - 1], before) && Highest(steps, peak)
    ensures Deepest(steps, Max(before, peak - Sum(steps)))
  {
    hide Sum, Bounded, Highest, Reached;
    BoundedStep(steps, before, peak);
    ReachedKeeps(steps, |steps| - 1, before);
    ReachedNow(steps, peak);
  }

  /** The loop's answer is the largest drop from an earlier to a later cumulative sum. */
  lemma {:induction false} DrawdownIsDeepest(steps: seq<real>)
    ensures Deepest(steps, Drawdown(steps))
  {
    if steps == [] {
      assert Drop(steps, 0, 0, 0.0);
    } else {
      DrawdownIsDeepest(steps[..|steps| - 1]);
      PeakIsHighest(steps);
      hide Deepest, Highest, Sum, Max;
      DeepestStep(steps, Drawdown(steps[..|steps| - 1]), Peak(steps));
    }
  }
}
