/** Next-day price plans and what they say about a live quote. Exact prices are real numbers; rounded
    ones are whole ticks of 0.01. */
module PriceGuidance {
  import opened Wrappers
  import opened Basics
  import opened Rounding
  import opened Lots

  datatype Bars = Bars(close: real, atr14: real, ma20: real, ma60: real, support20: real, factor: real)

  /** What the feature builder lets through. */
  type Features = b: Bars |
    b.close > 0.0 && b.atr14 > 0.0 && b.ma20 > 0.0 && b.ma60 > 0.0 && b.support20 > 0.0 && b.factor > 0.0
    witness Bars(1.0, 1.0, 1.0, 1.0, 1.0, 1.0)

  /** The price of a tick count. */
  function At(t: int): real { t as real / 100.0 }

  function Up(x: real): int { -((-x * 100.0).Floor) }

  function Down(x: real): int { (x * 100.0).Floor }

  /** An adjusted price as traded, to the nearest tick. */
  function InTicks(f: Features, x: real): real { x * f.factor * 100.0 }

  function Actual(f: Features, x: real): real { At(HalfEven(InTicks(f, x))) }

  /** The boundaries before rounding. */
  datatype Exact = Exact(lower: real, upper: real, maximum: real, invalidation: real, protection: real,
      reduceLower: real, reduceUpper: real)

  function Boundaries(f: Features, previous: Option<real>): Exact {
    var atr, ma20 := Actual(f, f.atr14), Actual(f, f.ma20);
    var anchor := Min(f.close, ma20 + 0.5 * atr);
    var upper := anchor + 0.25 * atr;
    var invalidation := Max(Max(Actual(f, f.support20) - 0.25 * atr, Actual(f, f.ma60) - 0.5 * atr),
        f.close - 2.0 * atr);
    Exact(
      anchor - 0.5 * atr, upper, Min(upper, f.close * 1.01), invalidation,
      if previous.Some? then Max(previous.value, invalidation) else invalidation, ma20 + 2.0 * atr, ma20 + 3.0 * atr)
  }

  /** A traded price is the adjusted one times the factor, to the nearest tick. */
  lemma ActualIsNearest(f: Features, x: real)
    ensures -0.005 <= Actual(f, x) - x * f.factor <= 0.005
  {
    var y := x * f.factor * 100.0;
    assert y / 100.0 == x * f.factor;
    hide HalfEven;
  }

  ghost predicate LargestOf(x: real, a: real, b: real, c: real) {
    x >= a && x >= b && x >= c && (x == a || x == b || x == c)
  }

  ghost predicate SmallerOf(x: real, a: real, b: real) { x <= a && x <= b && (x == a || x == b) }

  /** How the exact boundaries lie to the close, the averages and the range: the anchor is the close or half a range
      above the 20-day average; entry reaches from half a range below it to a quarter above, and no more than one
      percent above the close; the invalidation is the highest of three supports. */
  lemma BoundariesLie(f: Features, previous: Option<real>)
    ensures var e, atr, ma20 := Boundaries(f, previous), Actual(f, f.atr14), Actual(f, f.ma20);
      && SmallerOf(e.lower + 0.5 * atr, f.close, ma20 + 0.5 * atr)
      && e.upper == e.lower + 0.75 * atr && SmallerOf(e.maximum, e.upper, f.close + 0.01 * f.close)
      && LargestOf(e.invalidation, Actual(f, f.support20) - 0.25 * atr, Actual(f, f.ma60) - 0.5 * atr,
          f.close - 2.0 * atr)
      && e.protection == (if previous.Some? && previous.value > e.invalidation then previous.value else e.invalidation)
      && e.reduceLower == ma20 + 2.0 * atr && e.reduceUpper == e.reduceLower + atr
  {
    hide Actual;
  }

  datatype Reason =
    | InvalidationNotBelowEntry | EntryRangeInverted | EntryAboveMaximum | BoundariesInconsistent
    | RiskDistanceTooLow | RiskDistanceTooHigh

  datatype Plan = Plan(
    lower: int, upper: int, maximum: int, invalidation: int, protection: int, reduceLower: int, reduceUpper: int,
        promoted: bool)

  datatype Rejection = Rejected(reasons: seq<Reason>) | NotPositive | ReduceInverted

  function RiskDistance(close: real, protection: int): real
    requires close > 0.0
  {
    (close - At(protection)) / close
  }

  function BoundaryReasons(lower: int, upper: int, maximum: int, invalidation: int): seq<Reason> {
    if invalidation < lower <= upper <= maximum then []
    else
      var reasons :=
        (if invalidation >= lower then [InvalidationNotBelowEntry] else []) +
        (if lower > upper then [EntryRangeInverted] else []) +
        (if upper > maximum then [EntryAboveMaximum] else []);
      if reasons == [] then [BoundariesInconsistent] else reasons
  }

  function RiskReasons(distance: real): seq<Reason> {
    if 0.02 <= distance <= 0.12 then []
    else if distance < 0.02 then [RiskDistanceTooLow]
    else [RiskDistanceTooHigh]
  }

  /** The checks the plan's own constructor repeats, in its order. */
  function Frozen(p: Plan): Result<Plan, Rejection> {
    if p.lower <= 0 || p.upper <= 0 || p.maximum <= 0 || p.invalidation <= 0 || p.protection <= 0 ||
       p.reduceLower <= 0 || p.reduceUpper <= 0 then Err(NotPositive)
    else if !(p.invalidation < p.lower <= p.upper <= p.maximum) then Err(Rejected([BoundariesInconsistent]))
    else if p.reduceLower > p.reduceUpper then Err(ReduceInverted)
    else Ok(p)
  }

  function CandidatePlan(f: Features, previous: Option<real>, promoted: bool): Result<Plan, Rejection> {
    var e := Boundaries(f, previous);
    var lower, invalidation, protection := Up(e.lower), Up(e.invalidation), Up(e.protection);
    var upper, maximum := Down(e.upper), Down(e.maximum);
    var reasons := BoundaryReasons(lower, upper, maximum, invalidation) +
        RiskReasons(RiskDistance(f.close, protection));
    if reasons != [] then Err(Rejected(reasons))
    else
      Frozen(Plan(lower, upper, maximum, invalidation, protection, HalfUp(e.reduceLower * 100.0),
          HalfUp(e.reduceUpper * 100.0), promoted))
  }

  // -------------------------------------------------------------------------- rounding

  /** Rounding up and down are the nearest ticks on the safe side. */
  lemma UpIff(x: real, t: int)
    ensures x <= At(t) <==> Up(x) <= t
  {
  }

  lemma DownIff(x: real, t: int)
    ensures At(t) <= x <==> t <= Down(x)
  {
  }

  lemma RoundedAreClose(x: real)
    ensures x <= At(Up(x)) < x + 0.01 && x - 0.01 < At(Down(x)) <= x
  {
  }

  // ------------------------------------------------------------------- emitted plans

  /** Every emitted plan: its entry range ends at the maximum price, its boundaries lie on the safe
      side of the exact ones, it never lowers the protection, and it risks 2 to 12 percent. */
  lemma PlanIsSound(f: Features, previous: Option<real>, promoted: bool)
    requires CandidatePlan(f, previous, promoted).Ok?
    ensures var p, e := CandidatePlan(f, previous, promoted).value, Boundaries(f, previous);
      && 0 < p.invalidation < p.lower <= p.upper == p.maximum
      && e.invalidation <= At(p.invalidation) && e.lower <= At(p.lower) && At(p.upper) <= e.upper
      && At(p.maximum) <= f.close * 1.01
      && p.protection >= p.invalidation && (previous.Some? ==> At(p.protection) >= previous.value)
      && 0.02 * f.close <= f.close - At(p.protection) <= 0.12 * f.close
      && 0 < p.reduceLower <= p.reduceUpper
  {
    var e := Boundaries(f, previous);
    var p := CandidatePlan(f, previous, promoted).value;
    BoundariesOrdered(f, previous);
    hide Boundaries;
    assert p.lower == Up(e.lower) && p.invalidation == Up(e.invalidation) && p.protection == Up(e.protection);
    assert p.upper == Down(e.upper) && p.maximum == Down(e.maximum);
    RoundedAreClose(e.lower);
    RoundedAreClose(e.upper);
    RoundedAreClose(e.maximum);
    RoundedAreClose(e.invalidation);
    RoundedAreClose(e.protection);
    UpIff(e.invalidation, p.protection);
    DownIff(e.upper, p.maximum);
    DistanceBounds(f.close, p.protection);
    hide Up, Down, At, HalfUp, RiskDistance;
  }

  lemma BoundariesOrdered(f: Features, previous: Option<real>)
    ensures var e := Boundaries(f, previous);
      && e.maximum <= e.upper && e.maximum <= f.close * 1.01
      && e.invalidation <= e.protection && (previous.Some? ==> previous.value <= e.protection)
  {
    hide HalfEven;
  }

  lemma DistanceBounds(close: real, protection: int)
    requires close > 0.0
    ensures 0.02 <= RiskDistance(close, protection) <= 0.12 <==> 0.02 * close <= close - At(protection) <= 0.12 * close
  {
    hide At;
    var loss := close - At(protection);
    AtLeast(loss, close, 0.02);
    AtMost(loss, close, 0.12);
  }

  /** Some tick at or above `a` lies below `b`. */
  ghost predicate TickFrom(a: real, b: real) { exists t: int :: a <= At(t) < b }

  ghost predicate TickBetween(a: real, b: real) { exists t: int :: a <= At(t) <= b }

  ghost predicate TickAbove(a: real, b: real) { exists t: int :: a < At(t) <= b }

  lemma TickFromIff(a: real, b: real)
    ensures TickFrom(a, b) <==> Up(a) < Up(b)
  {
    UpIff(a, Up(a));
    UpIff(b, Up(a));
    if TickFrom(a, b) {
      var t: int :| a <= At(t) < b;
      UpIff(a, t);
      UpIff(b, t);
    }
    hide At, Up;
    if Up(a) < Up(b) { assert a <= At(Up(a)) < b; }
  }

  lemma TickBetweenIff(a: real, b: real)
    ensures TickBetween(a, b) <==> Up(a) <= Down(b)
  {
    UpIff(a, Up(a));
    DownIff(b, Up(a));
    if TickBetween(a, b) {
      var t: int :| a <= At(t) <= b;
      UpIff(a, t);
      DownIff(b, t);
    }
    hide At, Up, Down;
    if Up(a) <= Down(b) { assert a <= At(Up(a)) <= b; }
  }

  lemma TickAboveIff(a: real, b: real)
    ensures TickAbove(a, b) <==> Down(a) < Down(b)
  {
    DownIff(a, Down(b));
    DownIff(b, Down(b));
    if TickAbove(a, b) {
      var t: int :| a < At(t) <= b;
      DownIff(a, t);
      DownIff(b, t);
    }
    hide At, Down;
    if Down(a) < Down(b) { assert a < At(Down(b)) <= b; }
  }

  /** What the reasons mean on the tick grid; the catch-all reason is never given. */
  lemma ReasonsIff(f: Features, previous: Option<real>)
    ensures var e := Boundaries(f, previous);
      var reasons := BoundaryReasons(Up(e.lower), Down(e.upper), Down(e.maximum), Up(e.invalidation));
      && (InvalidationNotBelowEntry in reasons <==> !TickFrom(e.invalidation, e.lower))
      && (EntryRangeInverted in reasons <==> !TickBetween(e.lower, e.upper))
      && (EntryAboveMaximum in reasons <==> TickAbove(f.close * 1.01, e.upper))
      && BoundariesInconsistent !in reasons
  {
    var e := Boundaries(f, previous);
    TickFromIff(e.invalidation, e.lower);
    TickBetweenIff(e.lower, e.upper);
    TickAboveIff(e.maximum, e.upper);
    MaximumTicks(f, previous);
    hide Boundaries, Up, Down, TickFrom, TickBetween, TickAbove;
  }

  lemma MaximumTicks(f: Features, previous: Option<real>)
    ensures var e := Boundaries(f, previous); TickAbove(e.maximum, e.upper) <==> TickAbove(f.close * 1.01, e.upper)
  {
    hide HalfEven, At;
  }

  /** A plan is emitted exactly when a tick lies from the invalidation price up to below the entry range, one
      lies in the range, none of the range lies above 1.01 times the close, the loss down to the rounded
      protection is 2 to 12 percent, and nothing rounds to zero. */
  lemma EmittedIff(f: Features, previous: Option<real>, promoted: bool)
    ensures var e := Boundaries(f, previous);
      CandidatePlan(f, previous, promoted).Ok? <==>
        && TickFrom(e.invalidation, e.lower) && TickBetween(e.lower, e.upper) && !TickAbove(f.close * 1.01, e.upper)
        && 0.02 * f.close <= f.close - At(Up(e.protection)) <= 0.12 * f.close
        && e.invalidation > 0.0 && HalfUp(e.reduceLower * 100.0) > 0
  {
    var e := Boundaries(f, previous);
    hide *;
    ReasonsIff(f, previous);
    BoundariesOrdered(f, previous);
    UpMonotone(e.invalidation, e.protection);
    ReduceOrdered(f, previous);
    AcceptedWhen(f, previous, promoted);
    NoReasons(Up(e.lower), Down(e.upper), Down(e.maximum), Up(e.invalidation));
    UpPositive(e.invalidation);
  }

  lemma UpPositive(x: real)
    ensures x > 0.0 <==> Up(x) > 0
  {
    UpIff(x, 0);
  }

  /** The three lists of checks, put together. */
  lemma AcceptedWhen(f: Features, previous: Option<real>, promoted: bool)
    ensures var e := Boundaries(f, previous);
      CandidatePlan(f, previous, promoted).Ok? <==>
        && BoundaryReasons(Up(e.lower), Down(e.upper), Down(e.maximum), Up(e.invalidation)) == []
        && 0.02 * f.close <= f.close - At(Up(e.protection)) <= 0.12 * f.close
        && Up(e.invalidation) > 0 && Up(e.protection) > 0
        && 0 < HalfUp(e.reduceLower * 100.0) <= HalfUp(e.reduceUpper * 100.0)
  {
    hide Boundaries, Up, Down, HalfUp, RiskDistance, At, BoundaryReasons, RiskReasons, Frozen;
    var e := Boundaries(f, previous);
    var lower, invalidation, protection := Up(e.lower), Up(e.invalidation), Up(e.protection);
    var upper, maximum := Down(e.upper), Down(e.maximum);
    var boundary, risk := BoundaryReasons(lower, upper, maximum, invalidation),
        RiskReasons(RiskDistance(f.close, protection));
    RiskReasonsIff(f.close, protection);
    NoneOfBoth(boundary, risk);
    InOrder(lower, upper, maximum, invalidation);
    FrozenIff(Plan(lower, upper, maximum, invalidation, protection, HalfUp(e.reduceLower * 100.0),
        HalfUp(e.reduceUpper * 100.0), promoted));
  }

  lemma NoneOfBoth(a: seq<Reason>, b: seq<Reason>)
    ensures a + b == [] <==> a == [] && b == []
  {
    if a + b == [] { assert |a + b| == |a| + |b|; }
  }

  lemma RiskReasonsIff(close: real, protection: int)
    requires close > 0.0
    ensures RiskReasons(RiskDistance(close, protection)) == [] <==>
        0.02 * close <= close - At(protection) <= 0.12 * close
  {
    DistanceBounds(close, protection);
    hide RiskDistance, At;
  }

  lemma InOrder(lower: int, upper: int, maximum: int, invalidation: int)
    ensures BoundaryReasons(lower, upper, maximum, invalidation) == [] <==> invalidation < lower <= upper <= maximum
  {
  }

  lemma FrozenIff(p: Plan)
    ensures Frozen(p).Ok? <==>
      && 0 < p.invalidation < p.lower <= p.upper <= p.maximum && 0 < p.protection && 0 < p.reduceLower <= p.reduceUpper
    ensures Frozen(p).Ok? ==> Frozen(p).value == p
  {
  }

  lemma UpMonotone(x: real, y: real)
    requires x <= y
    ensures Up(x) <= Up(y)
  {
  }

  lemma ReduceOrdered(f: Features, previous: Option<real>)
    ensures var e := Boundaries(f, previous); HalfUp(e.reduceLower * 100.0) <= HalfUp(e.reduceUpper * 100.0)
  {
    var e := Boundaries(f, previous);
    ActualNonNegative(f, f.atr14);
    hide HalfEven, At, HalfUp;
    HalfUpMonotone(e.reduceLower * 100.0, e.reduceUpper * 100.0);
  }

  lemma ActualNonNegative(f: Features, x: real)
    requires x > 0.0
    ensures Actual(f, x) >= 0.0
  {
    assert x * f.factor > 0.0;
  }

  lemma NoReasons(lower: int, upper: int, maximum: int, invalidation: int)
    ensures var reasons := BoundaryReasons(lower, upper, maximum, invalidation);
      reasons == [] <==>
        InvalidationNotBelowEntry !in reasons && EntryRangeInverted !in reasons && EntryAboveMaximum !in reasons &&
        BoundariesInconsistent !in reasons
  {
  }

  lemma RiskReasonsAre(close: real, protection: int)
    requires close > 0.0
    ensures var reasons, loss := RiskReasons(RiskDistance(close, protection)), close - At(protection);
      && (RiskDistanceTooLow in reasons <==> loss < 0.02 * close)
      && (RiskDistanceTooHigh in reasons <==> loss > 0.12 * close)
      && forall reason :: reason in reasons ==> reason in {RiskDistanceTooLow, RiskDistanceTooHigh}
  {
    hide At;
    AtLeast(close - At(protection), close, 0.02);
    AtMost(close - At(protection), close, 0.12);
    hide RiskDistance;
  }

  lemma BoundaryReasonsAre(lower: int, upper: int, maximum: int, invalidation: int)
    ensures var reasons := BoundaryReasons(lower, upper, maximum, invalidation);
      RiskDistanceTooLow !in reasons && RiskDistanceTooHigh !in reasons
  {
  }

  lemma FrozenError(p: Plan)
    requires p.invalidation < p.lower <= p.upper <= p.maximum && p.reduceLower <= p.reduceUpper
    requires p.invalidation <= p.protection && Frozen(p).Err?
    ensures Frozen(p).error == NotPositive && (p.invalidation <= 0 || p.reduceLower <= 0)
  {
  }

  /** Why a plan is not emitted: each reason given is true and each true one is given; only when there is none can
      a price that rounds to zero be the cause, and the reducing range never is. */
  lemma RejectionIff(f: Features, previous: Option<real>, promoted: bool)
    requires CandidatePlan(f, previous, promoted).Err?
    ensures var e, error := Boundaries(f, previous), CandidatePlan(f, previous, promoted).error;
      var loss := f.close - At(Up(e.protection));
      && !error.ReduceInverted?
      && (error.NotPositive? ==> e.invalidation <= 0.0 || HalfUp(e.reduceLower * 100.0) <= 0)
      && (error.Rejected? ==>
            && error.reasons != [] && BoundariesInconsistent !in error.reasons
            && (InvalidationNotBelowEntry in error.reasons <==> !TickFrom(e.invalidation, e.lower))
            && (EntryRangeInverted in error.reasons <==> !TickBetween(e.lower, e.upper))
            && (EntryAboveMaximum in error.reasons <==> TickAbove(f.close * 1.01, e.upper))
            && (RiskDistanceTooLow in error.reasons <==> loss < 0.02 * f.close)
            && (RiskDistanceTooHigh in error.reasons <==> loss > 0.12 * f.close))
  {
    var e := Boundaries(f, previous);
    var lower, upper, maximum, invalidation := Up(e.lower), Down(e.upper), Down(e.maximum), Up(e.invalidation);
    hide At, HalfUp, Up, Down, TickFrom, TickBetween, TickAbove, Boundaries, RiskDistance, RiskReasons,
      BoundaryReasons, Frozen;
    ReasonsIff(f, previous);
    RiskReasonsAre(f.close, Up(e.protection));
    BoundaryReasonsAre(lower, upper, maximum, invalidation);
    BoundariesOrdered(f, previous);
    UpMonotone(e.invalidation, e.protection);
    ReduceOrdered(f, previous);
    InOrder(lower, upper, maximum, invalidation);
    UpPositive(e.invalidation);
    var boundary, risk := BoundaryReasons(lower, upper, maximum, invalidation),
        RiskReasons(RiskDistance(f.close, Up(e.protection)));
    NoneOfBoth(boundary, risk);
    if boundary + risk == [] {
      FrozenError(Plan(lower, upper, maximum, invalidation, Up(e.protection), HalfUp(e.reduceLower * 100.0),
          HalfUp(e.reduceUpper * 100.0), promoted));
    }
  }

  // --------------------------------------------------------------------- named plans

  lemma WholeTicks(f: Features, x: real, t: int)
    requires InTicks(f, x) == t as real
    ensures Actual(f, x) == At(t)
  {
    hide HalfEven, At;
    HalfEvenOfInt(InTicks(f, x), t);
  }

  /** A close of 10.00 with a range of 0.40: the close anchors the entry, the 20-day low invalidates it. */
  lemma PlanAtTheClose()
    ensures CandidatePlan(Bars(10.0, 0.4, 9.9, 9.0, 9.6, 1.0), None, false) ==
            Ok(Plan(980, 1010, 1010, 950, 950, 1070, 1110, false))
  {
    var f: Features := Bars(10.0, 0.4, 9.9, 9.0, 9.6, 1.0);
    WholeTicks(f, 0.4, 40);
    WholeTicks(f, 9.9, 990);
    WholeTicks(f, 9.0, 900);
    WholeTicks(f, 9.6, 960);
    hide Actual, HalfEven;
    var e := Boundaries(f, None);
    assert e == Exact(9.8, 10.1, 10.1, 9.5, 9.5, 10.7, 11.1);
    hide Boundaries;
    assert RiskDistance(10.0, 950) == 0.05;
  }

  /** The same close, adjusted by two: the 20-day average anchors the entry, the 60-day average invalidates it, and the
      earlier protection of 9.30 is kept. */
  lemma PlanBelowTheClose()
    ensures CandidatePlan(Bars(10.0, 0.2, 4.7, 4.7, 4.6, 2.0), Some(9.3), true) ==
            Ok(Plan(940, 970, 970, 920, 930, 1020, 1060, true))
  {
    var f: Features := Bars(10.0, 0.2, 4.7, 4.7, 4.6, 2.0);
    WholeTicks(f, 0.2, 40);
    WholeTicks(f, 4.7, 940);
    WholeTicks(f, 4.6, 920);
    hide Actual, HalfEven;
    var e := Boundaries(f, Some(9.3));
    assert e == Exact(9.4, 9.7, 9.7, 9.2, 9.3, 10.2, 10.6);
    hide Boundaries;
    assert RiskDistance(10.0, 930) == 0.07;
  }

  // ------------------------------------------------------------ protection over time

  /** Plans day after day, each given the protection of the last one that was emitted. */
  function Protections(days: seq<Features>): (r: seq<int>)
    ensures |r| <= |days|
  {
    if days == [] then []
    else
      var before := Protections(days[..|days| - 1]);
      var previous := if before == [] then None else Some(At(before[|before| - 1]));
      var plan := CandidatePlan(days[|days| - 1], previous, false);
      if plan.Ok? then before + [plan.value.protection] else before
  }

  ghost predicate Rising(s: seq<int>) { forall i, j :: 0 <= i <= j < |s| ==> s[i] <= s[j] }

  lemma RisingSnoc(s: seq<int>, x: int)
    requires Rising(s) && (s != [] ==> s[|s| - 1] <= x)
    ensures Rising(s + [x])
  {
  }

  lemma TickOrder(a: int, b: int)
    ensures At(a) <= At(b) <==> a <= b
  {
  }

  /** The protection price never falls from one plan to a later one. */
  lemma {:induction false} ProtectionNeverFalls(days: seq<Features>)
    ensures Rising(Protections(days))
  {
    if days != [] {
      ProtectionNeverFalls(days[..|days| - 1]);
      var before := Protections(days[..|days| - 1]);
      var previous := if before == [] then None else Some(At(before[|before| - 1]));
      var f := days[|days| - 1];
      hide CandidatePlan, Boundaries, Rising, At;
      var plan := CandidatePlan(f, previous, false);
      if plan.Ok? {
        PlanIsSound(f, previous, false);
        if before != [] { TickOrder(before[|before| - 1], plan.value.protection); }
        RisingSnoc(before, plan.value.protection);
      }
    }
  }

  // ---------------------------------------------------------------------- live quotes

  datatype State = NoReliableGuidance | Invalidated | WaitForPrice | ConditionsMet | ResearchReference | PriceTooHigh

  datatype Bounds = Bounds(lower: int, upper: int, maximum: int, invalidation: int)

  /** A stored plan has all four boundaries, in order, or none. */
  ghost predicate Ordered(b: Bounds) { 0 < b.invalidation < b.lower <= b.upper <= b.maximum }

  datatype Quote = Quote(good: bool, price: Option<real>, quotedAt: Option<int>, observedAt: Option<int>)

  datatype QuoteProblem = PlanExpired | ObservedInFuture | QuotedInFuture | PriceNotPositive

  function Situation(bounds: Option<Bounds>, promoted: bool, price: real): State {
    if bounds.Some? && price < At(bounds.value.invalidation) then Invalidated
    else if bounds.Some? && price > At(bounds.value.maximum) then PriceTooHigh
    else if bounds.Some? && At(bounds.value.lower) <= price <= At(bounds.value.upper) then
      if promoted then ConditionsMet else ResearchReference
    else WaitForPrice
  }

  /** `validUntil` is the first second after the plan's day. */
  function Evaluate(bounds: Option<Bounds>, promoted: bool, validUntil: int, quote: Quote, now: int)
    : Result<State, QuoteProblem>
  {
    if now >= validUntil then Err(PlanExpired)
    else if quote.observedAt.Some? && quote.observedAt.value > now then Err(ObservedInFuture)
    else if quote.quotedAt.Some? && quote.quotedAt.value > now then Err(QuotedInFuture)
    else if quote.price.Some? && quote.price.value <= 0.0 then Err(PriceNotPositive)
    else if !quote.good || quote.price.None? || quote.quotedAt.None? then Ok(NoReliableGuidance)
    else Ok(Situation(bounds, promoted, quote.price.value))
  }

  function BoundsOf(p: Plan): Bounds { Bounds(p.lower, p.upper, p.maximum, p.invalidation) }

  /** A quote is answered unless the plan's day is over, it was observed or quoted after now, or its price is not
      positive; without a good quality, a price and a time nothing is said. */
  lemma AnsweredIff(bounds: Option<Bounds>, promoted: bool, validUntil: int, quote: Quote, now: int)
    ensures var r := Evaluate(bounds, promoted, validUntil, quote, now);
      && (r.Ok? <==>
            && now < validUntil && (quote.observedAt.Some? ==> quote.observedAt.value <= now)
            && (quote.quotedAt.Some? ==> quote.quotedAt.value <= now) &&
                (quote.price.Some? ==> quote.price.value > 0.0))
      && (r.Ok? ==>
            (r.value == NoReliableGuidance <==> !(quote.good && quote.price.Some? && quote.quotedAt.Some?)))
      && (r == Err(PlanExpired) <==> validUntil <= now)
      && (r == Err(ObservedInFuture) ==> quote.observedAt.Some? && now < quote.observedAt.value)
      && (r == Err(QuotedInFuture) ==> quote.quotedAt.Some? && now < quote.quotedAt.value)
      && (r == Err(PriceNotPositive) ==> quote.price.Some? && quote.price.value <= 0.0)
  {
    hide At;
  }

  /** On a plan the engine emitted, a good and timely quote is answered by which of four adjoining ranges its price
      is in. */
  lemma EmittedPlanPartitions(
    f: Features, previous: Option<real>, promoted: bool, validUntil: int, quote: Quote, now: int)
    requires CandidatePlan(f, previous, promoted).Ok?
    requires quote.good && quote.price.Some? && quote.quotedAt.Some? && now < validUntil
    requires quote.price.value > 0.0 && quote.quotedAt.value <= now
    requires quote.observedAt.Some? ==> quote.observedAt.value <= now
    ensures var p := CandidatePlan(f, previous, promoted).value;
      var r := Evaluate(Some(BoundsOf(p)), promoted, validUntil, quote, now);
      var price := quote.price.value;
      && r.Ok?
      && (r.value == Invalidated <==> price < At(p.invalidation))
      && (r.value == WaitForPrice <==> At(p.invalidation) <= price < At(p.lower))
      && (r.value == (if promoted then ConditionsMet else ResearchReference) <==> At(p.lower) <= price <= At(p.upper))
      && (r.value == PriceTooHigh <==> price > At(p.upper))
  {
    PlanIsSound(f, previous, promoted);
    hide CandidatePlan, Boundaries;
  }

  function Height(s: State): nat {
    match s
    case NoReliableGuidance => 0
    case Invalidated => 1
    case WaitForPrice => 2
    case ConditionsMet => 3
    case ResearchReference => 3
    case PriceTooHigh => 4
  }

  ghost predicate RisesWithPrice(b: Bounds, promoted: bool) {
    forall x: real, y: real :: x <= y ==>
        Height(Situation(Some(b), promoted, x)) <= Height(Situation(Some(b), promoted, y))
  }

  /** A rising price walks through the states in order exactly on plans whose entry range reaches the maximum;
      on any other it falls back to waiting just above the range. */
  lemma RisesWithPriceIff(b: Bounds, promoted: bool)
    requires Ordered(b)
    ensures RisesWithPrice(b, promoted) <==> b.upper == b.maximum
  {
    if RisesWithPrice(b, promoted) {
      var x, y := At(b.upper), At(b.maximum);
      assert Height(Situation(Some(b), promoted, x)) <= Height(Situation(Some(b), promoted, y));
    }
  }

  // ------------------------------------------------------------------- paper position size

  function PositionSize(equity: real, cash: real, price: real, invalidation: real, industryValue: real): nat {
    if equity <= 0.0 || cash <= 0.0 || price <= 0.0 || invalidation <= 0.0 || invalidation >= price then 0
    else
      var risk := equity * 0.005 / (price - invalidation);
      var position := equity * 0.05 / price;
      var industry := Max(0.0, equity * 0.2 - industryValue) / price;
      AtLeast(equity * 0.005, price - invalidation, 0.0);
      AtLeast(equity * 0.05, price, 0.0);
      AtLeast(Max(0.0, equity * 0.2 - industryValue), price, 0.0);
      AtLeast(cash, price, 0.0);
      WholeLots(Min(Min(Min(risk, position), industry), cash / price), 100)
  }

  /** A quantity of shares meets the four caps. */
  ghost predicate Affordable(equity: real, cash: real, price: real, invalidation: real, industryValue: real, q: nat) {
    && Value(q, price - invalidation) <= equity * 0.005
    && Value(q, price) <= equity * 0.05
    && Value(q, price) <= Max(0.0, equity * 0.2 - industryValue)
    && Value(q, price) <= cash
  }

  /** The size is whole lots of 100, and exactly the whole lots up to it meet all four caps. */
  lemma PositionSizeIsGreatest(equity: real, cash: real, price: real, invalidation: real, industryValue: real, k: nat)
    requires equity > 0.0 && cash > 0.0 && 0.0 < invalidation < price
    ensures var size := PositionSize(equity, cash, price, invalidation, industryValue);
      && size % 100 == 0
      && (Affordable(equity, cash, price, invalidation, industryValue, k * 100) <==> k * 100 <= size)
  {
    var q := (k * 100) as real;
    var risk, position := equity * 0.005 / (price - invalidation), equity * 0.05 / price;
    var industry := Max(0.0, equity * 0.2 - industryValue) / price;
    AtLeast(equity * 0.005, price - invalidation, q);
    AtLeast(equity * 0.05, price, q);
    AtLeast(Max(0.0, equity * 0.2 - industryValue), price, q);
    AtLeast(cash, price, q);
    AtLeast(equity * 0.005, price - invalidation, 0.0);
    AtLeast(equity * 0.05, price, 0.0);
    AtLeast(Max(0.0, equity * 0.2 - industryValue), price, 0.0);
    AtLeast(cash, price, 0.0);
    var raw := Min(Min(Min(risk, position), industry), cash / price);
    hide Times, WholeLots;
    ZeroProduct(price);
    ZeroProduct(price - invalidation);
    WholeLotsGreatest(raw, 100, k);
  }

  /** Without positive amounts, or with an invalidation price that is not below the price, nothing is bought. */
  lemma NoSizeWithout(equity: real, cash: real, price: real, invalidation: real, industryValue: real)
    requires !(equity > 0.0 && cash > 0.0 && 0.0 < invalidation < price)
    ensures PositionSize(equity, cash, price, invalidation, industryValue) == 0
  {
  }

  lemma ZeroProduct(x: real)
    ensures Times(0.0, x) == 0.0
  {
  }
}
