/** Sizing a new position under the portfolio's caps. Weights and prices are exact numbers; exposures
    are cut down to 0.0001 before they are compared with a cap. */
module RiskSizing {
  import opened Wrappers
  import opened Basics
  import opened Lots

  datatype Holding = Holding(symbol: string, value: real, industry: string)

  type Position = h: Holding | h.value >= 0.0 witness Holding("", 0.0, "")

  datatype Snapshot = Snapshot(equity: real, cash: real, drawdown: real, positions: seq<Position>)

  type Portfolio = s: Snapshot | s.equity > 0.0 && s.cash >= 0.0 && 0.0 <= s.drawdown < 1.0
    witness Snapshot(1.0, 0.0, 0.0, [])

  datatype Limits = Limits(
    normalGrossCap: real, cautiousGrossCap: real, riskOffGrossCap: real, initialPositionCap: real, singleNameCap: real,
    industryCap: real, cashReserve: real, plannedRisk: real, maximumPositions: nat, minimumLiquidity: real,
    caution: real, freeze: real, protection: real, lotSize: nat)

  ghost predicate Weight(x: real) { 0.0 <= x <= 1.0 }

  ghost predicate ValidLimits(l: Limits) {
    && Weight(l.normalGrossCap) && Weight(l.cautiousGrossCap) && Weight(l.riskOffGrossCap) &&
        Weight(l.initialPositionCap)
    && Weight(l.singleNameCap) && Weight(l.industryCap) && Weight(l.cashReserve) && Weight(l.plannedRisk)
    && Weight(l.caution) && Weight(l.freeze) && Weight(l.protection)
    && l.minimumLiquidity > 0.0 && l.maximumPositions >= 1 && l.lotSize >= 1
    && l.caution <= l.freeze <= l.protection
  }

  /** What the constructor of a policy lets through; the witness is the conservative default. */
  type Policy = l: Limits | ValidLimits(l)
    witness Limits(0.7, 0.4, 0.2, 0.04, 0.08, 0.25, 0.3, 0.0075, 10, 10000000.0, 0.06, 0.08, 0.12, 100)

  datatype Regime = Normal | Cautious | RiskOff | Unrecognised

  datatype Reason =
    | InvalidInvalidation | LiquidityTooLow | RiskOffRegime | ProtectionMode | DrawdownNewBuyFreeze | MaxPositions
    | CapacityExhausted | InsufficientForLot | AllGatesPassed | DrawdownCaution

  datatype Request = Request(symbol: string, industry: string, price: real, invalidation: real, liquidity: real,
      regime: Regime)

  datatype Assessment = Assessment(allowed: bool, weight: real, quantity: nat, reasons: seq<Reason>)

  datatype Problem = BadRegime

  // ----------------------------------------------------------------------- exposures

  /** Cut to four decimals, towards zero; weights are never negative. */
  function CutDown(x: real): real { (x * 10000.0).Floor as real / 10000.0 }

  function TotalValue(ps: seq<Position>): (v: real)
    ensures v >= 0.0
  {
    if ps == [] then 0.0 else TotalValue(ps[..|ps| - 1]) + ps[|ps| - 1].value
  }

  function IndustryValue(ps: seq<Position>, industry: string): (v: real)
    ensures v >= 0.0
  {
    if ps == [] then 0.0
    else
      var p := ps[|ps| - 1];
      IndustryValue(ps[..|ps| - 1], industry) + (if p.industry == industry then p.value else 0.0)
  }

  function GrossExposure(p: Portfolio): real { CutDown(TotalValue(p.positions) / p.equity) }

  function IndustryExposure(p: Portfolio, industry: string): real {
    CutDown(IndustryValue(p.positions, industry) / p.equity)
  }

  // ---------------------------------------------------------------------- assessment

  function GrossCap(l: Policy, regime: Regime): Result<real, Problem> {
    match regime
    case Normal => Ok(l.normalGrossCap)
    case Cautious => Ok(l.cautiousGrossCap)
    case RiskOff => Ok(l.riskOffGrossCap)
    case Unrecognised => Err(BadRegime)
  }

  function Blocked(reason: Reason): Assessment { Assessment(false, 0.0, 0, [reason]) }

  /** The first gate that refuses before any capacity is computed. */
  function Gate(l: Policy, p: Portfolio, r: Request): Result<Option<Reason>, Problem> {
    if r.price <= 0.0 || r.invalidation <= 0.0 || r.invalidation >= r.price then Ok(Some(InvalidInvalidation))
    else if r.liquidity < l.minimumLiquidity then Ok(Some(LiquidityTooLow))
    else if r.regime == RiskOff then Ok(Some(RiskOffRegime))
    else if GrossCap(l, r.regime).Err? then Err(BadRegime)
    else if p.drawdown >= l.protection then Ok(Some(ProtectionMode))
    else if p.drawdown >= l.freeze then Ok(Some(DrawdownNewBuyFreeze))
    else if |p.positions| >= l.maximumPositions then Ok(Some(MaxPositions))
    else Ok(None)
  }

  /** What a new position asks of the market, the regime and the portfolio before any capacity counts. */
  ghost predicate Passed(l: Policy, p: Portfolio, r: Request) {
    && 0.0 < r.invalidation < r.price && r.liquidity >= l.minimumLiquidity &&
        (r.regime == Normal || r.regime == Cautious)
    && p.drawdown < l.freeze && |p.positions| < l.maximumPositions
  }

  lemma GateIff(l: Policy, p: Portfolio, r: Request)
    ensures Gate(l, p, r) == Ok(None) <==> Passed(l, p, r)
    ensures Passed(l, p, r) ==>
        GrossCap(l, r.regime) == Ok(if r.regime == Normal then l.normalGrossCap else l.cautiousGrossCap)
    ensures Gate(l, p, r).Err? <==>
      0.0 < r.invalidation < r.price && r.liquidity >= l.minimumLiquidity && r.regime == Unrecognised
  {
  }

  function RiskDistance(r: Request): (d: real)
    requires 0.0 < r.invalidation < r.price
    ensures d > 0.0
  {
    AtMost(r.invalidation, r.price, 1.0);
    AtLeast(r.invalidation, r.price, 1.0);
    1.0 - r.invalidation / r.price
  }

  function TargetWeight(l: Policy, p: Portfolio, r: Request, grossCap: real): real
    requires 0.0 < r.invalidation < r.price
  {
    Min(Min(Min(Min(Min(
      l.initialPositionCap, l.singleNameCap), grossCap - GrossExposure(p)), p.cash / p.equity - l.cashReserve),
      l.industryCap - IndustryExposure(p, r.industry)), l.plannedRisk / RiskDistance(r))
  }

  function RawQuantity(equity: real, target: real, price: real): (q: real)
    requires equity > 0.0 && target > 0.0 && price > 0.0
    ensures q >= 0.0
  {
    assert equity * target > 0.0;
    AtLeast(equity * target, price, 0.0);
    equity * target / price
  }

  function Assess(l: Policy, p: Portfolio, r: Request): Result<Assessment, Problem> {
    var gate := Gate(l, p, r);
    if gate.Err? then Err(gate.error)
    else if gate.value.Some? then Ok(Blocked(gate.value.value))
    else
      var target := TargetWeight(l, p, r, GrossCap(l, r.regime).value);
      if target <= 0.0 then Ok(Blocked(CapacityExhausted))
      else
        var quantity := WholeLots(RawQuantity(p.equity, target, r.price), l.lotSize);
        if quantity < l.lotSize then Ok(Blocked(InsufficientForLot))
        else
          var caution := if p.drawdown >= l.caution then [DrawdownCaution] else [];
          Ok(Assessment(true, CutDown(Value(quantity, r.price) / p.equity), quantity, [AllGatesPassed] + caution))
  }

  // ------------------------------------------------------------- what a quantity costs

  /** A share of the equity, in money. */
  function Part(weight: real, p: Portfolio): real { Times(weight, p.equity) }

  /** The six limits, each stated for a quantity in money and without dividing. */
  ghost predicate Fits(l: Policy, p: Portfolio, r: Request, grossCap: real, q: nat) {
    var v := Value(q, r.price);
    && v <= Part(l.initialPositionCap, p)
    && v <= Part(l.singleNameCap, p)
    && Part(GrossExposure(p), p) + v <= Part(grossCap, p)
    && p.cash - v >= Part(l.cashReserve, p)
    && Part(IndustryExposure(p, r.industry), p) + v <= Part(l.industryCap, p)
    && Value(q, r.price - r.invalidation) <= Part(l.plannedRisk, p)
  }

  lemma WeightLimit(v: real, p: Portfolio, cap: real, used: real)
    ensures v / p.equity <= cap - used <==> Part(used, p) + v <= Part(cap, p)
  {
    AtMost(v, p.equity, cap - used);
    assert Times(cap - used, p.equity) == Times(cap, p.equity) - Times(used, p.equity);
  }

  lemma NameLimit(v: real, p: Portfolio, cap: real)
    ensures v / p.equity <= cap <==> v <= Part(cap, p)
  {
    AtMost(v, p.equity, cap);
  }

  lemma CashLimit(v: real, p: Portfolio, reserve: real)
    ensures v / p.equity <= p.cash / p.equity - reserve <==> p.cash - v >= Part(reserve, p)
  {
    var c := p.cash / p.equity;
    assert Times(c, p.equity) == p.cash;
    AtMost(v, p.equity, c - reserve);
    assert Times(c - reserve, p.equity) == Times(c, p.equity) - Times(reserve, p.equity);
  }

  lemma RiskLimit(q: nat, p: Portfolio, r: Request, planned: real)
    requires 0.0 < r.invalidation < r.price
    ensures Value(q, r.price) / p.equity <= planned / RiskDistance(r) <==>
            Value(q, r.price - r.invalidation) <= Part(planned, p)
  {
    var d := RiskDistance(r);
    var w := Value(q, r.price) / p.equity;
    AtLeast(planned, d, w);
    DistanceTimes(q, r);
    var loss := Value(q, r.price - r.invalidation);
    AtMost(loss, p.equity, planned);
    assert Times(w, d) == loss / p.equity by { Requotient(Value(q, r.price), d, p.equity); }
  }

  lemma Requotient(v: real, d: real, e: real)
    requires e > 0.0
    ensures Times(v / e, d) == Times(v, d) / e
  {
    var w := v / e;
    assert w * e == v;
    assert w * d * e == v * d;
  }

  lemma DistanceTimes(q: nat, r: Request)
    requires 0.0 < r.invalidation < r.price
    ensures Times(Value(q, r.price), RiskDistance(r)) == Value(q, r.price - r.invalidation)
  {
    var n, x, d := q as real, r.invalidation / r.price, RiskDistance(r);
    assert x * r.price == r.invalidation;
    assert d == 1.0 - x;
    assert n * r.price * d == n * (r.price - x * r.price);
  }

  /** A quantity is within the target weight exactly when it meets all six limits. */
  lemma WithinTargetIff(l: Policy, p: Portfolio, r: Request, grossCap: real, q: nat)
    requires 0.0 < r.invalidation < r.price
    ensures Value(q, r.price) / p.equity <= TargetWeight(l, p, r, grossCap) <==> Fits(l, p, r, grossCap, q)
  {
    hide Part, Value, RiskDistance, GrossExposure, IndustryExposure, ValidLimits;
    var v := Value(q, r.price);
    NameLimit(v, p, l.initialPositionCap);
    NameLimit(v, p, l.singleNameCap);
    WeightLimit(v, p, grossCap, GrossExposure(p));
    CashLimit(v, p, l.cashReserve);
    WeightLimit(v, p, l.industryCap, IndustryExposure(p, r.industry));
    RiskLimit(q, p, r, l.plannedRisk);
  }

  lemma RawIff(equity: real, target: real, price: real, q: nat)
    requires equity > 0.0 && target > 0.0 && price > 0.0
    ensures q as real <= RawQuantity(equity, target, price) <==> Value(q, price) / equity <= target
  {
    AtLeast(equity * target, price, q as real);
    AtMost(Value(q, price), equity, target);
  }

  lemma PositiveValue(q: nat, price: real, equity: real)
    requires q > 0 && price > 0.0 && equity > 0.0
    ensures Value(q, price) / equity > 0.0
  {
    assert q as real * price > 0.0;
    AtMost(Value(q, price), equity, 0.0);
  }

  /** The suggested quantity is the greatest: a positive number of whole lots meets all six limits
      exactly when it does not exceed the suggestion. */
  lemma QuantityIsGreatest(l: Policy, p: Portfolio, r: Request, k: nat)
    requires Passed(l, p, r) && k > 0
    ensures GrossCap(l, r.regime).Ok? && Assess(l, p, r).Ok?
    ensures Fits(l, p, r, GrossCap(l, r.regime).value, k * l.lotSize) <==>
        k * l.lotSize <= Assess(l, p, r).value.quantity
  {
    GateIff(l, p, r);
    var cap := GrossCap(l, r.regime).value;
    var target := TargetWeight(l, p, r, cap);
    var q := k * l.lotSize;
    LotMonotone(1, k, l.lotSize);
    hide Fits, Value, TargetWeight, RawQuantity, WholeLots, CutDown;
    WithinTargetIff(l, p, r, cap, q);
    PositiveValue(q, r.price, p.equity);
    if target > 0.0 {
      RawIff(p.equity, target, r.price, q);
      WholeLotsGreatest(RawQuantity(p.equity, target, r.price), l.lotSize, k);
    }
  }

  /** A new position is allowed exactly when every gate passes and one lot meets the six limits; the
      quantity is then a positive number of whole lots that meets them all. */
  lemma AllowedIff(l: Policy, p: Portfolio, r: Request)
    requires Assess(l, p, r).Ok?
    ensures Passed(l, p, r) ==> GrossCap(l, r.regime).Ok?
    ensures var a := Assess(l, p, r).value;
      && (a.allowed <==> Passed(l, p, r) && Fits(l, p, r, GrossCap(l, r.regime).value, l.lotSize))
      && (a.allowed <==> a.quantity > 0)
      && (a.allowed ==> a.quantity % l.lotSize == 0 && Fits(l, p, r, GrossCap(l, r.regime).value, a.quantity))
  {
    GateIff(l, p, r);
    var a := Assess(l, p, r).value;
    if Passed(l, p, r) {
      QuantityIsGreatest(l, p, r, 1);
      if a.allowed {
        AllowedIsLots(l, p, r);
        var k := LotCount(a.quantity, l.lotSize);
        QuantityIsGreatest(l, p, r, k);
      }
    }
    hide Fits, TargetWeight, RawQuantity, WholeLots, CutDown, GrossCap;
  }

  lemma AllowedIsLots(l: Policy, p: Portfolio, r: Request)
    requires Assess(l, p, r).Ok? && Assess(l, p, r).value.allowed
    ensures Assess(l, p, r).value.quantity % l.lotSize == 0
  {
    var target := TargetWeight(l, p, r, GrossCap(l, r.regime).value);
    hide WholeLots, RawQuantity, TargetWeight;
    WholeLotsGreatest(RawQuantity(p.equity, target, r.price), l.lotSize, 0);
  }

  /** Every limit leaves something for a purchase. */
  ghost predicate LeavesRoom(l: Policy, p: Portfolio, r: Request, grossCap: real) {
    && l.initialPositionCap > 0.0 && l.singleNameCap > 0.0 && l.plannedRisk > 0.0 && GrossExposure(p) < grossCap
    && IndustryExposure(p, r.industry) < l.industryCap && p.cash > Part(l.cashReserve, p)
  }

  lemma LeavesRoomIff(l: Policy, p: Portfolio, r: Request, grossCap: real)
    requires 0.0 < r.invalidation < r.price
    ensures TargetWeight(l, p, r, grossCap) > 0.0 <==> LeavesRoom(l, p, r, grossCap)
  {
    hide RiskDistance, GrossExposure, IndustryExposure, ValidLimits;
    AtMost(p.cash, p.equity, l.cashReserve);
    AtMost(l.plannedRisk, RiskDistance(r), 0.0);
  }

  /** Every reason given is a true one. */
  lemma ReasonsAreTrue(l: Policy, p: Portfolio, r: Request, q: nat)
    requires Assess(l, p, r).Ok?
    ensures Passed(l, p, r) ==> GrossCap(l, r.regime).Ok?
    ensures |Assess(l, p, r).value.reasons| > 0
    ensures match Assess(l, p, r).value.reasons[0]
      case InvalidInvalidation => !(0.0 < r.invalidation < r.price)
      case LiquidityTooLow => r.liquidity < l.minimumLiquidity
      case RiskOffRegime => r.regime == RiskOff
      case ProtectionMode => p.drawdown >= l.protection
      case DrawdownNewBuyFreeze => l.freeze <= p.drawdown < l.protection
      case MaxPositions => |p.positions| >= l.maximumPositions
      case CapacityExhausted => Passed(l, p, r) && !LeavesRoom(l, p, r, GrossCap(l, r.regime).value) &&
        (q > 0 ==> !Fits(l, p, r, GrossCap(l, r.regime).value, q))
      case InsufficientForLot => Passed(l, p, r) && LeavesRoom(l, p, r, GrossCap(l, r.regime).value) &&
        !Fits(l, p, r, GrossCap(l, r.regime).value, l.lotSize)
      case AllGatesPassed => Assess(l, p, r).value.allowed
      case DrawdownCaution => false
  {
    GateIff(l, p, r);
    hide Fits, LeavesRoom, TargetWeight, RawQuantity, WholeLots, CutDown, Value;
    AllowedIff(l, p, r);
    if Passed(l, p, r) {
      var cap := GrossCap(l, r.regime).value;
      LeavesRoomIff(l, p, r, cap);
      WithinTargetIff(l, p, r, cap, q);
      if q > 0 { PositiveValue(q, r.price, p.equity); }
    }
  }

  // -------------------------------------------------------------------- true exposures

  /** The exposure of an industry is that of its own positions: all of the total if all are in it, nothing if none. */
  lemma {:induction false} IndustryCountsItsOwn(ps: seq<Position>, industry: string)
    ensures (forall i :: 0 <= i < |ps| ==> ps[i].industry == industry) ==> IndustryValue(ps, industry) == TotalValue(ps)
    ensures (forall i :: 0 <= i < |ps| ==> ps[i].industry != industry) ==> IndustryValue(ps, industry) == 0.0
    ensures IndustryValue(ps, industry) <= TotalValue(ps)
  {
    if ps != [] { IndustryCountsItsOwn(ps[..|ps| - 1], industry); }
  }

  /** Cutting leaves whole ten-thousandths. */
  lemma CutIsWhole(x: real)
    ensures CutDown(x) * 10000.0 == (CutDown(x) * 10000.0).Floor as real
  {
    assert CutDown(x) * 10000.0 == (x * 10000.0).Floor as real;
  }

  lemma CutLosesLittle(x: real, p: Portfolio)
    ensures Part(CutDown(x / p.equity), p) <= x < Part(CutDown(x / p.equity), p) + Part(0.0001, p)
  {
    var w := x / p.equity;
    var c := CutDown(w);
    CutIsClose(w);
    hide CutDown;
    assert Times(w, p.equity) == x;
    PartMonotone(c, w, p);
    PartStrict(w, c + 0.0001, p);
    assert Times(c + 0.0001, p.equity) == Times(c, p.equity) + Times(0.0001, p.equity);
  }

  lemma CutIsClose(w: real)
    ensures CutDown(w) <= w < CutDown(w) + 0.0001
  {
  }

  lemma PartStrict(x: real, y: real, p: Portfolio)
    requires x < y
    ensures Part(x, p) < Part(y, p)
  {
    assert (y - x) * p.equity > 0.0;
  }

  /** The portfolio after buying at the assessed price. */
  function Bought(p: Portfolio, r: Request, q: nat): (after: Snapshot)
    requires r.price > 0.0
  {
    assert q as real * r.price >= 0.0;
    var h := Holding(r.symbol, Value(q, r.price), r.industry);
    p.(cash := p.cash - h.value, positions := p.positions + [h])
  }

  /** Although exposures are cut down before they are compared, the true ones stay within 0.0001 of the caps. */
  lemma TrueExposureBounds(l: Policy, p: Portfolio, r: Request)
    requires Assess(l, p, r).Ok? && Assess(l, p, r).value.allowed
    ensures var q := Assess(l, p, r).value.quantity; var v := Value(q, r.price);
      && GrossCap(l, r.regime) == Ok(if r.regime == Normal then l.normalGrossCap else l.cautiousGrossCap)
      && 0.0 < r.invalidation < r.price && v > 0.0
      && TotalValue(p.positions) + v < Part(GrossCap(l, r.regime).value, p) + Part(0.0001, p)
      && IndustryValue(p.positions, r.industry) + v < Part(l.industryCap, p) + Part(0.0001, p)
      && p.cash - v >= Part(l.cashReserve, p)
      && v <= Part(Min(l.initialPositionCap, l.singleNameCap), p)
      && Value(q, r.price - r.invalidation) <= Part(l.plannedRisk, p)
      && Part(Assess(l, p, r).value.weight, p) <= v < Part(Assess(l, p, r).value.weight, p) + Part(0.0001, p)
  {
    hide CutDown, TotalValue, IndustryValue, Assess, TargetWeight, Gate;
    AllowedIff(l, p, r);
    PassedGate(l, p, r);
    ReportedWeight(l, p, r);
    CutLosesLittle(TotalValue(p.positions), p);
    CutLosesLittle(IndustryValue(p.positions, r.industry), p);
    var q := Assess(l, p, r).value.quantity;
    assert q as real * r.price > 0.0 by { ValuePositive(q, r.price); }
    hide Part;
  }

  lemma PassedGate(l: Policy, p: Portfolio, r: Request)
    requires Passed(l, p, r)
    ensures 0.0 < r.invalidation < r.price
    ensures GrossCap(l, r.regime) == Ok(if r.regime == Normal then l.normalGrossCap else l.cautiousGrossCap)
  {
    GateIff(l, p, r);
  }

  lemma ReportedWeight(l: Policy, p: Portfolio, r: Request)
    requires Assess(l, p, r).Ok? && Assess(l, p, r).value.allowed
    ensures var w, v := Assess(l, p, r).value.weight, Value(Assess(l, p, r).value.quantity, r.price);
      Part(w, p) <= v < Part(w, p) + Part(0.0001, p)
  {
    hide CutDown, Part, Value, TargetWeight, RawQuantity, WholeLots;
    CutLosesLittle(Value(Assess(l, p, r).value.quantity, r.price), p);
  }

  lemma ValuePositive(q: nat, price: real)
    requires q > 0 && price > 0.0
    ensures Value(q, price) > 0.0
  {
  }

  // --------------------------------------------------------------------- runs of buying

  /** Asks for one position after another and buys whatever is suggested; prices stand still. */
  function Buying(l: Policy, p: Portfolio, requests: seq<Request>): Portfolio {
    if requests == [] then p
    else
      var before := Buying(l, p, requests[..|requests| - 1]);
      Buy(l, before, requests[|requests| - 1])
  }

  function Buy(l: Policy, p: Portfolio, r: Request): Portfolio {
    var a := Assess(l, p, r);
    if a.Ok? && a.value.allowed then
      TrueExposureBounds(l, p, r);
      ReserveNonNegative(l, p);
      Bought(p, r, a.value.quantity)
    else p
  }

  lemma ReserveNonNegative(l: Policy, p: Portfolio)
    ensures Part(l.cashReserve, p) >= 0.0
  {
  }

  /** No purchase of the run can push an exposure past its cap by 0.0001 or more, whatever the rest of the
      portfolio does; nothing is lost between cash and positions. */
  ghost predicate Within(l: Policy, p: Portfolio, after: Portfolio) {
    && after.equity == p.equity && after.drawdown == p.drawdown
    && after.cash + TotalValue(after.positions) == p.cash + TotalValue(p.positions)
    && after.cash >= Min(p.cash, Part(l.cashReserve, p))
    && |after.positions| <= (if |p.positions| > l.maximumPositions then |p.positions| else l.maximumPositions)
    && TotalValue(after.positions) <=
        Max(TotalValue(p.positions), Part(Max(l.normalGrossCap, l.cautiousGrossCap), p) + Part(0.0001, p))
  }

  ghost predicate IndustryWithin(l: Policy, p: Portfolio, after: Portfolio, industry: string) {
    IndustryValue(after.positions, industry) <=
        Max(IndustryValue(p.positions, industry), Part(l.industryCap, p) + Part(0.0001, p))
  }

  lemma PartMonotone(x: real, y: real, p: Portfolio)
    requires x <= y
    ensures Part(x, p) <= Part(y, p)
  {
    assert (y - x) * p.equity >= 0.0;
  }

  lemma ValueSnoc(ps: seq<Position>, h: Position, industry: string)
    ensures TotalValue(ps + [h]) == TotalValue(ps) + h.value
    ensures IndustryValue(ps + [h], industry) == IndustryValue(ps, industry) +
        (if h.industry == industry then h.value else 0.0)
  {
    assert (ps + [h])[..|ps|] == ps;
  }

  lemma BuyWithin(l: Policy, start: Portfolio, p: Portfolio, r: Request, industry: string)
    requires Within(l, start, p) && IndustryWithin(l, start, p, industry)
    ensures Within(l, start, Buy(l, p, r)) && IndustryWithin(l, start, Buy(l, p, r), industry)
  {
    hide Part, TotalValue, IndustryValue, CutDown, Value, TargetWeight, RawQuantity, WholeLots;
    var a := Assess(l, p, r);
    if a.Ok? && a.value.allowed {
      TrueExposureBounds(l, p, r);
      var q := a.value.quantity;
      ValueSnoc(p.positions, Holding(r.symbol, Value(q, r.price), r.industry), industry);
      CapWithin(l, p, r);
      SameEquity(l, start, p);
    }
  }

  lemma CapWithin(l: Policy, p: Portfolio, r: Request)
    requires Assess(l, p, r).Ok? && Assess(l, p, r).value.allowed
    ensures GrossCap(l, r.regime).Ok?
    ensures Part(GrossCap(l, r.regime).value, p) <= Part(Max(l.normalGrossCap, l.cautiousGrossCap), p)
    ensures |p.positions| < l.maximumPositions
  {
    PartMonotone(GrossCap(l, r.regime).value, Max(l.normalGrossCap, l.cautiousGrossCap), p);
    hide Part;
  }

  lemma SameEquity(l: Policy, a: Portfolio, b: Portfolio)
    requires a.equity == b.equity
    ensures forall x :: Part(x, a) == Part(x, b)
  {
  }

  /** Over any run of purchases: the cut-off errors do not add up, the reserve is kept, and the number
      of positions, the gross exposure and each industry's exposure stay within their bounds. */
  lemma {:induction false} BuyingStaysWithin(l: Policy, p: Portfolio, requests: seq<Request>, industry: string)
    ensures Within(l, p, Buying(l, p, requests)) && IndustryWithin(l, p, Buying(l, p, requests), industry)
  {
    if requests != [] {
      var init := requests[..|requests| - 1];
      BuyingStaysWithin(l, p, init, industry);
      BuyWithin(l, p, Buying(l, p, init), requests[|requests| - 1], industry);
      hide Within, IndustryWithin, Buy;
    }
  }

  // ----------------------------------------------------------------- the single name

  function NameValue(ps: seq<Position>, symbol: string): (v: real)
    ensures v >= 0.0
  {
    if ps == [] then 0.0
    else
      var p := ps[|ps| - 1];
      NameValue(ps[..|ps| - 1], symbol) + (if p.symbol == symbol then p.value else 0.0)
  }

  lemma NameSnoc(ps: seq<Position>, h: Position, symbol: string)
    ensures NameValue(ps + [h], symbol) == NameValue(ps, symbol) + (if h.symbol == symbol then h.value else 0.0)
  {
    assert (ps + [h])[..|ps|] == ps;
  }

  /** What one position may be worth when it is opened. */
  function NameCap(l: Policy, p: Portfolio): real { Part(Min(l.initialPositionCap, l.singleNameCap), p) }

  lemma {:induction false} NameCountsItsOwn(ps: seq<Position>, symbol: string)
    ensures (forall i :: 0 <= i < |ps| ==> ps[i].symbol == symbol) ==> NameValue(ps, symbol) == TotalValue(ps)
    ensures (forall i :: 0 <= i < |ps| ==> ps[i].symbol != symbol) ==> NameValue(ps, symbol) == 0.0
  {
    if ps != [] { NameCountsItsOwn(ps[..|ps| - 1], symbol); }
  }

  /** What the single-name cap leaves for a name, given the shares already held. */
  function Room(l: Policy, p: Portfolio, symbol: string): real {
    Part(l.singleNameCap, p) - NameValue(p.positions, symbol)
  }

  /** The smallest number of lots worth more than the room. */
  function FirstPast(room: real, price: real, lot: nat): (k: nat)
    requires price > 0.0 && lot > 0
    ensures k > 0
  {
    LotWorth(price, lot);
    if room < 0.0 then 1
    else
      AtLeast(room, Value(lot, price), 0.0);
      (room / Value(lot, price)).Floor + 1
  }

  lemma LotWorth(price: real, lot: nat)
    requires price > 0.0 && lot > 0
    ensures Value(lot, price) > 0.0 && Times(0.0, Value(lot, price)) == 0.0
  {
  }

  lemma LotsWorth(k: nat, lot: nat, price: real)
    ensures Value(k * lot, price) == Times(k as real, Value(lot, price))
  {
    assert (k * lot) as real == k as real * lot as real;
  }

  lemma FirstPastIff(room: real, price: real, lot: nat, k: nat)
    requires price > 0.0 && lot > 0 && k > 0
    ensures Value(k * lot, price) > room <==> k >= FirstPast(room, price, lot)
  {
    LotWorth(price, lot);
    LotsWorth(k, lot, price);
    AtLeast(room, Value(lot, price), k as real);
    if room < 0.0 { PositiveTimes(k, Value(lot, price)); }
    hide Value, Times;
  }

  lemma PositiveTimes(k: nat, x: real)
    requires x > 0.0
    ensures Times(k as real, x) >= 0.0
  {
  }

  /** The assessment never looks at shares of the same name already held: a purchase takes the name past the
      single-name cap exactly if the gates pass and the smallest number of lots that exceeds the room meets
      the six limits. A name not held before is never taken past it. */
  lemma NamePastCapIff(l: Policy, p: Portfolio, r: Request)
    requires Assess(l, p, r).Ok?
    ensures var cap := Part(l.singleNameCap, p);
      && (Assess(l, p, r).value.allowed && NameValue(Buy(l, p, r).positions, r.symbol) > cap <==>
            Passed(l, p, r) &&
            Fits(l, p, r, GrossCap(l, r.regime).value, FirstPast(Room(l, p, r.symbol), r.price, l.lotSize) * l.lotSize))
      && (NameValue(p.positions, r.symbol) == 0.0 ==>
            !Assess(l, p, r).value.allowed || NameValue(Buy(l, p, r).positions, r.symbol) <= cap)
  {
    AllowedIff(l, p, r);
    if Passed(l, p, r) {
      PassedGate(l, p, r);
      var first := FirstPast(Room(l, p, r.symbol), r.price, l.lotSize);
      QuantityIsGreatest(l, p, r, first);
      LotMonotone(1, first, l.lotSize);
      if Assess(l, p, r).value.allowed {
        hide Assess, Fits, Gate, FirstPast, NameValue, Part;
        var k := LotCount(Assess(l, p, r).value.quantity, l.lotSize);
        NameAfter(l, p, r);
        LotMonotone(first, k, l.lotSize);
        FirstPastIff(Room(l, p, r.symbol), r.price, l.lotSize, k);
      }
    }
  }

  lemma NameAfter(l: Policy, p: Portfolio, r: Request)
    requires Assess(l, p, r).Ok? && Assess(l, p, r).value.allowed
    ensures NameValue(Buy(l, p, r).positions, r.symbol) ==
            NameValue(p.positions, r.symbol) + Value(Assess(l, p, r).value.quantity, r.price)
    ensures NameValue(p.positions, r.symbol) == 0.0 ==>
      NameValue(Buy(l, p, r).positions, r.symbol) <= Part(l.singleNameCap, p)
  {
    TrueExposureBounds(l, p, r);
    PartMonotone(Min(l.initialPositionCap, l.singleNameCap), l.singleNameCap, p);
    hide Part, NameValue, Value, Assess;
    NameSnoc(p.positions, Holding(r.symbol, Value(Assess(l, p, r).value.quantity, r.price), r.industry), r.symbol);
  }

  function AtCap(): Portfolio { Snapshot(100000.0, 92000.0, 0.0, [Holding("x", 8000.0, "bank")]) }

  const MORE_OF_X := Request("x", "bank", 10.0, 9.5, 100000000.0, Normal)

  const CONSERVATIVE: Policy :=
    Limits(0.7, 0.4, 0.2, 0.04, 0.08, 0.25, 0.3, 0.0075, 10, 10000000.0, 0.06, 0.08, 0.12, 100)

  /** Under the default policy a portfolio whose holding of "x" is exactly at the cap of 8 percent may buy
      another 4 percent of "x". */
  lemma NameAtCapMayBuyMore()
    ensures Assess(CONSERVATIVE, AtCap(), MORE_OF_X).Ok?
    ensures Assess(CONSERVATIVE, AtCap(), MORE_OF_X).value.allowed
    ensures NameValue(AtCap().positions, "x") == 8000.0 == Part(CONSERVATIVE.singleNameCap, AtCap())
    ensures NameValue(Buy(CONSERVATIVE, AtCap(), MORE_OF_X).positions, "x") > Part(CONSERVATIVE.singleNameCap, AtCap())
  {
    var l, p, r := CONSERVATIVE, AtCap(), MORE_OF_X;
    assert p.positions == [] + [Holding("x", 8000.0, "bank")];
    NameSnoc([], Holding("x", 8000.0, "bank"), "x");
    ValueSnoc([], Holding("x", 8000.0, "bank"), "bank");
    ExposureAtCap();
    assert Value(100, 10.0) == 1000.0 && Value(100, 0.5) == 50.0;
    assert Fits(l, p, r, 0.7, l.lotSize);
    AllowedIff(l, p, r);
    TrueExposureBounds(l, p, r);
    NameAfter(l, p, r);
  }

  lemma ExposureAtCap()
    ensures GrossExposure(AtCap()) == 0.08 && IndustryExposure(AtCap(), "bank") == 0.08
  {
    var p := AtCap();
    assert p.positions == [] + [Holding("x", 8000.0, "bank")];
    ValueSnoc([], Holding("x", 8000.0, "bank"), "bank");
    assert TotalValue(p.positions) == 8000.0 && IndustryValue(p.positions, "bank") == 8000.0;
    assert 8000.0 / 100000.0 == 0.08;
    assert 0.08 * 10000.0 == 800.0;
    assert (800.0).Floor == 800;
  }

  /** How often a run asks for a name. */
  function Asked(requests: seq<Request>, symbol: string): nat {
    if requests == [] then 0
    else Asked(requests[..|requests| - 1], symbol) + (if requests[|requests| - 1].symbol == symbol then 1 else 0)
  }

  lemma BuyGrowsName(l: Policy, p: Portfolio, r: Request, symbol: string)
    ensures Buy(l, p, r).equity == p.equity
    ensures NameValue(Buy(l, p, r).positions, symbol) <=
            NameValue(p.positions, symbol) + (if r.symbol == symbol then NameCap(l, p) else 0.0)
  {
    CapNonNegative(l, p);
    hide Part, NameValue, Value, Assess;
    if Assess(l, p, r).Ok? && Assess(l, p, r).value.allowed {
      TrueExposureBounds(l, p, r);
      NameSnoc(p.positions, Holding(r.symbol, Value(Assess(l, p, r).value.quantity, r.price), r.industry), symbol);
    }
  }

  lemma CapNonNegative(l: Policy, p: Portfolio)
    ensures NameCap(l, p) >= 0.0
  {
    PartMonotone(0.0, Min(l.initialPositionCap, l.singleNameCap), p);
  }

  /** Over any run of purchases a name grows by at most the cap each time it is asked for. */
  lemma {:induction false} RunGrowsName(l: Policy, p: Portfolio, requests: seq<Request>, symbol: string)
    ensures Buying(l, p, requests).equity == p.equity
    ensures NameValue(Buying(l, p, requests).positions, symbol) <=
            NameValue(p.positions, symbol) + Times(Asked(requests, symbol) as real, NameCap(l, p))
  {
    hide NameValue, Buy, Part;
    if requests == [] {
      assert Times(0.0, NameCap(l, p)) == 0.0;
    } else {
      var init, r := requests[..|requests| - 1], requests[|requests| - 1];
      RunGrowsName(l, p, init, symbol);
      BuyGrowsName(l, Buying(l, p, init), r, symbol);
      SameEquity(l, p, Buying(l, p, init));
      OneMore(Asked(init, symbol), NameCap(l, p));
    }
  }

  /** A run that asks at most once for a name not held at the start keeps it within both caps on a name. */
  lemma RunKeepsNameCap(l: Policy, p: Portfolio, requests: seq<Request>, symbol: string)
    requires NameValue(p.positions, symbol) == 0.0 && Asked(requests, symbol) <= 1
    ensures NameValue(Buying(l, p, requests).positions, symbol) <= Part(l.singleNameCap, p)
    ensures NameValue(Buying(l, p, requests).positions, symbol) <= Part(l.initialPositionCap, p)
  {
    hide *;
    RunGrowsName(l, p, requests, symbol);
    NameCapIsSmaller(l, p);
    AtMostOnce(Asked(requests, symbol), NameCap(l, p));
  }

  lemma NameCapIsSmaller(l: Policy, p: Portfolio)
    ensures 0.0 <= NameCap(l, p) <= Part(l.singleNameCap, p) && NameCap(l, p) <= Part(l.initialPositionCap, p)
  {
    CapNonNegative(l, p);
    hide Part;
    PartMonotone(Min(l.initialPositionCap, l.singleNameCap), l.singleNameCap, p);
    PartMonotone(Min(l.initialPositionCap, l.singleNameCap), l.initialPositionCap, p);
  }

  lemma AtMostOnce(n: nat, x: real)
    requires n <= 1 && x >= 0.0
    ensures Times(n as real, x) <= x
  {
    assert Times(0.0, x) == 0.0 && Times(1.0, x) == x;
  }

  lemma {:induction false} BuyingKeepsDrawdown(l: Policy, p: Portfolio, requests: seq<Request>)
    ensures Buying(l, p, requests).drawdown == p.drawdown
  {
    if requests != [] {
      BuyingKeepsDrawdown(l, p, requests[..|requests| - 1]);
      hide Assess;
    }
  }

  /** All through a run of purchases the caution mark appears exactly on allowed positions, and exactly if the
      drawdown at the start lies between the caution and the freeze threshold. */
  lemma CautionIff(l: Policy, p: Portfolio, requests: seq<Request>, r: Request)
    requires Assess(l, Buying(l, p, requests), r).Ok?
    ensures var a := Assess(l, Buying(l, p, requests), r).value;
      DrawdownCaution in a.reasons <==> a.allowed && l.caution <= p.drawdown < l.freeze
  {
    BuyingKeepsDrawdown(l, p, requests);
    hide TargetWeight, RawQuantity, WholeLots, CutDown, Value, Buying;
  }
}
