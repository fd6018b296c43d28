/** What the ledger's snapshots promise, and three concrete runs that show where the ledger
    does less than its documentation says. */
module LedgerFindings {
  import opened Wrappers
  import opened Basics
  import opened Rounding
  import opened Contracts
  import opened Ordering
  import opened Replay
  import opened LedgerModel

  /** Every position of every answered snapshot: shares held are bought minus sold, split into
      available and frozen with neither negative; what is available never came from that day. */
  lemma SnapshotPositions(cfg: Config, s: Ledger, asOf: int, symbol: string)
    requires SnapshotAt(cfg, s, asOf).Ok? && symbol in SnapshotAt(cfg, s, asOf).value.positions
    ensures var p, fills := SnapshotAt(cfg, s, asOf).value.positions[symbol], Upto(Effective(s), asOf);
      && p.symbol == symbol
      && p.total == Bought(fills, symbol) - Sold(fills, symbol)
      && p.available == Settled(cfg, fills, symbol, asOf) - Sold(fills, symbol)
      && 0 <= p.available && 0 <= p.frozen && p.available + p.frozen == p.total
      && ((forall d :: cfg.next(d) > d) ==> p.available <= BoughtBefore(fills, symbol, asOf) - Sold(fills, symbol))
  {
    hide Held, AvailableOn, Bought, Sold, Settled, BoughtBefore, ReplayFills, CostOf;
    var fills := Upto(Effective(s), asOf);
    var book := ReplayFills(cfg, fills).value;
    forall f | f in fills ensures f.tradeDate <= asOf { UptoMembers(Effective(s), asOf, f); }
    CountsOfReplay(cfg, fills, symbol, asOf);
    SoundReplay(cfg, fills);
    HeldBounds(LotsOf(book, symbol), asOf);
    if forall d :: cfg.next(d) > d { SettledBeforeDay(cfg, fills, symbol, asOf); }
  }

  /** The average cost is the held cost per share to the nearest 1/10000 yuan, and no shares cost nothing. */
  lemma AverageCostIsNearest(cfg: Config, s: Ledger, asOf: int, symbol: string)
    requires SnapshotAt(cfg, s, asOf).Ok? && symbol in SnapshotAt(cfg, s, asOf).value.positions
    ensures var p := SnapshotAt(cfg, s, asOf).value.positions[symbol];
      var cost := CostOf(LotsOf(ReplayFills(cfg, Upto(Effective(s), asOf)).value, symbol));
      && -p.total <= 2 * (p.averageCost * p.total - 100 * cost) <= p.total
      && (p.total == 0 ==> cost == 0 && p.averageCost == 0)
  {
    hide Upto, Effective, ReplayFills, Held, AvailableOn, CostOf, AverageCost, SoundLots;
    var fills := Upto(Effective(s), asOf);
    SoundReplay(cfg, fills);
    AverageOfLots(LotsOf(ReplayFills(cfg, fills).value, symbol));
  }

  lemma AverageOfLots(lots: seq<Lot>)
    requires SoundLots(lots)
    ensures var total, cost := Held(lots), CostOf(lots);
      && -total <= 2 * (AverageCost(total, cost) * total - 100 * cost) <= total
      && (total == 0 ==> cost == 0 && AverageCost(total, cost) == 0)
  {
    HeldBounds(lots, 0);
    var total, cost := Held(lots), CostOf(lots);
    if total == 0 {
      EmptyCostsNothing(lots);
    } else {
      hide Held, CostOf, HalfEven, SoundLots, AvailableOn;
      NearestTimes(100 * cost, total, AverageCost(total, cost));
    }
  }

  lemma NearestTimes(x: int, total: int, average: int)
    requires total > 0 && -0.5 <= average as real - x as real / total as real <= 0.5
    ensures -total <= 2 * (average * total - x) <= total
  {
    NearestReal(x as real, total as real, average as real);
    assert Times(average as real, total as real) == (average * total) as real;
    var gap := average * total - x;
    assert gap as real == (average * total) as real - x as real;
    hide Times;
    assert -(total as real) <= 2.0 * gap as real <= total as real;
    assert (2 * gap) as real == 2.0 * gap as real;
  }

  lemma NearestReal(x: real, n: real, average: real)
    requires n > 0.0 && -0.5 <= average - x / n <= 0.5
    ensures -n <= 2.0 * (Times(average, n) - x) <= n
  {
    var q := x / n;
    var d := average - q;
    assert q * n == x;
    assert Times(average, n) - x == d * n;
    TimesBounds(d, n);
  }

  lemma TimesBounds(d: real, n: real)
    requires -0.5 <= d <= 0.5 && n > 0.0
    ensures -n <= 2.0 * (d * n) <= n
  {
    var u, v := 0.5 - d, 0.5 + d;
    assert u * n >= 0.0;
    assert v * n >= 0.0;
    assert u * n == 0.5 * n - d * n && v * n == 0.5 * n + d * n;
  }

  /** Lots without shares hold no cost. */
  lemma {:induction false} EmptyCostsNothing(lots: seq<Lot>)
    requires SoundLots(lots) && Held(lots) <= 0
    ensures CostOf(lots) == 0
  {
    if lots != [] {
      var init := lots[..|lots| - 1];
      HeldBounds(init, 0);
      EmptyCostsNothing(init);
    }
  }

  /** Snapshot cash and profit balance against the cost still held, to the cent. */
  lemma SnapshotBalances(cfg: Config, s: Ledger, asOf: int)
    requires SnapshotAt(cfg, s, asOf).Ok?
    ensures var v, fills := SnapshotAt(cfg, s, asOf).value, Upto(Effective(s), asOf);
      && v.asOf == asOf && v.cash + TotalCost(ReplayFills(cfg, fills).value.lots) == cfg.initialCash + v.pnl
      && v.cash == CashOf(cfg, fills)
  {
    var fills := Upto(Effective(s), asOf);
    CostConservation(cfg, fills);
    forall f | f in fills ensures f.tradeDate <= asOf { UptoMembers(Effective(s), asOf, f); }
    CountsOfReplay(cfg, fills, "", asOf);
  }

  ghost predicate CashStaysNonNegative(cfg: Config, fills: seq<Fill>) {
    forall i :: 0 <= i <= |fills| ==> CashOf(cfg, fills[..i]) >= 0
  }

  /** Only buys are checked for cash: along a successful replay it stays non-negative exactly when
      no sell's fees exceed its notional by more than the cash at hand. */
  lemma {:induction false} CashNonNegativeIff(cfg: Config, fills: seq<Fill>)
    requires cfg.initialCash >= 0 && Feasible(cfg, fills)
    ensures CashStaysNonNegative(cfg, fills) <==>
      forall i :: 0 <= i < |fills| && fills[i].side.Sell? ==>
        Fees(cfg.fees, fills[i]) - Notional(fills[i]) <= CashOf(cfg, fills[..i])
  {
    hide Fees, Notional, Outlay;
    forall i | 0 <= i < |fills|
      ensures CashOf(cfg, fills[..i + 1]) == CashOf(cfg, fills[..i]) +
        if fills[i].side.Buy? then -Outlay(cfg, fills[i]) else Proceeds(cfg, fills[i])
    {
      assert fills[..i + 1] == fills[..i] + [fills[i]];
      FillSums(cfg, fills[..i], fills[i], "", 0);
    }
    if CashStaysNonNegative(cfg, fills) {
      forall i | 0 <= i < |fills| && fills[i].side.Sell?
        ensures Fees(cfg.fees, fills[i]) - Notional(fills[i]) <= CashOf(cfg, fills[..i])
      {
        assert CashOf(cfg, fills[..i + 1]) >= 0;
      }
    }
    if forall i :: 0 <= i < |fills| && fills[i].side.Sell? ==>
        Fees(cfg.fees, fills[i]) - Notional(fills[i]) <= CashOf(cfg, fills[..i]) {
      CashByCases(cfg, fills, |fills|);
      forall i | 0 <= i <= |fills| ensures CashOf(cfg, fills[..i]) >= 0 {
        CashByCases(cfg, fills, i);
      }
    }
  }

  lemma {:induction false} CashByCases(cfg: Config, fills: seq<Fill>, i: nat)
    requires cfg.initialCash >= 0 && Feasible(cfg, fills) && i <= |fills|
    requires forall j :: 0 <= j < |fills| && fills[j].side.Sell? ==>
      Fees(cfg.fees, fills[j]) - Notional(fills[j]) <= CashOf(cfg, fills[..j])
    ensures CashOf(cfg, fills[..i]) >= 0
  {
    hide Fees, Notional, Outlay;
    if i > 0 {
      CashByCases(cfg, fills, i - 1);
      assert Admissible(cfg, fills[..i - 1], fills[i - 1]);
      assert fills[..i] == fills[..i - 1] + [fills[i - 1]];
      FillSums(cfg, fills[..i - 1], fills[i - 1], "", 0);
    }
  }

  // ------------------------------------------------------------ concrete runs

  /** 10,000 yuan, next day settlement, a minimum commission and no rates. */
  function Demo(cash: int, minimum: nat): Config {
    Config(cash, FeeRates(0.0, minimum as real, 0.0, 0.0), map[], (d: int) => d + 1, 100)
  }

  function Trade(id: string, side: Side, quantity: int, price: int, day: int): Fill
    requires id != "" && quantity > 0 && price > 0
  {
    FillRecord(id, side, "000001", quantity, price, day, "Bank", "manual", day)
  }

  lemma DemoAmounts(cash: int, minimum: nat, f: Fill)
    requires f.symbol == "000001" && f.quantity == 100 * (f.quantity / 100)
    ensures Notional(f) == f.price * (f.quantity / 100)
    ensures Fees(Demo(cash, minimum).fees, f) == minimum
  {
    var lots := f.quantity / 100;
    assert f.price as real * f.quantity as real / 100.0 == (f.price * lots) as real by {
      assert f.quantity as real == 100.0 * lots as real;
      assert (f.price * lots) as real == f.price as real * lots as real;
    }
    HalfUpOfInt(f.price * lots);
    HalfUpOfInt(minimum);
    HalfUpOfInt(0);
    var n := Notional(f) as real;
    assert n * 0.0 == 0.0;
  }

  lemma SortPair(a: Fill, b: Fill)
    ensures Sort([a]) == [a]
    ensures Sort([a, b]) == if KeyLe(a, b) then [a, b] else [b, a]
  {
    UptoEmptyInsert(a, 0);
    SortSnoc([], a);
    assert [] + [a] == [a];
    SortSnoc([a], b);
    assert [a] + [b] == [a, b];
    InsertSnoc([], a, b);
    UptoEmptyInsert(b, 0);
  }

  lemma EffectiveOne(s: Ledger, f: Fill)
    requires s.events == [f] && f.id !in s.voided
    ensures Effective(s) == [f]
    ensures forall day :: f.tradeDate <= day ==> Upto(Effective(s), day) == [f]
  {
    hide Kept;
    assert [f] == [] + [f];
    KeptNone(s.voided);
    KeptAppend([], f, s.voided);
    SortPair(f, f);
    forall day | f.tradeDate <= day ensures Upto([f], day) == [f] { UptoEmptyInsert(f, day); }
  }

  lemma KeptNone(voided: set<string>)
    ensures Kept([], voided) == []
  {
  }

  /** A new, well dated fill whose account still replays is appended. */
  lemma AppendNew(cfg: Config, s: Ledger, e: Fill)
    requires e.id !in s.byId && !BeforeLatest(s, e)
    requires SnapshotAt(cfg, s.(events := s.events + [e]), e.tradeDate).Ok?
    ensures Append(cfg, s, e).0 ==
      s.(events := s.events + [e], byId := s.byId[e.id := e], records := s.records + [FillRow(e)])
    ensures Append(cfg, s, e).1.Ok?
  {
    hide SnapshotAt;
  }

  lemma EffectiveTwo(s: Ledger, a: Fill, b: Fill)
    requires Kept(s.events, s.voided) == [a, b] || Kept(s.events, s.voided) == [b, a]
    requires a.tradeDate < b.tradeDate
    ensures Effective(s) == [a, b]
    ensures Upto(Effective(s), a.tradeDate) == [a] && Upto(Effective(s), b.tradeDate) == [a, b]
  {
    hide Kept, Sort, KeyLe;
    LaterIsNotLe(b, a);
    KeyTotal(a, b);
    SortPair(a, b);
    SortPair(b, a);
    assert [a] + [b] == [a, b];
    UptoSnoc([a], b, a.tradeDate);
    UptoSnoc([a], b, b.tradeDate);
    UptoEmptyInsert(a, a.tradeDate);
    UptoEmptyInsert(a, b.tradeDate);
  }

  lemma KeptTwo(a: Fill, b: Fill)
    ensures Kept([a, b], {}) == [a, b]
  {
    hide Kept;
    assert [a] == [] + [a] && [a, b] == [a] + [b];
    KeptNone({});
    KeptAppend([], a, {});
    KeptAppend([a], b, {});
  }

  ghost predicate Pair(cfg: Config, buy: Fill, sell: Fill) {
    && cfg.next == ((d: int) => d + 1) && cfg.known == map[] && cfg.lotSize == 100
    && buy.side.Buy? && sell.side.Sell? && buy.symbol == sell.symbol && buy.tradeDate < sell.tradeDate
    && buy.id != sell.id && buy.name != "" && buy.quantity % 100 == 0
    && Notional(buy) > 0 && Notional(sell) > 0 && Outlay(cfg, buy) <= cfg.initialCash
  }

  function OneFill(buy: Fill): Ledger { Ledger([buy], map[buy.id := buy], [], {}, [FillRow(buy)]) }

  function TwoFillLedger(buy: Fill, sell: Fill): Ledger {
    Ledger([buy, sell], map[buy.id := buy][sell.id := sell], [], {}, [FillRow(buy), FillRow(sell)])
  }

  lemma BuyAccepted(cfg: Config, buy: Fill, sell: Fill)
    requires Pair(cfg, buy, sell)
    ensures RecordFill(cfg, EMPTY, buy).0 == OneFill(buy)
  {
    var grown := EMPTY.(events := EMPTY.events + [buy]);
    assert EMPTY.events + [buy] == [buy];
    EffectiveOne(grown, buy);
    TwoFills(cfg, buy, sell);
    hide Notional, Outlay, Effective, Upto, ReplayFills, SnapshotOf, Append;
    assert SnapshotAt(cfg, grown, buy.tradeDate).Ok?;
    AppendNew(cfg, EMPTY, buy);
    assert EMPTY.records + [FillRow(buy)] == [FillRow(buy)];
  }

  lemma OneFillSettled(cfg: Config, buy: Fill, day: int)
    requires buy.side.Buy? && cfg.next(buy.tradeDate) <= day
    ensures Settled(cfg, [buy], buy.symbol, day) == buy.quantity && Sold([buy], buy.symbol) == 0
  {
    assert [buy][..0] == [];
  }

  lemma BoughtIsAvailable(cfg: Config, buy: Fill, day: int)
    requires buy.side.Buy? && Notional(buy) > 0 && Outlay(cfg, buy) <= cfg.initialCash
    requires buy.tradeDate <= day && cfg.next(buy.tradeDate) <= day
    ensures SnapshotAt(cfg, OneFill(buy), day).Ok?
    ensures var positions := SnapshotAt(cfg, OneFill(buy), day).value.positions;
      buy.symbol in positions && positions[buy.symbol].available == buy.quantity
  {
    hide Notional, Outlay, Effective, Upto, ReplayFills, PositionOf, Sold, Settled, Bought, BoughtBefore;
    EffectiveOne(OneFill(buy), buy);
    OneFillPosition(cfg, buy);
    OneFillSettled(cfg, buy, day);
    SnapshotPositions(cfg, OneFill(buy), day, buy.symbol);
  }

  lemma AvailableAfterBuy(cfg: Config, buy: Fill, sell: Fill)
    requires Pair(cfg, buy, sell)
    ensures Precheck(cfg, OneFill(buy), sell).None? <==> sell.quantity <= buy.quantity
  {
    hide SnapshotAt, Notional, Outlay;
    BoughtIsAvailable(cfg, buy, sell.tradeDate);
  }

  lemma OneFillPosition(cfg: Config, buy: Fill)
    requires buy.side.Buy? && Notional(buy) > 0 && Outlay(cfg, buy) <= cfg.initialCash
    ensures ReplayFills(cfg, [buy]).Ok? && buy.symbol in ReplayFills(cfg, [buy]).value.lots
  {
    assert [buy][..0] == [];
    hide Notional, Outlay;
  }

  /** A buy and a later sell replay exactly when the buy was at least as large. */
  lemma TwoFills(cfg: Config, buy: Fill, sell: Fill)
    requires cfg.next == ((d: int) => d + 1)
    requires buy.side.Buy? && sell.side.Sell? && buy.symbol == sell.symbol && buy.tradeDate < sell.tradeDate
    requires Notional(buy) > 0 && Notional(sell) > 0 && Outlay(cfg, buy) <= cfg.initialCash
    ensures ReplayFills(cfg, [buy, sell]).Ok? <==> sell.quantity <= buy.quantity
    ensures ReplayFills(cfg, [buy]).Ok?
  {
    OneFillPosition(cfg, buy);
    assert [buy, sell][..1] == [buy] && [buy] == [] + [buy];
    hide Notional, Outlay, Apply, Sold, Settled, CashOf;
    NoneSold(cfg, buy.symbol, sell.tradeDate);
    FillSums(cfg, [], buy, buy.symbol, sell.tradeDate);
    AdmissibleIff(cfg, [buy], sell);
  }

  lemma NoneSold(cfg: Config, symbol: string, day: int)
    ensures Sold([], symbol) == 0 && Settled(cfg, [], symbol, day) == 0
  {
  }

  lemma SellAppends(cfg: Config, buy: Fill, sell: Fill)
    requires buy.tradeDate < sell.tradeDate && buy.id != sell.id
    requires SnapshotAt(cfg, OneFill(buy).(events := [buy, sell]), sell.tradeDate).Ok?
    ensures Append(cfg, OneFill(buy), sell).0 == TwoFillLedger(buy, sell)
  {
    hide SnapshotAt, Append;
    var s := OneFill(buy);
    assert s.events + [sell] == [buy, sell] && s.records + [FillRow(sell)] == [FillRow(buy), FillRow(sell)];
    AppendNew(cfg, s, sell);
  }

  lemma SellAccepted(cfg: Config, buy: Fill, sell: Fill)
    requires Pair(cfg, buy, sell) && sell.quantity <= buy.quantity
    ensures RecordFill(cfg, OneFill(buy), sell).0 == TwoFillLedger(buy, sell)
  {
    var grown := OneFill(buy).(events := [buy, sell]);
    hide Pair, SnapshotAt, Precheck, Append, TwoFillLedger;
    PairOrder(cfg, buy, sell);
    AvailableAfterBuy(cfg, buy, sell);
    PairAnswers(cfg, grown, buy, sell);
    SellAppends(cfg, buy, sell);
  }

  lemma PairOrder(cfg: Config, buy: Fill, sell: Fill)
    requires Pair(cfg, buy, sell)
    ensures buy.tradeDate < sell.tradeDate && buy.id != sell.id
  {
  }

  lemma PairAnswers(cfg: Config, s: Ledger, buy: Fill, sell: Fill)
    requires Pair(cfg, buy, sell) && s.events == [buy, sell] && s.voided == {}
    ensures SnapshotAt(cfg, s, sell.tradeDate).Ok? <==> sell.quantity <= buy.quantity
  {
    KeptTwo(buy, sell);
    EffectiveTwo(s, buy, sell);
    TwoFills(cfg, buy, sell);
    hide Effective, Upto, ReplayFills, SnapshotOf, Kept, Notional, Outlay;
  }

  /** Both fills go through, and the ledger they leave answers every date. */
  lemma PairRun(cfg: Config, buy: Fill, sell: Fill)
    requires Pair(cfg, buy, sell) && sell.quantity <= buy.quantity
    ensures var s := Run(cfg, [Fills(buy), Fills(sell)]);
      s == TwoFillLedger(buy, sell) && Indexed(s) && forall day :: SnapshotAt(cfg, s, day).Ok?
  {
    hide RecordFill, SnapshotAt, Pair, Run, Indexed;
    var calls := [Fills(buy), Fills(sell)];
    assert [Fills(buy)] == [] + [Fills(buy)] && calls == [Fills(buy)] + [Fills(sell)];
    RunSnoc(cfg, [], Fills(buy));
    RunSnoc(cfg, [Fills(buy)], Fills(sell));
    BuyAccepted(cfg, buy, sell);
    SellAccepted(cfg, buy, sell);
    RunIndexed(cfg, calls);
    forall day ensures SnapshotAt(cfg, Run(cfg, calls), day).Ok? { AlwaysReplayable(cfg, calls, day); }
  }

  lemma RunSnoc(cfg: Config, calls: seq<Call>, call: Call)
    ensures Run(cfg, calls + [call]) == Step(cfg, Run(cfg, calls), call).0
    ensures Run(cfg, []) == EMPTY
  {
    assert (calls + [call])[..|calls|] == calls;
  }

  lemma CorrectionGoesThrough(cfg: Config, s: Ledger, c: Correction)
    requires CorrectionRefused(s, c).None? && SnapshotAt(cfg, Corrected(s, c), c.replacement.tradeDate).Ok?
    ensures AppendCorrection(cfg, s, c).1.Ok? && AppendCorrection(cfg, s, c).0 == Corrected(s, c)
  {
    hide SnapshotAt, CorrectionRefused;
    assert DefaultDate(Corrected(s, c), 0) == c.replacement.tradeDate;
  }

  lemma PairCorrection(cfg: Config, buy: Fill, sell: Fill, c: Correction)
    requires Pair(cfg, buy, sell) && Pair(cfg, c.replacement, sell)
    requires c.originalId == buy.id && c.id != "" && c.replacement.id != buy.id
    requires c.replacement.symbol == buy.symbol && c.replacement.tradeDate == buy.tradeDate
    ensures CorrectionRefused(TwoFillLedger(buy, sell), c).None?
    ensures Kept(Corrected(TwoFillLedger(buy, sell), c).events, {buy.id}) == [sell, c.replacement]
  {
    hide Notional, Outlay;
    KeptCorrected(buy, sell, c.replacement);
  }

  lemma BadCorrection(cfg: Config, buy: Fill, sell: Fill, c: Correction)
    requires Pair(cfg, buy, sell) && Pair(cfg, c.replacement, sell)
    requires c.originalId == buy.id && c.id != "" && c.replacement.id != buy.id
    requires c.replacement.symbol == buy.symbol && c.replacement.tradeDate == buy.tradeDate
    requires c.replacement.quantity < sell.quantity
    ensures var s := TwoFillLedger(buy, sell);
      AppendCorrection(cfg, s, c).1.Ok? && SnapshotAt(cfg, AppendCorrection(cfg, s, c).0, sell.tradeDate).Err?
  {
    hide SnapshotAt, Pair, CorrectionRefused, AppendCorrection, Kept;
    var s := TwoFillLedger(buy, sell);
    PairCorrection(cfg, buy, sell, c);
    assert Corrected(s, c).voided == {buy.id};
    CorrectedAnswers(cfg, Corrected(s, c), c.replacement, sell);
    CorrectionGoesThrough(cfg, s, c);
  }

  lemma CorrectedAnswers(cfg: Config, after: Ledger, r: Fill, sell: Fill)
    requires Pair(cfg, r, sell) && Kept(after.events, after.voided) == [sell, r] && r.quantity < sell.quantity
    ensures SnapshotAt(cfg, after, r.tradeDate).Ok? && SnapshotAt(cfg, after, sell.tradeDate).Err?
  {
    EffectiveTwo(after, r, sell);
    TwoFills(cfg, r, sell);
    hide Notional, Outlay, Effective, Upto, ReplayFills, SnapshotOf, Kept;
  }

  lemma KeptCorrected(buy: Fill, sell: Fill, r: Fill)
    requires buy.id != sell.id && r.id != buy.id
    ensures Kept([buy, sell] + [r], {buy.id}) == [sell, r]
  {
    hide Kept;
    assert [buy] == [] + [buy] && [buy, sell] == [buy] + [sell];
    KeptNone({buy.id});
    KeptAppend([], buy, {buy.id});
    KeptAppend([buy], sell, {buy.id});
    KeptAppend([buy, sell], r, {buy.id});
  }

  lemma DemoPair(cash: nat, minimum: nat, buy: Fill, sell: Fill)
    requires buy.side.Buy? && sell.side.Sell? && buy.symbol == sell.symbol == "000001" && buy.tradeDate < sell.tradeDate
    requires buy.id != sell.id && buy.name != "" && buy.quantity == 100 * (buy.quantity / 100)
    requires sell.quantity == 100 * (sell.quantity / 100)
    requires 0 < buy.price * (buy.quantity / 100) && 0 < sell.price * (sell.quantity / 100)
    requires buy.price * (buy.quantity / 100) + minimum <= cash
    ensures Pair(Demo(cash, minimum), buy, sell)
  {
    DemoAmounts(cash, minimum, buy);
    DemoAmounts(cash, minimum, sell);
    hide Notional, Fees;
  }

  ghost predicate Answered(cfg: Config, s: Ledger) {
    forall day :: SnapshotAt(cfg, s, day).Ok?
  }

  /** A run after which every date is answered, and a correction that is accepted and ends that. */
  ghost predicate BreaksLaterDay(cfg: Config, calls: seq<Call>, c: Correction) {
    && Answered(cfg, Run(cfg, calls))
    && AppendCorrection(cfg, Run(cfg, calls), c).1.Ok?
    && SnapshotAt(cfg, AppendCorrection(cfg, Run(cfg, calls), c).0, 3).Err?
  }

  /** A buy of 200 on day 1, sold on day 3, then corrected to 100: the correction is accepted and
      day 3 can no longer be answered. */
  lemma CorrectionCanBreakALaterDay()
    ensures BreaksLaterDay(
      Demo(1000000, 0), [Fills(Trade("b", Buy, 200, 10000, 1)), Fills(Trade("s", Sell, 200, 10000, 3))],
      Correction("x", "b", Trade("c", Buy, 100, 10000, 1), 3))
  {
    var buy, sell := Trade("b", Buy, 200, 10000, 1), Trade("s", Sell, 200, 10000, 3);
    var smaller := Trade("c", Buy, 100, 10000, 1);
    var cfg, c := Demo(1000000, 0), Correction("x", "b", smaller, 3);
    assert "b"[0] == 'b' && "c"[0] == 'c' && "s"[0] == 's';
    hide BreaksLaterDay, Pair, Demo;
    DemoPair(1000000, 0, buy, sell);
    DemoPair(1000000, 0, smaller, sell);
    PairBreaks(cfg, buy, sell, c);
  }

  lemma PairBreaks(cfg: Config, buy: Fill, sell: Fill, c: Correction)
    requires Pair(cfg, buy, sell) && Pair(cfg, c.replacement, sell) && sell.tradeDate == 3
    requires c.originalId == buy.id && c.id != "" && c.replacement.id != buy.id
    requires c.replacement.symbol == buy.symbol && c.replacement.tradeDate == buy.tradeDate
    requires c.replacement.quantity < sell.quantity <= buy.quantity
    ensures BreaksLaterDay(cfg, [Fills(buy), Fills(sell)], c)
  {
    hide SnapshotAt, AppendCorrection, Run, TwoFillLedger, Pair, Indexed;
    PairRun(cfg, buy, sell);
    BadCorrection(cfg, buy, sell, c);
  }

  /** A run after which every date is answered, and a recorded fill, read again at whatever time, that
      is refused. */
  ghost predicate RefusesRecorded(cfg: Config, calls: seq<Call>, e: Fill) {
    var s := Run(cfg, calls);
    && Answered(cfg, s) && e.id in s.byId && SameEvent(s.byId[e.id], e)
    && RecordFill(cfg, s, e).1 == Err(InsufficientShares)
  }

  /** 200 bought on day 1 and sold on day 3: the sell sent again raises, although duplicates are
      documented as idempotent. */
  lemma ResubmittedSellCanRaise(later: int)
    ensures RefusesRecorded(
      Demo(1000000, 0), [Fills(Trade("b", Buy, 200, 10000, 1)), Fills(Trade("s", Sell, 200, 10000, 3))],
      Trade("s", Sell, 200, 10000, 3).(recordedAt := later))
  {
    var buy, sell := Trade("b", Buy, 200, 10000, 1), Trade("s", Sell, 200, 10000, 3);
    DemoPair(1000000, 0, buy, sell);
    hide RefusesRecorded, Pair;
    PairRefuses(Demo(1000000, 0), buy, sell, sell.(recordedAt := later));
  }

  lemma PairRefuses(cfg: Config, buy: Fill, sell: Fill, again: Fill)
    requires Pair(cfg, buy, sell) && buy.quantity == sell.quantity
    requires sell.id == again.id && SameEvent(sell, again)
    ensures RefusesRecorded(cfg, [Fills(buy), Fills(sell)], again)
  {
    assert TwoFillLedger(buy, sell).byId[sell.id] == sell && sell.id in TwoFillLedger(buy, sell).byId;
    hide SnapshotAt, RecordFill, Run, Pair, TwoFillLedger, Indexed;
    PairRun(cfg, buy, sell);
    NothingLeft(cfg, buy, sell, again);
  }

  lemma PairCounts(cfg: Config, buy: Fill, sell: Fill)
    requires buy.side.Buy? && sell.side.Sell? && buy.symbol == sell.symbol && buy.quantity == sell.quantity
    ensures Bought([buy, sell], buy.symbol) == Sold([buy, sell], buy.symbol)
  {
    assert [buy, sell] == [buy] + [sell] && [] + [buy] == [buy];
    FillSums(cfg, [], buy, buy.symbol, 0);
    FillSums(cfg, [buy], sell, buy.symbol, 0);
  }

  lemma NothingAvailable(cfg: Config, buy: Fill, sell: Fill)
    requires Pair(cfg, buy, sell) && buy.quantity == sell.quantity
    ensures var snapshot := SnapshotAt(cfg, TwoFillLedger(buy, sell), sell.tradeDate);
      snapshot.Ok? && (sell.symbol in snapshot.value.positions ==> snapshot.value.positions[sell.symbol].available <= 0)
  {
    var s, day := TwoFillLedger(buy, sell), sell.tradeDate;
    KeptTwo(buy, sell);
    EffectiveTwo(s, buy, sell);
    PairAnswers(cfg, s, buy, sell);
    PairCounts(cfg, buy, sell);
    hide Notional, Outlay, Effective, Upto, ReplayFills, SnapshotAt, Kept, Append, Bought, Sold, Settled, BoughtBefore;
    if sell.symbol in SnapshotAt(cfg, s, day).value.positions {
      SnapshotPositions(cfg, s, day, sell.symbol);
    }
  }

  lemma NothingLeft(cfg: Config, buy: Fill, sell: Fill, again: Fill)
    requires Pair(cfg, buy, sell) && buy.quantity == sell.quantity && SameEvent(sell, again)
    ensures RecordFill(cfg, TwoFillLedger(buy, sell), again).1 == Err(InsufficientShares)
  {
    hide Notional, Outlay, SnapshotAt, Append, TwoFillLedger;
    NothingAvailable(cfg, buy, sell);
  }

  /** A sell below its own minimum commission takes the account's cash below zero: 6 yuan, a lot bought
      for 1 yuan and sold for 1 yuan, with 5 yuan commission each. */
  lemma SellCanOverdrawCash()
    ensures var cfg := Demo(600, 500);
      var s := Run(cfg, [Fills(Trade("b", Buy, 100, 100, 1)), Fills(Trade("s", Sell, 100, 100, 3))]);
      SnapshotAt(cfg, s, 3).Ok? && SnapshotAt(cfg, s, 3).value.cash == -400
  {
    var cfg := Demo(600, 500);
    var buy, sell := Trade("b", Buy, 100, 100, 1), Trade("s", Sell, 100, 100, 3);
    DemoPair(600, 500, buy, sell);
    DemoAmounts(600, 500, buy);
    DemoAmounts(600, 500, sell);
    assert cfg.initialCash - Outlay(cfg, buy) + Proceeds(cfg, sell) == -400;
    hide Pair, Notional, Fees, Outlay, Proceeds, Run, SnapshotAt, Demo;
    PairRun(cfg, buy, sell);
    PairSnapshotCash(cfg, buy, sell);
  }

  lemma PairSnapshotCash(cfg: Config, buy: Fill, sell: Fill)
    requires Pair(cfg, buy, sell) && sell.quantity <= buy.quantity
    ensures var snapshot := SnapshotAt(cfg, TwoFillLedger(buy, sell), sell.tradeDate);
      snapshot.Ok? && snapshot.value.cash == cfg.initialCash - Outlay(cfg, buy) + Proceeds(cfg, sell)
  {
    hide Notional, Outlay, Proceeds, Effective, Upto, ReplayFills;
    KeptTwo(buy, sell);
    EffectiveTwo(TwoFillLedger(buy, sell), buy, sell);
    PairCash(cfg, buy, sell);
  }

  lemma PairCash(cfg: Config, buy: Fill, sell: Fill)
    requires Pair(cfg, buy, sell) && sell.quantity <= buy.quantity
    ensures ReplayFills(cfg, [buy, sell]).Ok?
    ensures ReplayFills(cfg, [buy, sell]).value.cash == cfg.initialCash - Outlay(cfg, buy) + Proceeds(cfg, sell)
  {
    TwoFills(cfg, buy, sell);
    assert [buy, sell] == [buy] + [sell] && [buy] == [] + [buy];
    hide ReplayFills, Outlay, Proceeds, Notional;
    FillSums(cfg, [], buy, buy.symbol, sell.tradeDate);
    FillSums(cfg, [buy], sell, buy.symbol, sell.tradeDate);
    CountsOfReplay(cfg, [buy, sell], buy.symbol, sell.tradeDate);
    NoCashMoved(cfg);
    hide CashOf;
  }

  lemma NoCashMoved(cfg: Config)
    ensures CashOf(cfg, []) == cfg.initialCash
  {
  }
}
