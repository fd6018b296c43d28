/** Which signals a day carries out, what it selects, which holdings it sells and which names it buys. */
module EvaluatorRules {
  import opened Wrappers
  import opened Basics
  import opened Evaluator
  import opened EvaluatorSafety
  import opened EvaluatorAccounts

  // -------------------------------------------------------------------- signals

  /** The calendar's days in `(a, b]`. */
  function DaysBetween(calendar: seq<int>, a: int, b: int): nat {
    if calendar == [] then 0
    else
      var d := calendar[|calendar| - 1];
      DaysBetween(calendar[..|calendar| - 1], a, b) + if a < d <= b then 1 else 0
  }

  lemma {:induction false} DaysBetweenIs(calendar: seq<int>, a: int, b: int)
    requires a <= b
    ensures DaysBetween(calendar, a, b) == NotAfter(calendar, b) - NotAfter(calendar, a)
  {
    if calendar != [] { DaysBetweenIs(calendar[..|calendar| - 1], a, b); }
  }

  lemma {:induction false} NotAfterDay(calendar: seq<int>, k: nat)
    requires Increasing(calendar) && k < |calendar|
    ensures NotAfter(calendar, calendar[k]) == k + 1
  {
    var n := |calendar| - 1;
    if k == n {
      NotAfterAll(calendar, calendar[k]);
    } else {
      NotAfterDay(calendar[..n], k);
    }
  }

  lemma {:induction false} NotAfterAll(calendar: seq<int>, day: int)
    requires forall i :: 0 <= i < |calendar| ==> calendar[i] <= day
    ensures NotAfter(calendar, day) == |calendar|
  {
    if calendar != [] { NotAfterAll(calendar[..|calendar| - 1], day); }
  }

  /** A signal is carried out on the calendar's `delay`-th day after it. */
  lemma ExecutionIsNthDay(calendar: seq<int>, signal: int, delay: nat, day: int)
    requires Increasing(calendar) && delay >= 1
    ensures Delayed(calendar, signal, delay) == Some(day) <==>
      day in calendar && day > signal && DaysBetween(calendar, signal, day) == delay
  {
    if day in calendar {
      var k :| 0 <= k < |calendar| && calendar[k] == day;
      NotAfterDay(calendar, k);
      if day > signal { DaysBetweenIs(calendar, signal, day); }
      if Delayed(calendar, signal, delay) == Some(day) { LaterDay(calendar, signal, k); }
    }
    var i := NotAfter(calendar, signal) + delay - 1;
    if i < |calendar| { NotAfterDay(calendar, i); }
  }

  lemma {:induction false} LaterDay(calendar: seq<int>, day: int, k: nat)
    requires Increasing(calendar) && k < |calendar| && NotAfter(calendar, day) <= k
    ensures calendar[k] > day
  {
    if calendar[k] <= day { NotAfterGrows(calendar, calendar[k], day); NotAfterDay(calendar, k); }
  }

  lemma {:induction false} NotAfterGrows(calendar: seq<int>, a: int, b: int)
    requires a <= b
    ensures NotAfter(calendar, a) <= NotAfter(calendar, b)
  {
    if calendar != [] { NotAfterGrows(calendar[..|calendar| - 1], a, b); }
  }

  ghost predicate DueOn(input: Input, predictions: seq<Prediction>, delay: nat, day: int, date: int) {
    (exists i :: 0 <= i < |predictions| && predictions[i].signalDate == date) &&
        Delayed(input.calendar, date, delay) == Some(day)
  }

  /** A day carries out the latest of the signal dates due on it. */
  lemma {:induction false} LatestSignalCounts(input: Input, predictions: seq<Prediction>, delay: nat, day: int)
    ensures var signal := SignalFor(input, predictions, delay, day);
      && (signal.Some? ==> DueOn(input, predictions, delay, day, signal.value))
      && (forall date :: DueOn(input, predictions, delay, day, date) ==> signal.Some? && date <= signal.value)
  {
    if predictions != [] {
      hide Delayed;
      var init, last := predictions[..|predictions| - 1], predictions[|predictions| - 1];
      LatestSignalCounts(input, init, delay, day);
      forall date | DueOn(input, init, delay, day, date) ensures DueOn(input, predictions, delay, day, date) {
        var i :| 0 <= i < |init| && init[i].signalDate == date;
        assert predictions[i].signalDate == date;
      }
      assert predictions[|predictions| - 1].signalDate == last.signalDate;
      forall date | DueOn(input, predictions, delay, day, date)
        ensures date == last.signalDate || DueOn(input, init, delay, day, date)
      {
        var i :| 0 <= i < |predictions| && predictions[i].signalDate == date;
        if i < |init| { assert init[i].signalDate == date; }
      }
    }
  }

  lemma {:induction false} OnDateMembers(predictions: seq<Prediction>, date: int, p: Prediction)
    ensures p in OnDate(predictions, date) <==> p in predictions && p.signalDate == date
  {
    if predictions != [] {
      assert predictions == predictions[..|predictions| - 1] + [predictions[|predictions| - 1]];
      OnDateMembers(predictions[..|predictions| - 1], date, p);
    }
  }

  // ------------------------------------------------------------------- selection

  lemma {:induction false} SymbolsHave(s: seq<Prediction>, i: nat)
    requires i < |s|
    ensures s[i].symbol in Symbols(s)
  {
    if i < |s| - 1 { SymbolsHave(s[..|s| - 1], i); }
  }

  lemma {:induction false} SomePlace(s: seq<Prediction>, symbols: seq<string>, k: nat) returns (j: nat)
    requires symbols == Symbols(s) && k < |symbols|
    ensures j < |s| && s[j].symbol == symbols[k]
  {
    var n := |s| - 1;
    var before := Symbols(s[..n]);
    if k < |before| { j := SomePlace(s[..n], before, k); } else { j := n; }
  }

  lemma TakeWhole<T>(s: seq<T>, k: nat)
    ensures k + 1 == |s| ==> s[..k + 1] == s
  {
  }

  /** A symbol listed before another one, or instead of it, has an earlier place. */
  lemma {:induction false} ListedEarlier(s: seq<Prediction>, k: nat, i: nat) returns (j: nat)
    requires k < |Symbols(s)| && i < |s| && s[i].symbol !in Symbols(s)[..k + 1]
    ensures j < i && s[j].symbol == Symbols(s)[k]
  {
    var n := |s| - 1;
    var init := s[..n];
    var before, all := Symbols(init), Symbols(s);
    SymbolsHave(s, i);
    TakeWhole(all, k);
    assert k < |before|;
    assert all[..k + 1] == before[..k + 1] && all[k] == before[k];
    if i < n { j := ListedEarlier(init, k, i); } else { j := SomePlace(init, before, k); }
  }

  lemma NotAmong<T>(s: seq<T>, n: nat, k: nat, x: T)
    requires k < n <= |s| && x !in s[..n]
    ensures x !in s[..k + 1] && s[..n][k] == s[k]
  {
    assert s[..k + 1] == s[..n][..k + 1];
  }

  lemma PlaceOf<T>(s: seq<T>, t: seq<T>, x: T) returns (i: nat)
    requires multiset(s) == multiset(t) && x in s
    ensures i < |t| && t[i] == x
  {
    assert x in multiset(s) && x in multiset(t);
    i :| i < |t| && t[i] == x;
  }

  /** A prediction left out, although the selection is full, scores no more than some prediction for each symbol
      taken; and nothing is left out unless the selection is full. */
  lemma SelectionIsBest(cfg: Settings, group: seq<Prediction>, p: Prediction, k: nat) returns (q: Prediction)
    requires p in group && p.symbol !in Selected(cfg, group)
    ensures |Selected(cfg, group)| == cfg.maxPositions
    ensures k < cfg.maxPositions ==> q in group && q.symbol == Selected(cfg, group)[k] && q.score >= p.score
  {
    hide Ranked, Symbols;
    q := p;
    var ranked := Ranked(group);
    var all, chosen := Symbols(ranked), Selected(cfg, group);
    RankedSorted(group);
    var i := PlaceOf(group, ranked, p);
    SymbolsHave(ranked, i);
    if k < cfg.maxPositions {
      NotAmong(all, cfg.maxPositions, k, p.symbol);
      var j := ListedEarlier(ranked, k, i);
      var g := PlaceOf(ranked, group, ranked[j]);
      q := group[g];
    }
  }

  /** The weight is as large as the caps allow. */
  lemma WeightIsLargest(cfg: Settings, count: nat)
    requires count > 0
    ensures Weight(cfg, count) == cfg.maxSingle || Times(count as real, Weight(cfg, count)) == cfg.maxGross
  {
  }

  // -------------------------------------------------------------------- selling

  /** A bar on which an order of this side can be carried out. */
  ghost predicate Tradable(input: Input, symbol: string, day: int, buying: bool) {
    (symbol, day) in input.bars &&
    var bar := input.bars[(symbol, day)];
    !bar.suspended && (buying ==> !bar.limitUp) && (!buying ==> !bar.limitDown)
  }

  /** A holding outside the selection, entered on an earlier day, that can be sold. */
  ghost predicate MustSell(input: Input, day: int, target: seq<string>, d: Desk, symbol: string) {
    && Held(d.positions, symbol).Some? && symbol !in target && Tradable(input, symbol, day, false)
    && symbol in d.entryDates && d.entryDates[symbol] < day
  }

  ghost predicate SameHolding(a: Desk, b: Desk, symbol: string) {
    && Held(a.positions, symbol) == Held(b.positions, symbol)
    && (symbol in a.entryDates <==> symbol in b.entryDates)
    && (symbol in a.entryDates ==> a.entryDates[symbol] == b.entryDates[symbol])
  }

  ghost predicate GivenUp(d: Desk, symbol: string) { Held(d.positions, symbol).None? && symbol !in d.entryDates }

  lemma SellOneRule(cfg: Settings, input: Input, day: int, target: seq<string>, d: Desk, symbol: string, x: string)
    ensures var after := SellOne(cfg, input, day, target, d, symbol);
      if x == symbol && MustSell(input, day, target, d, x) then GivenUp(after, x) else SameHolding(d, after, x)
    ensures var after := SellOne(cfg, input, day, target, d, symbol);
      if MustSell(input, day, target, d, symbol)
      then exists t :: after.trades == d.trades + [t] && t.side.Sell? && t.date == day && t.symbol == symbol
      else after == d
  {
    WithoutEffect(d.positions, symbol, x);
    var after := SellOne(cfg, input, day, target, d, symbol);
    if MustSell(input, day, target, d, symbol) { assert after.trades == d.trades + [after.trades[|d.trades|]]; }
    hide Held, Without, SaleProceeds, SaleFees, SaleNotional;
  }

  /** The rows a selling pass adds. */
  ghost predicate SoldRows(input: Input, day: int, target: seq<string>, d: Desk, after: Desk) {
    && d.trades <= after.trades
    && forall i :: |d.trades| <= i < |after.trades| ==>
         after.trades[i].side.Sell? && after.trades[i].date == day &&
             MustSell(input, day, target, d, after.trades[i].symbol)
  }

  lemma {:induction false} SellPassRule(cfg: Settings, input: Input, day: int, target: seq<string>, d: Desk,
      symbols: seq<string>, x: string)
    ensures var after := SellPass(cfg, input, day, target, d, symbols);
      if x in symbols && MustSell(input, day, target, d, x) then GivenUp(after, x) else SameHolding(d, after, x)
  {
    if symbols != [] {
      var k := |symbols| - 1;
      assert symbols == symbols[..k] + [symbols[k]];
      SellPassRule(cfg, input, day, target, d, symbols[..k], x);
      SellOneRule(cfg, input, day, target, SellPass(cfg, input, day, target, d, symbols[..k]), symbols[k], x);
      hide SellOne, Held, Tradable, SellPass;
      assert SellPass(cfg, input, day, target, d, symbols) ==
        SellOne(cfg, input, day, target, SellPass(cfg, input, day, target, d, symbols[..k]), symbols[k]) by {
        SellPassLast(cfg, input, day, target, d, symbols);
      }
    }
  }

  lemma SellPassLast(cfg: Settings, input: Input, day: int, target: seq<string>, d: Desk, symbols: seq<string>)
    requires symbols != []
    ensures var k := |symbols| - 1;
      SellPass(cfg, input, day, target, d, symbols) ==
      SellOne(cfg, input, day, target, SellPass(cfg, input, day, target, d, symbols[..k]), symbols[k])
  {
    hide SellOne;
  }

  lemma {:induction false} SellPassRows(cfg: Settings, input: Input, day: int, target: seq<string>, d: Desk,
      symbols: seq<string>)
    ensures SoldRows(input, day, target, d, SellPass(cfg, input, day, target, d, symbols))
  {
    if symbols != [] {
      var k := |symbols| - 1;
      var before := SellPass(cfg, input, day, target, d, symbols[..k]);
      SellPassRows(cfg, input, day, target, d, symbols[..k]);
      SellPassRule(cfg, input, day, target, d, symbols[..k], symbols[k]);
      SellOneRule(cfg, input, day, target, before, symbols[k], symbols[k]);
      SellPassLast(cfg, input, day, target, d, symbols);
      hide SellOne, Held, Tradable, SellPass;
    }
  }

  // --------------------------------------------------------------------- buying

  /** The price a buy would pay is positive, and so is what each unit spent costs. */
  ghost predicate Priced(cfg: Settings, input: Input, day: int) {
    CostRate(cfg) > 0.0 && cfg.slippage > -1.0 && forall s :: (s, day) in input.bars ==> input.bars[(s, day)].open > 0.0
  }

  lemma PositivePrice(cfg: Settings, open: real)
    requires cfg.slippage > -1.0 && open > 0.0
    ensures BuyPrice(cfg, open) > 0.0
  {
    var u := 1.0 + cfg.slippage;
    assert open * u > 0.0;
  }

  lemma SignOfQuotient(x: real, y: real)
    requires y > 0.0
    ensures Quotient(x, y) > 0.0 <==> x > 0.0
  {
    var q := x / y;
    assert q * y == x;
    if q > 0.0 { assert q * y > 0.0; } else { assert (-q) * y >= 0.0; }
  }

  /** The rows a buying pass adds, each for the desired amount unless it took the last of the cash. */
  ghost predicate BoughtRows(input: Input, day: int, target: seq<string>, desired: real, d: Desk, after: Desk,
      priced: bool) {
    && d.trades <= after.trades
    && forall i :: |d.trades| <= i < |after.trades| ==>
         && after.trades[i].side.Buy? && after.trades[i].date == day && after.trades[i].symbol in target
         && Held(d.positions, after.trades[i].symbol).None? && Tradable(input, after.trades[i].symbol, day, true)
         && (priced && after.cash > 0.0 ==> after.trades[i].notional == desired)
  }

  /** A new holding was selected, can be bought and is entered today; a holding from before stays as it is. */
  ghost predicate BoughtHolding(input: Input, day: int, target: seq<string>, d: Desk, after: Desk, x: string) {
    if Held(d.positions, x).Some? || Held(after.positions, x).None? then SameHolding(d, after, x)
    else x in target && Tradable(input, x, day, true) && x in after.entryDates && after.entryDates[x] == day
  }

  lemma BuyOneRule(cfg: Settings, input: Input, day: int, desired: real, weight: real, d: Desk, symbol: string,
      x: string)
    requires BuyOne(cfg, input, day, desired, weight, d, symbol).Ok?
    ensures var after := BuyOne(cfg, input, day, desired, weight, d, symbol).value;
      && (x != symbol || Held(d.positions, x).Some? ==> SameHolding(d, after, x))
      && (after == d ||
            (&& Held(d.positions, symbol).None? && Tradable(input, symbol, day, true)
             && Held(after.positions, symbol).Some? && symbol in after.entryDates && after.entryDates[symbol] == day
             && |after.trades| == |d.trades| + 1 && d.trades <= after.trades
             && var t := after.trades[|d.trades|]; t.side.Buy? && t.date == day && t.symbol == symbol))
  {
    BuyShape(cfg, input, day, desired, weight, d, symbol);
    var after := BuyOne(cfg, input, day, desired, weight, d, symbol).value;
    if after != d {
      var h := after.positions[|d.positions|];
      HeldSnoc(d.positions, h, x);
      HeldSnoc(d.positions, h, symbol);
    }
    hide Held, BuyPrice, Affordable, BuyFees, Quotient, Min;
  }

  /** With positive prices one turn buys for the desired amount, or takes the last of the cash; without cash it
      buys nothing. */
  lemma BuyOneSpends(cfg: Settings, input: Input, day: int, desired: real, weight: real, d: Desk, symbol: string)
    requires BuyOne(cfg, input, day, desired, weight, d, symbol).Ok? && Priced(cfg, input, day)
    ensures var after := BuyOne(cfg, input, day, desired, weight, d, symbol).value;
      && (d.cash <= 0.0 ==> after == d)
      && (after != d && after.cash > 0.0 ==>
            |after.trades| > |d.trades| && after.trades[|d.trades|].notional == desired)
      && (d.cash > 0.0 && desired > 0.0 && Held(d.positions, symbol).None? && Tradable(input, symbol, day, true) ==>
            Held(after.positions, symbol).Some?)
  {
    var after := BuyOne(cfg, input, day, desired, weight, d, symbol).value;
    BuyShape(cfg, input, day, desired, weight, d, symbol);
    if (symbol, day) in input.bars {
      var open := input.bars[(symbol, day)].open;
      var most := Affordable(cfg, d.cash);
      PositivePrice(cfg, open);
      SignOfQuotient(Min(desired, most), BuyPrice(cfg, open));
      SignOfQuotient(d.cash, CostRate(cfg));
      AllSpent(cfg, d.cash);
      if after != d { HeldSnoc(d.positions, after.positions[|d.positions|], symbol); }
      assert most == Quotient(d.cash, CostRate(cfg));
      hide BuyPrice, Affordable, BuyFees, Quotient, CostRate, Held;
    }
  }

  /** Spending all that is affordable leaves nothing. */
  lemma AllSpent(cfg: Settings, cash: real)
    requires CostRate(cfg) > 0.0
    ensures cash - (Affordable(cfg, cash) + BuyFees(cfg, Affordable(cfg, cash))) == 0.0
  {
    var r, q := CostRate(cfg), cash / CostRate(cfg);
    assert q * r == cash;
    assert q + q * (r - 1.0) == q * r;
  }

  lemma BuyPassLast(
    cfg: Settings, input: Input, day: int, desired: real, weight: real, d: Desk, symbols: seq<string>)
    requires symbols != [] && BuyPass(cfg, input, day, desired, weight, d, symbols).Ok?
    ensures var k := |symbols| - 1;
      && BuyPass(cfg, input, day, desired, weight, d, symbols[..k]).Ok?
      && BuyPass(cfg, input, day, desired, weight, d, symbols) ==
         BuyOne(cfg, input, day, desired, weight, BuyPass(cfg, input, day, desired, weight, d, symbols[..k]).value,
             symbols[k])
  {
    hide BuyOne;
  }

  /** What one more turn does to what the pass has done before. */
  lemma BoughtStep(
    cfg: Settings, input: Input, day: int, target: seq<string>, desired: real, weight: real, d: Desk, before: Desk,
    symbol: string, x: string)
    requires BuyOne(cfg, input, day, desired, weight, before, symbol).Ok? && symbol in target
    requires BoughtHolding(input, day, target, d, before, x)
    ensures BoughtHolding(input, day, target, d, BuyOne(cfg, input, day, desired, weight, before, symbol).value, x)
  {
    BuyOneRule(cfg, input, day, desired, weight, before, symbol, x);
    hide BuyOne, Held, Tradable;
  }

  lemma {:induction false} BuyPassHolding(
    cfg: Settings, input: Input, day: int, target: seq<string>, desired: real, weight: real, d: Desk,
    symbols: seq<string>, x: string)
    requires BuyPass(cfg, input, day, desired, weight, d, symbols).Ok?
    requires forall i :: 0 <= i < |symbols| ==> symbols[i] in target
    ensures BoughtHolding(input, day, target, d, BuyPass(cfg, input, day, desired, weight, d, symbols).value, x)
  {
    if symbols != [] {
      hide BuyOne, BuyPass, BoughtHolding;
      var k := |symbols| - 1;
      BuyPassLast(cfg, input, day, desired, weight, d, symbols);
      BuyPassHolding(cfg, input, day, target, desired, weight, d, symbols[..k], x);
      BoughtStep(cfg, input, day, target, desired, weight, d,
          BuyPass(cfg, input, day, desired, weight, d, symbols[..k]).value, symbols[k], x);
    }
  }

  lemma RowsStep(
    cfg: Settings, input: Input, day: int, target: seq<string>, desired: real, weight: real, d: Desk, before: Desk,
    symbol: string, priced: bool)
    requires BuyOne(cfg, input, day, desired, weight, before, symbol).Ok? && symbol in target
    requires BoughtRows(input, day, target, desired, d, before, priced) &&
        BoughtHolding(input, day, target, d, before, symbol)
    requires priced ==> Priced(cfg, input, day)
    ensures BoughtRows(input, day, target, desired, d, BuyOne(cfg, input, day, desired, weight, before, symbol).value,
        priced)
  {
    BuyOneRule(cfg, input, day, desired, weight, before, symbol, symbol);
    if priced { BuyOneSpends(cfg, input, day, desired, weight, before, symbol); }
    hide BuyOne, Held, Tradable, Priced;
  }

  lemma {:induction false} BuyPassRows(
    cfg: Settings, input: Input, day: int, target: seq<string>, desired: real, weight: real, d: Desk,
    symbols: seq<string>, priced: bool)
    requires BuyPass(cfg, input, day, desired, weight, d, symbols).Ok? && (priced ==> Priced(cfg, input, day))
    requires forall i :: 0 <= i < |symbols| ==> symbols[i] in target
    ensures BoughtRows(input, day, target, desired, d, BuyPass(cfg, input, day, desired, weight, d, symbols).value,
        priced)
  {
    if symbols != [] {
      hide BuyOne, BuyPass, BoughtHolding, BoughtRows, Priced;
      var k := |symbols| - 1;
      BuyPassLast(cfg, input, day, desired, weight, d, symbols);
      BuyPassRows(cfg, input, day, target, desired, weight, d, symbols[..k], priced);
      BuyPassHolding(cfg, input, day, target, desired, weight, d, symbols[..k], symbols[k]);
      RowsStep(cfg, input, day, target, desired, weight, d,
          BuyPass(cfg, input, day, desired, weight, d, symbols[..k]).value, symbols[k], priced);
    }
  }

  /** A pass that leaves cash has bought every name it could. */
  lemma {:induction false} BuyPassBuysAll(
    cfg: Settings, input: Input, day: int, desired: real, weight: real, d: Desk, symbols: seq<string>, x: string)
    requires BuyPass(cfg, input, day, desired, weight, d, symbols).Ok? && Priced(cfg, input, day) && desired > 0.0
    requires x in symbols && Tradable(input, x, day, true)
    requires BuyPass(cfg, input, day, desired, weight, d, symbols).value.cash > 0.0
    ensures Held(BuyPass(cfg, input, day, desired, weight, d, symbols).value.positions, x).Some?
  {
    hide BuyOne, BuyPass, Priced, Tradable, Held;
    var k := |symbols| - 1;
    assert symbols == symbols[..k] + [symbols[k]];
    BuyPassLast(cfg, input, day, desired, weight, d, symbols);
    var before := BuyPass(cfg, input, day, desired, weight, d, symbols[..k]).value;
    BuyOneSpends(cfg, input, day, desired, weight, before, symbols[k]);
    BuyOneRule(cfg, input, day, desired, weight, before, symbols[k], x);
    if x in symbols[..k] { BuyPassBuysAll(cfg, input, day, desired, weight, d, symbols[..k], x); }
  }

  // ------------------------------------------------------------------- a day's trading

  lemma {:induction false} HeldIsListed(positions: seq<Holding>, x: string)
    requires Held(positions, x).Some?
    ensures x in HeldSymbols(positions)
  {
    var k := |positions| - 1;
    if positions[k].symbol == x {
      assert HeldSymbols(positions)[k] == x;
    } else {
      HeldIsListed(positions[..k], x);
      var i :| 0 <= i < k && HeldSymbols(positions[..k])[i] == x;
      assert HeldSymbols(positions)[i] == x;
    }
  }

  /** What a day with the selection `target` does with one name. What is selected stays; what is not, was entered
      earlier and can be sold, goes; anything else held stays; what is new was selected and could be bought. */
  ghost predicate NameRule(input: Input, day: int, target: seq<string>, d: Desk, after: Desk, x: string) {
    if Held(d.positions, x).Some? then
      if MustSell(input, day, target, d, x) then GivenUp(after, x) else SameHolding(d, after, x)
    else
      Held(after.positions, x).Some? ==>
        x in target && Tradable(input, x, day, true) && x in after.entryDates && after.entryDates[x] == day
  }

  /** The rows a day adds: sales of what had to go, then buys of selected names not held. */
  ghost predicate RowRule(input: Input, day: int, target: seq<string>, d: Desk, after: Desk) {
    && d.trades <= after.trades
    && forall i :: |d.trades| <= i < |after.trades| ==> RowFollows(input, day, target, d, after.trades[i])
  }

  ghost predicate RowFollows(input: Input, day: int, target: seq<string>, d: Desk, t: Trade) {
    t.date == day &&
    if t.side.Sell? then MustSell(input, day, target, d, t.symbol)
    else t.symbol in target && Held(d.positions, t.symbol).None? && Tradable(input, t.symbol, day, true)
  }

  ghost predicate KeysAgree(d: Desk) { forall s :: s in d.entryDates <==> Held(d.positions, s).Some? }

  lemma SoldThenBought(
    cfg: Settings, input: Input, day: int, target: seq<string>, d: Desk, desired: real, weight: real, x: string)
    requires KeysAgree(d)
    requires BuyPass(cfg, input, day, desired, weight, SellPass(cfg, input, day, target, d, HeldSymbols(d.positions)),
        target).Ok?
    ensures var after := BuyPass(cfg, input, day, desired, weight,
        SellPass(cfg, input, day, target, d, HeldSymbols(d.positions)), target).value;
      NameRule(input, day, target, d, after, x)
  {
    hide SellPass, BuyPass, HeldSymbols, Held, Tradable;
    var sold := SellPass(cfg, input, day, target, d, HeldSymbols(d.positions));
    if Held(d.positions, x).Some? { HeldIsListed(d.positions, x); }
    SellPassRule(cfg, input, day, target, d, HeldSymbols(d.positions), x);
    BuyPassHolding(cfg, input, day, target, desired, weight, sold, target, x);
  }

  lemma SoldThenBoughtRows(
    cfg: Settings, input: Input, day: int, target: seq<string>, d: Desk, desired: real, weight: real)
    requires KeysAgree(d)
    requires BuyPass(cfg, input, day, desired, weight, SellPass(cfg, input, day, target, d, HeldSymbols(d.positions)),
        target).Ok?
    ensures RowRule(input, day, target, d,
      BuyPass(cfg, input, day, desired, weight, SellPass(cfg, input, day, target, d, HeldSymbols(d.positions)),
          target).value)
  {
    hide SellPass, BuyPass, HeldSymbols, Held, Tradable, MustSell;
    var sold := SellPass(cfg, input, day, target, d, HeldSymbols(d.positions));
    SellPassRows(cfg, input, day, target, d, HeldSymbols(d.positions));
    BuyPassRows(cfg, input, day, target, desired, weight, sold, target, false);
    var after := BuyPass(cfg, input, day, desired, weight, sold, target).value;
    forall i | |sold.trades| <= i < |after.trades| ensures Held(d.positions, after.trades[i].symbol).None? {
      NotSoldIfSelected(cfg, input, day, target, d, after.trades[i].symbol);
    }
    forall i | |d.trades| <= i < |sold.trades| ensures after.trades[i] == sold.trades[i] {}
  }

  /** A selected name is held after the sales exactly if it was held before. */
  lemma NotSoldIfSelected(cfg: Settings, input: Input, day: int, target: seq<string>, d: Desk, x: string)
    requires x in target
    ensures Held(SellPass(cfg, input, day, target, d, HeldSymbols(d.positions)).positions, x) == Held(d.positions, x)
  {
    hide SellPass, Held, Tradable, HeldSymbols;
    SellPassRule(cfg, input, day, target, d, HeldSymbols(d.positions), x);
  }

  /** The names the day selects, if a signal is due. */
  ghost function Target(cfg: Settings, input: Input, day: int): Option<seq<string>> {
    var signal := SignalFor(input, input.predictions, cfg.signalDelay, day);
    if signal.None? then None else Some(Selected(cfg, OnDate(input.predictions, signal.value)))
  }

  /** Every day of trading follows the rules for each name and each row; a day without a signal trades nothing. */
  lemma TradingRules(cfg: Settings, input: Input, d: Desk, day: int, x: string)
    requires KeysAgree(d) && Trading(cfg, input, d, day).Ok?
    ensures var target, after := Target(cfg, input, day), Trading(cfg, input, d, day).value;
      if target.None? then after == d.(notional := 0.0)
      else NameRule(input, day, target.value, d, after, x) && RowRule(input, day, target.value, d, after)
  {
    hide SellPass, BuyPass, HeldSymbols, Held, Tradable, Selected, OnDate, SignalFor, Weight, Value, Desired;
    var target := Target(cfg, input, day);
    if target.Some? {
      var desk := d.(notional := 0.0);
      var weight := Weight(cfg, |target.value|);
      var desired := Desired(Value(input, d.cash, d.positions, day, true), weight);
      SoldThenBought(cfg, input, day, target.value, desk, desired, weight, x);
      SoldThenBoughtRows(cfg, input, day, target.value, desk, desired, weight);
    }
  }

  /** A day that ends with cash left, at positive prices, has bought every selected name it could and did not hold,
      and each for its weight of the account at the open. */
  lemma TradingBuysAll(cfg: Settings, input: Input, d: Desk, day: int, x: string)
    requires KeysAgree(d) && Trading(cfg, input, d, day).Ok? && Target(cfg, input, day).Some? && Priced(cfg, input, day)
    requires Trading(cfg, input, d, day).value.cash > 0.0
    ensures var target, after := Target(cfg, input, day).value, Trading(cfg, input, d, day).value;
      var share := Times(Value(input, d.cash, d.positions, day, true), Weight(cfg, |target|));
      && (share > 0.0 && x in target && Tradable(input, x, day, true) ==> Held(after.positions, x).Some?)
      && (forall i :: |d.trades| <= i < |after.trades| && after.trades[i].side.Buy? ==>
          after.trades[i].notional == share)
  {
    hide SellPass, BuyPass, HeldSymbols, Held, Tradable, Selected, OnDate, SignalFor, Weight, Value, MustSell, Priced;
    var target := Target(cfg, input, day).value;
    var desk := d.(notional := 0.0);
    var weight := Weight(cfg, |target|);
    var desired := Desired(Value(input, d.cash, d.positions, day, true), weight);
    var sold := SellPass(cfg, input, day, target, desk, HeldSymbols(desk.positions));
    SellPassRows(cfg, input, day, target, desk, HeldSymbols(desk.positions));
    BuyPassRows(cfg, input, day, target, desired, weight, sold, target, true);
    if desired > 0.0 && x in target && Tradable(input, x, day, true) {
      BuyPassBuysAll(cfg, input, day, desired, weight, sold, target, x);
    }
    var after := Trading(cfg, input, d, day).value;
    forall i | |d.trades| <= i < |sold.trades| ensures after.trades[i] == sold.trades[i] {}
  }

  /** Every day of every backtest. */
  lemma RunFollowsRules(cfg: Settings, input: Input, days: seq<int>, x: string)
    requires days != [] && RunDays(cfg, input, days).Ok?
    ensures RunDays(cfg, input, days[..|days| - 1]).Ok?
    ensures var day, target := days[|days| - 1], Target(cfg, input, days[|days| - 1]);
      var before, after := RunDays(cfg, input, days[..|days| - 1]).value.desk, RunDays(cfg, input, days).value.desk;
      if target.None? then after == before.(notional := 0.0)
      else NameRule(input, day, target.value, before, after, x) && RowRule(input, day, target.value, before, after)
  {
    var init, day := days[..|days| - 1], days[|days| - 1];
    var sim := RunDays(cfg, input, init).value;
    RunBooked(cfg, input, init);
    BookedKeys(cfg, sim.desk);
    hide Trading, Value, Closing, NameRule, RowRule, Target, Booked;
    ClosingDesk(input, sim, Trading(cfg, input, sim.desk, day).value, day);
    TradingRules(cfg, input, sim.desk, day, x);
  }

  lemma BookedKeys(cfg: Settings, d: Desk)
    requires Booked(cfg, d)
    ensures KeysAgree(d)
  {
    hide Held;
  }

  // ---------------------------------------------------------------------------- fees

  /** A buy pays commission and transfer fee on what it spends; a sale pays these and stamp duty on what it
      brings in. */
  ghost predicate FeesRight(cfg: Settings, t: Trade) {
    if t.side.Buy? then t.fees == Times(t.notional, cfg.commission + cfg.transfer)
    else t.fees == Times(Times(t.notional, Max(1.0 - cfg.slippage, TINY)), cfg.commission + cfg.stamp + cfg.transfer)
  }

  ghost predicate AllFeesRight(cfg: Settings, trades: seq<Trade>) {
    forall i :: 0 <= i < |trades| ==> FeesRight(cfg, trades[i])
  }

  lemma SaleFeesRight(cfg: Settings, proceeds: real, day: int, symbol: string)
    ensures FeesRight(cfg, Trade(day, Sell, symbol, SaleNotional(cfg, proceeds), 0.0, SaleFees(cfg, proceeds)))
  {
    NotionalTimes(cfg, proceeds);
    assert Times(SaleNotional(cfg, proceeds), Max(1.0 - cfg.slippage, TINY)) == proceeds;
    hide SaleNotional;
  }

  lemma SellFeesRight(cfg: Settings, input: Input, day: int, target: seq<string>, d: Desk, symbol: string)
    requires AllFeesRight(cfg, d.trades)
    ensures AllFeesRight(cfg, SellOne(cfg, input, day, target, d, symbol).trades)
  {
    hide SellOne, SaleProceeds, SaleFees, SaleNotional, Held, Without, FeesRight;
    SellShape(cfg, input, day, target, d, symbol);
    if SellOne(cfg, input, day, target, d, symbol).trades != d.trades {
      SaleFeesRight(
        cfg, SaleProceeds(cfg, Held(d.positions, symbol).value, input.bars[(symbol, day)].open), day, symbol);
    }
  }

  lemma BuyFeesRight(
    cfg: Settings, input: Input, day: int, desired: real, weight: real, d: Desk, symbol: string)
    requires AllFeesRight(cfg, d.trades) && BuyOne(cfg, input, day, desired, weight, d, symbol).Ok?
    ensures AllFeesRight(cfg, BuyOne(cfg, input, day, desired, weight, d, symbol).value.trades)
  {
    hide BuyOne, BuyPrice, Affordable, Quotient, Held, Min;
    BuyShape(cfg, input, day, desired, weight, d, symbol);
    if BuyOne(cfg, input, day, desired, weight, d, symbol).value != d {
      var spent := Min(desired, Affordable(cfg, d.cash));
      assert CostRate(cfg) - 1.0 == cfg.commission + cfg.transfer;
      assert BuyFees(cfg, spent) == Times(spent, cfg.commission + cfg.transfer);
      hide BuyFees, Times, CostRate;
    }
  }

  lemma {:induction false} SellPassFees(
    cfg: Settings, input: Input, day: int, target: seq<string>, d: Desk, symbols: seq<string>)
    requires AllFeesRight(cfg, d.trades)
    ensures AllFeesRight(cfg, SellPass(cfg, input, day, target, d, symbols).trades)
  {
    if symbols != [] {
      hide SellOne, AllFeesRight;
      var k := |symbols| - 1;
      SellPassFees(cfg, input, day, target, d, symbols[..k]);
      SellFeesRight(cfg, input, day, target, SellPass(cfg, input, day, target, d, symbols[..k]), symbols[k]);
    }
  }

  lemma {:induction false} BuyPassFees(
    cfg: Settings, input: Input, day: int, desired: real, weight: real, d: Desk, symbols: seq<string>)
    requires AllFeesRight(cfg, d.trades) && BuyPass(cfg, input, day, desired, weight, d, symbols).Ok?
    ensures AllFeesRight(cfg, BuyPass(cfg, input, day, desired, weight, d, symbols).value.trades)
  {
    if symbols != [] {
      hide BuyOne, AllFeesRight;
      var k := |symbols| - 1;
      BuyPassFees(cfg, input, day, desired, weight, d, symbols[..k]);
      BuyFeesRight(
        cfg, input, day, desired, weight, BuyPass(cfg, input, day, desired, weight, d, symbols[..k]).value, symbols[k]);
    }
  }

  lemma TradingFees(cfg: Settings, input: Input, d: Desk, day: int)
    requires AllFeesRight(cfg, d.trades) && Trading(cfg, input, d, day).Ok?
    ensures AllFeesRight(cfg, Trading(cfg, input, d, day).value.trades)
  {
    hide SellPass, BuyPass, HeldSymbols, Selected, OnDate, SignalFor, Weight, Value, Desired, AllFeesRight;
    var desk := d.(notional := 0.0);
    var target := Target(cfg, input, day);
    if target.Some? {
      var weight := Weight(cfg, |target.value|);
      var desired := Desired(Value(input, desk.cash, desk.positions, day, true), weight);
      SellPassFees(cfg, input, day, target.value, desk, HeldSymbols(desk.positions));
      BuyPassFees(
        cfg, input, day, desired, weight,
        SellPass(cfg, input, day, target.value, desk, HeldSymbols(desk.positions)), target.value);
    }
  }

  /** Every row of every backtest carries the right fees. */
  lemma {:induction false} RunFees(cfg: Settings, input: Input, days: seq<int>)
    requires RunDays(cfg, input, days).Ok?
    ensures AllFeesRight(cfg, RunDays(cfg, input, days).value.desk.trades)
  {
    if days != [] {
      var init, day := days[..|days| - 1], days[|days| - 1];
      var sim := RunDays(cfg, input, init).value;
      RunFees(cfg, input, init);
      hide Trading, Closing, AllFeesRight;
      ClosingDesk(input, sim, Trading(cfg, input, sim.desk, day).value, day);
      TradingFees(cfg, input, sim.desk, day);
    }
  }

  // --------------------------------------------------------------------- equity rows

  /** What was traded since the log had `from` rows, both sides at the price before slippage. */
  function Traded(trades: seq<Trade>, from: nat): real {
    if |trades| <= from then 0.0 else Traded(trades[..|trades| - 1], from) + trades[|trades| - 1].notional
  }

  lemma TradedSnoc(trades: seq<Trade>, t: Trade, from: nat)
    requires from <= |trades|
    ensures Traded(trades + [t], from) == Traded(trades, from) + t.notional
  {
    assert (trades + [t])[..|trades|] == trades;
  }

  lemma {:induction false} SellPassTraded(
    cfg: Settings, input: Input, day: int, target: seq<string>, d: Desk, symbols: seq<string>, from: nat)
    requires from <= |d.trades|
    ensures var after := SellPass(cfg, input, day, target, d, symbols);
      |after.trades| >= |d.trades| && after.notional - d.notional == Traded(after.trades, from) - Traded(d.trades, from)
  {
    if symbols != [] {
      var k := |symbols| - 1;
      SellPassTraded(cfg, input, day, target, d, symbols[..k], from);
      var before := SellPass(cfg, input, day, target, d, symbols[..k]);
      var after := SellOne(cfg, input, day, target, before, symbols[k]);
      hide SellPass, Traded, SaleProceeds, SaleFees, SaleNotional, Held, Without;
      if after != before { TradedSnoc(before.trades, after.trades[|before.trades|], from); }
    }
  }

  lemma {:induction false} BuyPassTraded(
    cfg: Settings, input: Input, day: int, desired: real, weight: real, d: Desk, symbols: seq<string>, from: nat)
    requires from <= |d.trades| && BuyPass(cfg, input, day, desired, weight, d, symbols).Ok?
    ensures var after := BuyPass(cfg, input, day, desired, weight, d, symbols).value;
      |after.trades| >= |d.trades| && after.notional - d.notional == Traded(after.trades, from) - Traded(d.trades, from)
  {
    if symbols != [] {
      var k := |symbols| - 1;
      BuyPassTraded(cfg, input, day, desired, weight, d, symbols[..k], from);
      var before := BuyPass(cfg, input, day, desired, weight, d, symbols[..k]).value;
      var after := BuyOne(cfg, input, day, desired, weight, before, symbols[k]).value;
      hide BuyPass, Traded, Affordable, BuyFees, BuyPrice, Quotient, Held, Min;
      if after != before { TradedSnoc(before.trades, after.trades[|before.trades|], from); }
    }
  }

  lemma TradingTraded(cfg: Settings, input: Input, d: Desk, day: int)
    requires Trading(cfg, input, d, day).Ok?
    ensures Trading(cfg, input, d, day).value.notional == Traded(Trading(cfg, input, d, day).value.trades, |d.trades|)
  {
    hide SellPass, BuyPass, HeldSymbols, Selected, OnDate, SignalFor, Weight, Value, Desired;
    var desk := d.(notional := 0.0);
    var signal := SignalFor(input, input.predictions, cfg.signalDelay, day);
    assert Traded(d.trades, |d.trades|) == 0.0;
    if signal.Some? {
      var target := Selected(cfg, OnDate(input.predictions, signal.value));
      var weight := Weight(cfg, |target|);
      var desired := Desired(Value(input, desk.cash, desk.positions, day, true), weight);
      SellPassTraded(cfg, input, day, target, desk, HeldSymbols(desk.positions), |d.trades|);
      BuyPassTraded(cfg, input, day, desired, weight,
          SellPass(cfg, input, day, target, desk, HeldSymbols(desk.positions)), target, |d.trades|);
    }
  }

  /** The holdings at the day's prices, each counted by its own bar. */
  function Worth(input: Input, positions: seq<Holding>, day: int, atOpen: bool): real {
    if positions == [] then 0.0
    else
      var h := positions[|positions| - 1];
      Worth(input, positions[..|positions| - 1], day, atOpen) + Times(h.quantity, Price(input, h.symbol, day, atOpen))
  }

  lemma {:induction false} ValueIsWorth(input: Input, cash: real, positions: seq<Holding>, day: int, atOpen: bool)
    ensures Value(input, cash, positions, day, atOpen) == cash + Worth(input, positions, day, atOpen)
  {
    if positions != [] {
      var k := |positions| - 1;
      ValueIsWorth(input, cash, positions[..k], day, atOpen);
      ValueSnoc(input, cash, positions[..k], positions[k], day, atOpen);
      assert positions == positions[..k] + [positions[k]];
      hide Price, Times;
    }
  }

  /** Each day's equity row is dated that day and tells the account at that day's close: cash, number of holdings, and
      what was traded that day in relation to it. */
  lemma RowTells(cfg: Settings, input: Input, days: seq<int>)
    requires days != [] && RunDays(cfg, input, days).Ok?
    ensures RunDays(cfg, input, days[..|days| - 1]).Ok?
    ensures var before, sim := RunDays(cfg, input, days[..|days| - 1]).value, RunDays(cfg, input, days).value;
      var row, day := sim.equity[|sim.equity| - 1], days[|days| - 1];
      && |sim.equity| == |before.equity| + 1 && before.equity <= sim.equity && row.date == day
      && row.cash == sim.desk.cash && row.positions == |sim.desk.positions|
      && row.equity == sim.desk.cash + Worth(input, sim.desk.positions, day, false)
      && Times(row.turnover, Max(row.equity, TINY)) == Traded(sim.desk.trades, |before.desk.trades|)
      && (if row.equity > 0.0 then Times(row.gross, row.equity) == Worth(input, sim.desk.positions, day, false)
          else row.gross == 0.0)
      && row.benchmark == sim.benchmark
  {
    var init, day := days[..|days| - 1], days[|days| - 1];
    var before := RunDays(cfg, input, init).value;
    var d := Trading(cfg, input, before.desk, day).value;
    TradingTraded(cfg, input, before.desk, day);
    ValueIsWorth(input, d.cash, d.positions, day, false);
    ValueIsWorth(input, 0.0, d.positions, day, false);
    ClosingDesk(input, before, d, day);
    hide Trading, Worth, Traded;
    ClosingRow(input, before, d, day);
  }

  lemma ClosingRow(input: Input, sim: Sim, d: Desk, day: int)
    requires Closing(input, sim, d, day).Ok?
    ensures var after := Closing(input, sim, d, day).value;
      var row := after.equity[|after.equity| - 1];
      && |after.equity| == |sim.equity| + 1 && sim.equity <= after.equity && row.date == day
      && row.cash == d.cash && row.positions == |d.positions| && row.benchmark == after.benchmark
      && row.equity == Value(input, d.cash, d.positions, day, false)
      && Times(row.turnover, Max(row.equity, TINY)) == d.notional
      && (row.equity > 0.0 ==> Times(row.gross, row.equity) == Value(input, 0.0, d.positions, day, false))
      && (row.equity <= 0.0 ==> row.gross == 0.0)
  {
    hide Value;
    var equity := Value(input, d.cash, d.positions, day, false);
    QuotientTimes(d.notional, Max(equity, TINY));
    if equity > 0.0 { QuotientTimes(Value(input, 0.0, d.positions, day, false), equity); }
  }
}
