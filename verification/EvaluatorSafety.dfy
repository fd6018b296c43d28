/** Cash, positions and the trade log of the simulation. */
module EvaluatorSafety {
  import opened Wrappers
  import opened Basics
  import opened Evaluator

  // ------------------------------------------------------------- target weights

  /** The target weights of one day: distinct symbols, at most the configured number, each within
      the single cap and together within the gross cap. */
  lemma TargetWithinCaps(cfg: Settings, group: seq<Prediction>)
    ensures var count := |Selected(cfg, group)|;
      && count <= cfg.maxPositions
      && (count > 0 ==> Weight(cfg, count) <= cfg.maxSingle)
      && (count > 0 ==> count as real * Weight(cfg, count) <= cfg.maxGross)
      && (forall i, j :: 0 <= i < j < count ==> Selected(cfg, group)[i] != Selected(cfg, group)[j])
  {
    var count := |Selected(cfg, group)|;
    if count > 0 { ShareTimesCount(cfg.maxGross, Weight(cfg, count), count as real); }
  }

  lemma ShareTimesCount(whole: real, share: real, count: real)
    requires count > 0.0 && share <= whole / count
    ensures count * share <= whole
  {
    assert count * (whole / count) == whole;
    assert count * (whole / count - share) >= 0.0;
  }

  /** The ranking is a reordering by falling score. */
  lemma {:induction false} RankedSorted(s: seq<Prediction>)
    ensures multiset(Ranked(s)) == multiset(s)
    ensures forall i, j :: 0 <= i < j < |Ranked(s)| ==> Ranked(s)[i].score >= Ranked(s)[j].score
  {
    if s != [] {
      RankedSorted(s[..|s| - 1]);
      InsertByScoreSorted(Ranked(s[..|s| - 1]), s[|s| - 1]);
    }
  }

  lemma {:induction false} InsertByScoreSorted(s: seq<Prediction>, p: Prediction)
    requires forall i, j :: 0 <= i < j < |s| ==> s[i].score >= s[j].score
    ensures var r := InsertByScore(s, p);
      && |r| == |s| + 1
      && (forall i, j :: 0 <= i < j < |r| ==> r[i].score >= r[j].score)
      && (forall i :: 0 <= i < |r| ==> r[i].score >= p.score || (|s| > 0 && r[i].score >= s[|s| - 1].score))
  {
    if s != [] && s[|s| - 1].score < p.score {
      InsertByScoreSorted(s[..|s| - 1], p);
    }
  }

  // ------------------------------------------------------------------- the trade log

  /** Cash as the log tells it: what buys cost and sells brought in, fees included. */
  function CashOfLog(cfg: Settings, trades: seq<Trade>): real {
    if trades == [] then 1.0
    else
      var t := trades[|trades| - 1];
      CashOfLog(cfg, trades[..|trades| - 1]) +
      if t.side.Buy? then -(t.notional + t.fees) else t.notional * Max(1.0 - cfg.slippage, TINY) - t.fees
  }

  /** The date of the symbol's last trade if that was a buy. */
  function OpenSince(trades: seq<Trade>, symbol: string): Option<int> {
    if trades == [] then None
    else
      var t := trades[|trades| - 1];
      if t.symbol == symbol then (if t.side.Buy? then Some(t.date) else None)
      else OpenSince(trades[..|trades| - 1], symbol)
  }

  /** Buys open what is closed, sells close what was opened on a strictly earlier day. */
  ghost predicate Alternating(trades: seq<Trade>) {
    forall i :: 0 <= i < |trades| ==> Follows(trades[..i], trades[i])
  }

  ghost predicate Follows(before: seq<Trade>, t: Trade) {
    var since := OpenSince(before, t.symbol);
    if t.side.Buy? then since.None? else since.Some? && since.value < t.date
  }

  lemma AlternatingSnoc(trades: seq<Trade>, t: Trade)
    requires Alternating(trades) && Follows(trades, t)
    ensures Alternating(trades + [t])
  {
    var all := trades + [t];
    forall i | 0 <= i < |all| ensures Follows(all[..i], all[i]) {
      if i < |trades| {
        assert all[..i] == trades[..i];
        assert Follows(trades[..i], trades[i]);
      } else {
        assert all[..i] == trades;
      }
    }
  }

  lemma LogSnoc(cfg: Settings, trades: seq<Trade>, t: Trade, symbol: string)
    ensures CashOfLog(cfg, trades + [t]) == CashOfLog(cfg, trades) +
      if t.side.Buy? then -(t.notional + t.fees) else t.notional * Max(1.0 - cfg.slippage, TINY) - t.fees
    ensures OpenSince(trades + [t], symbol) ==
      if t.symbol == symbol then (if t.side.Buy? then Some(t.date) else None) else OpenSince(trades, symbol)
  {
    assert (trades + [t])[..|trades|] == trades;
  }

  // ------------------------------------------------------------------ holdings

  ghost predicate Holds(positions: seq<Holding>, symbol: string) {
    Held(positions, symbol).Some?
  }

  lemma {:induction false} WithoutEffect(positions: seq<Holding>, symbol: string, other: string)
    ensures Held(Without(positions, symbol), other) == if other == symbol then None else Held(positions, other)
  {
    if positions != [] {
      var init, last := positions[..|positions| - 1], positions[|positions| - 1];
      WithoutEffect(init, symbol, other);
      HeldSnoc(Without(init, symbol), last, other);
    }
  }

  lemma HeldSnoc(positions: seq<Holding>, h: Holding, symbol: string)
    ensures Held(positions + [h], symbol) == if h.symbol == symbol then Some(h.quantity) else Held(positions, symbol)
  {
    assert (positions + [h])[..|positions|] == positions;
  }

  /** Every desk the simulation reaches, whatever the prices and rates: positions, entry dates and
      the open symbols of the log are the same, the log alternates, and cash is what the log says. */
  ghost predicate Booked(cfg: Settings, d: Desk) {
    && (forall s :: s in d.entryDates <==> Holds(d.positions, s))
    && (forall s :: OpenSince(d.trades, s) == if s in d.entryDates then Some(d.entryDates[s]) else None)
    && Alternating(d.trades) && d.cash == CashOfLog(cfg, d.trades)
  }

  lemma SellRow(cfg: Settings, input: Input, day: int, target: seq<string>, d: Desk, symbol: string) returns (t: Trade)
    requires SellOne(cfg, input, day, target, d, symbol) != d
    ensures var after := SellOne(cfg, input, day, target, d, symbol);
      && t.side == Sell && t.symbol == symbol && t.date == day
      && after.trades == d.trades + [t] && after.entryDates == d.entryDates - {symbol}
      && after.positions == Without(d.positions, symbol)
      && after.cash == d.cash + t.notional * Max(1.0 - cfg.slippage, TINY) - t.fees
      && symbol in d.entryDates && d.entryDates[symbol] < day
  {
    var proceeds := SaleProceeds(cfg, Held(d.positions, symbol).value, input.bars[(symbol, day)].open);
    t := Trade(day, Sell, symbol, SaleNotional(cfg, proceeds), 0.0, SaleFees(cfg, proceeds));
    NotionalTimes(cfg, proceeds);
    hide Held, Without, SaleProceeds, SaleFees, SaleNotional, Max, SellRate;
    assert SellOne(cfg, input, day, target, d, symbol).trades == d.trades + [t];
    assert SellOne(cfg, input, day, target, d, symbol).cash == d.cash + (proceeds - t.fees);
  }

  lemma NotionalTimes(cfg: Settings, proceeds: real)
    ensures SaleNotional(cfg, proceeds) * Max(1.0 - cfg.slippage, TINY) == proceeds
  {
    QuotientTimes(proceeds, Max(1.0 - cfg.slippage, TINY));
  }

  lemma SellBooked(cfg: Settings, input: Input, day: int, target: seq<string>, d: Desk, symbol: string)
    requires Booked(cfg, d)
    ensures Booked(cfg, SellOne(cfg, input, day, target, d, symbol))
  {
    var after := SellOne(cfg, input, day, target, d, symbol);
    if after != d {
      var t := SellRow(cfg, input, day, target, d, symbol);
      hide Alternating, SellOne, Without, Held, OpenSince, CashOfLog, Max;
      assert Follows(d.trades, t);
      AlternatingSnoc(d.trades, t);
      LogSnoc(cfg, d.trades, t, symbol);
      forall s
        ensures s in after.entryDates <==> Holds(after.positions, s)
        ensures OpenSince(after.trades, s) == if s in after.entryDates then Some(after.entryDates[s]) else None
      {
        WithoutEffect(d.positions, symbol, s);
        LogSnoc(cfg, d.trades, t, s);
      }
    }
  }

  lemma QuotientTimes(x: real, y: real)
    requires y > 0.0
    ensures x / y * y == x
  {
  }

  lemma BuyBooked(cfg: Settings, input: Input, day: int, desired: real, weight: real, d: Desk, symbol: string)
    requires Booked(cfg, d) && BuyOne(cfg, input, day, desired, weight, d, symbol).Ok?
    ensures Booked(cfg, BuyOne(cfg, input, day, desired, weight, d, symbol).value)
  {
    var after := BuyOne(cfg, input, day, desired, weight, d, symbol).value;
    if after != d {
      var t := after.trades[|after.trades| - 1];
      var h := after.positions[|after.positions| - 1];
      assert after.trades == d.trades + [t] && t.side == Buy && t.symbol == symbol && t.date == day;
      assert after.positions == d.positions + [h] && h.symbol == symbol;
      assert after.cash == d.cash - (t.notional + t.fees) && after.entryDates == d.entryDates[symbol := day];
      assert Follows(d.trades, t);
      AlternatingSnoc(d.trades, t);
      hide Alternating, BuyOne, Held, OpenSince, CashOfLog;
      LogSnoc(cfg, d.trades, t, symbol);
      forall s
        ensures s in after.entryDates <==> Holds(after.positions, s)
        ensures OpenSince(after.trades, s) == if s in after.entryDates then Some(after.entryDates[s]) else None
      {
        HeldSnoc(d.positions, h, s);
        LogSnoc(cfg, d.trades, t, s);
      }
    }
  }

  lemma {:induction false} SellPassBooked(cfg: Settings, input: Input, day: int, target: seq<string>, d: Desk,
      symbols: seq<string>)
    requires Booked(cfg, d)
    ensures Booked(cfg, SellPass(cfg, input, day, target, d, symbols))
  {
    hide Booked, SellOne;
    if symbols != [] {
      SellPassBooked(cfg, input, day, target, d, symbols[..|symbols| - 1]);
      SellBooked(cfg, input, day, target, SellPass(cfg, input, day, target, d, symbols[..|symbols| - 1]),
          symbols[|symbols| - 1]);
    }
  }

  lemma {:induction false} BuyPassBooked(cfg: Settings, input: Input, day: int, desired: real, weight: real, d: Desk,
      symbols: seq<string>)
    requires Booked(cfg, d) && BuyPass(cfg, input, day, desired, weight, d, symbols).Ok?
    ensures Booked(cfg, BuyPass(cfg, input, day, desired, weight, d, symbols).value)
  {
    hide Booked, BuyOne;
    if symbols != [] {
      var init := symbols[..|symbols| - 1];
      BuyPassBooked(cfg, input, day, desired, weight, d, init);
      BuyBooked(cfg, input, day, desired, weight, BuyPass(cfg, input, day, desired, weight, d, init).value,
          symbols[|symbols| - 1]);
    }
  }

  lemma TradingBooked(cfg: Settings, input: Input, d: Desk, day: int)
    requires Booked(cfg, d) && Trading(cfg, input, d, day).Ok?
    ensures Booked(cfg, Trading(cfg, input, d, day).value)
  {
    var desk := d.(notional := 0.0);
    var signal := SignalFor(input, input.predictions, cfg.signalDelay, day);
    assert Booked(cfg, desk);
    hide Booked, SellPass, BuyPass, Value, Selected, OnDate, SignalFor, Weight, Desired, HeldSymbols;
    if signal.Some? {
      var target := Selected(cfg, OnDate(input.predictions, signal.value));
      var weight := Weight(cfg, |target|);
      var account := Value(input, desk.cash, desk.positions, day, true);
      SellPassBooked(cfg, input, day, target, desk, HeldSymbols(desk.positions));
      var sold := SellPass(cfg, input, day, target, desk, HeldSymbols(desk.positions));
      BuyPassBooked(cfg, input, day, Desired(account, weight), weight, sold, target);
    }
  }

  /** Over every backtest: nothing is sold on the day it was bought, positions and entry dates have
      the same keys, and cash is one minus all buy outlays plus all net sale proceeds of the log. */
  lemma {:induction false} RunBooked(cfg: Settings, input: Input, days: seq<int>)
    requires RunDays(cfg, input, days).Ok?
    ensures Booked(cfg, RunDays(cfg, input, days).value.desk)
  {
    if days != [] {
      hide Booked, Trading, Value;
      RunBooked(cfg, input, days[..|days| - 1]);
      TradingBooked(cfg, input, RunDays(cfg, input, days[..|days| - 1]).value.desk, days[|days| - 1]);
    } else {
      OpeningBooked(cfg);
    }
  }

  lemma OpeningBooked(cfg: Settings)
    ensures Booked(cfg, OPENING.desk)
  {
  }

  // -------------------------------------------------------------------- cash safety

  /** Buying one unit costs something, and a sale brings in no less than its fees. */
  ghost predicate Sane(cfg: Settings) {
    CostRate(cfg) > 0.0 && (1.0 - cfg.slippage) * (1.0 - SellRate(cfg)) >= 0.0
  }

  ghost predicate NoNegativeOpen(input: Input) {
    forall k :: k in input.bars ==> input.bars[k].open >= 0.0
  }

  ghost predicate Solvent(d: Desk) {
    d.cash >= 0.0 && forall i :: 0 <= i < |d.positions| ==> d.positions[i].quantity > 0.0
  }

  /** What one sale adds to cash is never negative exactly when slippage and fees together leave
      something of a positive price. */
  lemma SaleNetIff(cfg: Settings, quantity: real, open: real)
    requires quantity > 0.0 && open > 0.0
    ensures var proceeds := SaleProceeds(cfg, quantity, open);
      proceeds - SaleFees(cfg, proceeds) >= 0.0 <==> (1.0 - cfg.slippage) * (1.0 - SellRate(cfg)) >= 0.0
  {
    var a, b := quantity * open, (1.0 - cfg.slippage) * (1.0 - SellRate(cfg));
    var proceeds := quantity * (open * (1.0 - cfg.slippage));
    assert a > 0.0;
    assert proceeds - proceeds * SellRate(cfg) == a * b by {
      assert proceeds == a * (1.0 - cfg.slippage);
      assert proceeds - proceeds * SellRate(cfg) == proceeds * (1.0 - SellRate(cfg));
    }
    SignOfProduct(a, b);
  }

  lemma SignOfProduct(a: real, b: real)
    requires a > 0.0
    ensures a * b >= 0.0 <==> b >= 0.0
  {
  }

  lemma {:induction false} HeldPositive(positions: seq<Holding>, symbol: string)
    requires forall i :: 0 <= i < |positions| ==> positions[i].quantity > 0.0
    ensures Held(positions, symbol).Some? ==> Held(positions, symbol).value > 0.0
    ensures forall i :: 0 <= i < |Without(positions, symbol)| ==> Without(positions, symbol)[i].quantity > 0.0
  {
    if positions != [] { HeldPositive(positions[..|positions| - 1], symbol); }
  }

  lemma SellSolvent(cfg: Settings, input: Input, day: int, target: seq<string>, d: Desk, symbol: string)
    requires Sane(cfg) && NoNegativeOpen(input) && Solvent(d)
    ensures Solvent(SellOne(cfg, input, day, target, d, symbol))
  {
    HeldPositive(d.positions, symbol);
    var after := SellOne(cfg, input, day, target, d, symbol);
    if after != d {
      var quantity, open := Held(d.positions, symbol).value, input.bars[(symbol, day)].open;
      if open > 0.0 { SaleNetIff(cfg, quantity, open); } else { SaleAtZero(cfg, quantity); }
      hide Held, Without, SaleProceeds, SaleFees, SellRate, SaleNotional;
      assert after.cash >= d.cash;
    }
  }

  lemma SaleAtZero(cfg: Settings, quantity: real)
    ensures SaleProceeds(cfg, quantity, 0.0) == 0.0 && SaleFees(cfg, SaleProceeds(cfg, quantity, 0.0)) == 0.0
  {
  }

  /** One buy leaves cash that was not negative so exactly if its cost rate is positive, or the amount desired
      is at least what the (then negative) cost rate asks for. */
  lemma BuyNetIff(cfg: Settings, input: Input, day: int, desired: real, weight: real, d: Desk, symbol: string)
    requires d.cash >= 0.0 && BuyOne(cfg, input, day, desired, weight, d, symbol).Ok?
    requires BuyOne(cfg, input, day, desired, weight, d, symbol).value != d
    ensures CostRate(cfg) != 0.0
    ensures BuyOne(cfg, input, day, desired, weight, d, symbol).value.cash >= 0.0 <==>
            CostRate(cfg) > 0.0 || Affordable(cfg, d.cash) <= desired
  {
    var spent := Min(desired, Affordable(cfg, d.cash));
    SpendIff(d.cash, CostRate(cfg), spent);
    hide Held, BuyPrice, Quotient;
  }

  lemma SpendIff(cash: real, rate: real, spent: real)
    requires cash >= 0.0 && rate != 0.0 && spent <= cash / rate
    ensures cash - (spent + spent * (rate - 1.0)) >= 0.0 <==> rate > 0.0 || spent == cash / rate
  {
    var most := cash / rate;
    assert most * rate == cash;
    assert spent + spent * (rate - 1.0) == spent * rate;
    assert cash - spent * rate == (most - spent) * rate;
    if rate > 0.0 {
      SignOfTimes(most - spent, rate);
    } else if spent < most {
      SignOfTimes(most - spent, -rate);
      assert (most - spent) * rate == -((most - spent) * -rate);
    } else {
      assert (most - spent) * rate == 0.0;
    }
  }

  lemma SignOfTimes(x: real, y: real)
    requires x >= 0.0 && y > 0.0
    ensures x * y >= 0.0 && (x > 0.0 ==> x * y > 0.0)
  {
  }

  lemma BuySolvent(cfg: Settings, input: Input, day: int, desired: real, weight: real, d: Desk, symbol: string)
    requires Sane(cfg) && NoNegativeOpen(input) && Solvent(d)
    requires BuyOne(cfg, input, day, desired, weight, d, symbol).Ok?
    ensures Solvent(BuyOne(cfg, input, day, desired, weight, d, symbol).value)
  {
    var spent := Min(desired, Affordable(cfg, d.cash));
    SpendWithinCash(d.cash, CostRate(cfg), spent);
    assert spent + BuyFees(cfg, spent) <= d.cash;
    hide Held, BuyPrice, Affordable, BuyFees, Quotient, Sane;
  }

  lemma SpendWithinCash(cash: real, rate: real, spent: real)
    requires rate > 0.0 && spent <= cash / rate
    ensures spent + spent * (rate - 1.0) <= cash
  {
    assert cash / rate * rate == cash;
    assert (cash / rate - spent) * rate >= 0.0;
    assert spent + spent * (rate - 1.0) == spent * rate;
  }

  lemma {:induction false} SellPassSolvent(cfg: Settings, input: Input, day: int, target: seq<string>, d: Desk,
      symbols: seq<string>)
    requires Sane(cfg) && NoNegativeOpen(input) && Solvent(d)
    ensures Solvent(SellPass(cfg, input, day, target, d, symbols))
  {
    hide SellOne, Solvent;
    if symbols != [] {
      SellPassSolvent(cfg, input, day, target, d, symbols[..|symbols| - 1]);
      SellSolvent(cfg, input, day, target, SellPass(cfg, input, day, target, d, symbols[..|symbols| - 1]),
          symbols[|symbols| - 1]);
    }
  }

  lemma {:induction false} BuyPassSolvent(cfg: Settings, input: Input, day: int, desired: real, weight: real, d: Desk,
      symbols: seq<string>)
    requires Sane(cfg) && NoNegativeOpen(input) && Solvent(d)
    requires BuyPass(cfg, input, day, desired, weight, d, symbols).Ok?
    ensures Solvent(BuyPass(cfg, input, day, desired, weight, d, symbols).value)
  {
    hide BuyOne, Solvent;
    if symbols != [] {
      var init := symbols[..|symbols| - 1];
      BuyPassSolvent(cfg, input, day, desired, weight, d, init);
      BuySolvent(cfg, input, day, desired, weight, BuyPass(cfg, input, day, desired, weight, d, init).value,
          symbols[|symbols| - 1]);
    }
  }

  lemma TradingSolvent(cfg: Settings, input: Input, d: Desk, day: int)
    requires Sane(cfg) && NoNegativeOpen(input) && Solvent(d) && Trading(cfg, input, d, day).Ok?
    ensures Solvent(Trading(cfg, input, d, day).value)
  {
    var desk := d.(notional := 0.0);
    var signal := SignalFor(input, input.predictions, cfg.signalDelay, day);
    assert Solvent(desk);
    hide Solvent, SellPass, BuyPass, Value, Selected, OnDate, SignalFor, Weight, Desired, HeldSymbols, Sane,
        NoNegativeOpen;
    if signal.Some? {
      var target := Selected(cfg, OnDate(input.predictions, signal.value));
      var weight := Weight(cfg, |target|);
      var account := Value(input, desk.cash, desk.positions, day, true);
      SellPassSolvent(cfg, input, day, target, desk, HeldSymbols(desk.positions));
      var sold := SellPass(cfg, input, day, target, desk, HeldSymbols(desk.positions));
      BuyPassSolvent(cfg, input, day, Desired(account, weight), weight, sold, target);
    }
  }

  /** With rates that make sense and no negative opening price, cash in exact arithmetic never goes below zero
      and every position stays positive. */
  lemma {:induction false} RunSolvent(cfg: Settings, input: Input, days: seq<int>)
    requires Sane(cfg) && NoNegativeOpen(input) && RunDays(cfg, input, days).Ok?
    ensures Solvent(RunDays(cfg, input, days).value.desk)
  {
    if days != [] {
      hide Trading, Value, Sane, NoNegativeOpen;
      RunSolvent(cfg, input, days[..|days| - 1]);
      TradingSolvent(cfg, input, RunDays(cfg, input, days[..|days| - 1]).value.desk, days[|days| - 1]);
    }
  }
}
