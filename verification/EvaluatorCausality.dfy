/** The backtest never looks ahead: what happens up to a day does not depend on later bars, nor on
    predictions signalled on that day or later. */
module EvaluatorCausality {
  import opened Wrappers
  import opened Basics
  import opened Evaluator

  function Before(predictions: seq<Prediction>, t: int): seq<Prediction> {
    if predictions == [] then []
    else
      var r := Before(predictions[..|predictions| - 1], t);
      if predictions[|predictions| - 1].signalDate < t then r + [predictions[|predictions| - 1]] else r
  }

  /** The two inputs tell the same story up to `t`. */
  ghost predicate AgreeUpto(a: Input, b: Input, t: int) {
    && a.benchmark == b.benchmark
    && (forall s, d :: d <= t ==> ((s, d) in a.bars <==> (s, d) in b.bars))
    && (forall s, d :: d <= t && (s, d) in a.bars ==> a.bars[(s, d)] == b.bars[(s, d)])
    && Before(a.predictions, t) == Before(b.predictions, t)
  }

  ghost predicate SameDays(a: seq<int>, b: seq<int>, t: int) {
    Increasing(a) && Increasing(b) && forall d :: d <= t ==> (d in a <==> d in b)
  }

  lemma DaysAgree(a: Input, b: Input, t: int)
    requires ValidInput(a) && ValidInput(b) && AgreeUpto(a, b, t)
    ensures SameDays(a.calendar, b.calendar, t)
  {
    forall d | d <= t ensures d in a.calendar <==> d in b.calendar {
      if d in a.calendar { var s :| (s, d) in a.bars; assert (s, d) in b.bars; }
      if d in b.calendar { var s :| (s, d) in b.bars; assert (s, d) in a.bars; }
    }
  }

  lemma NothingBetween(a: seq<int>, k: nat, low: int, d: int)
    requires Increasing(a) && k < |a| && (k > 0 ==> a[k - 1] == low) && low < d < a[k]
    ensures d !in a
  {
  }

  /** The calendars have the same days up to `t` at the same places. */
  lemma {:induction false} SamePlace(a: seq<int>, b: seq<int>, t: int, k: nat)
    requires SameDays(a, b, t) && k < |a| && a[k] <= t
    ensures k < |b| && b[k] == a[k]
  {
    if k > 0 { SamePlace(a, b, t, k - 1); }
    assert a[k] in b;
    var j :| 0 <= j < |b| && b[j] == a[k];
    if j > k {
      assert b[k] in b && b[k] <= t;
      NothingBetween(a, k, if k > 0 then b[k - 1] else b[k] - 1, b[k]);
    }
  }

  lemma {:induction false} NotAfterSplits(s: seq<int>, day: int)
    requires Increasing(s)
    ensures forall i :: 0 <= i < NotAfter(s, day) ==> s[i] <= day
    ensures forall i :: NotAfter(s, day) <= i < |s| ==> s[i] > day
  {
    if s != [] {
      var init := s[..|s| - 1];
      assert forall i :: 0 <= i < |init| ==> init[i] == s[i];
      NotAfterSplits(init, day);
      assert NotAfter(init, day) < |init| ==> init[NotAfter(init, day)] > day;
    }
  }

  lemma NotAfterSame(a: seq<int>, b: seq<int>, t: int, day: int)
    requires SameDays(a, b, t) && day < t
    ensures NotAfter(a, day) == NotAfter(b, day)
  {
    NotAfterSplits(a, day);
    NotAfterSplits(b, day);
    var m, n := NotAfter(a, day), NotAfter(b, day);
    if m > n {
      SamePlace(a, b, t, n);
    } else if n > m {
      assert SameDays(b, a, t);
      SamePlace(b, a, t, m);
    }
  }

  /** Every execution is strictly after its signal. */
  lemma ExecutionAfterSignal(calendar: seq<int>, signal: int, delay: nat)
    requires Increasing(calendar) && delay >= 1
    ensures Delayed(calendar, signal, delay).Some? ==> Delayed(calendar, signal, delay).value > signal
  {
    NotAfterSplits(calendar, signal);
  }

  lemma DelayedSame(a: seq<int>, b: seq<int>, t: int, signal: int, delay: nat, day: int)
    requires SameDays(a, b, t) && delay >= 1 && day <= t && signal < t
    ensures Delayed(a, signal, delay) == Some(day) <==> Delayed(b, signal, delay) == Some(day)
  {
    NotAfterSame(a, b, t, signal);
    var k := NotAfter(a, signal) + delay - 1;
    if k < |a| && a[k] == day { SamePlace(a, b, t, k); }
    if k < |b| && b[k] == day {
      assert SameDays(b, a, t);
      SamePlace(b, a, t, k);
    }
  }

  lemma {:induction false} SignalForEarly(input: Input, predictions: seq<Prediction>, delay: nat, day: int, t: int)
    requires Increasing(input.calendar) && delay >= 1 && day <= t
    ensures SignalFor(input, predictions, delay, day) == SignalFor(input, Before(predictions, t), delay, day)
    ensures SignalFor(input, predictions, delay, day).Some? ==> SignalFor(input, predictions, delay, day).value < t
  {
    if predictions != [] {
      var init, last := predictions[..|predictions| - 1], predictions[|predictions| - 1];
      SignalForEarly(input, init, delay, day, t);
      ExecutionAfterSignal(input.calendar, last.signalDate, delay);
      if last.signalDate < t {
        assert (Before(init, t) + [last])[..|Before(init, t)|] == Before(init, t);
      }
    }
  }

  lemma {:induction false} SignalForSame(a: Input, b: Input, predictions: seq<Prediction>, delay: nat, day: int, t: int)
    requires SameDays(a.calendar, b.calendar, t) && delay >= 1 && day <= t
    ensures SignalFor(a, Before(predictions, t), delay, day) == SignalFor(b, Before(predictions, t), delay, day)
  {
    if predictions != [] {
      var init, last := predictions[..|predictions| - 1], predictions[|predictions| - 1];
      SignalForSame(a, b, init, delay, day, t);
      if last.signalDate < t {
        DelayedSame(a.calendar, b.calendar, t, last.signalDate, delay, day);
        assert (Before(init, t) + [last])[..|Before(init, t)|] == Before(init, t);
      }
    }
  }

  lemma {:induction false} OnDateEarly(predictions: seq<Prediction>, date: int, t: int)
    requires date < t
    ensures OnDate(predictions, date) == OnDate(Before(predictions, t), date)
  {
    if predictions != [] {
      var init, last := predictions[..|predictions| - 1], predictions[|predictions| - 1];
      OnDateEarly(init, date, t);
      if last.signalDate < t {
        assert (Before(init, t) + [last])[..|Before(init, t)|] == Before(init, t);
      }
    }
  }

  ghost predicate SameBarsOn(a: Input, b: Input, day: int) {
    forall s :: ((s, day) in a.bars <==> (s, day) in b.bars) &&
        ((s, day) in a.bars ==> a.bars[(s, day)] == b.bars[(s, day)])
  }

  lemma {:induction false} ValueSame(a: Input, b: Input, cash: real, positions: seq<Holding>, day: int, atOpen: bool)
    requires SameBarsOn(a, b, day)
    ensures Value(a, cash, positions, day, atOpen) == Value(b, cash, positions, day, atOpen)
  {
    if positions != [] { ValueSame(a, b, cash, positions[..|positions| - 1], day, atOpen); }
  }

  lemma SellOneSame(cfg: Settings, a: Input, b: Input, day: int, target: seq<string>, d: Desk, symbol: string)
    requires SameBarsOn(a, b, day)
    ensures SellOne(cfg, a, day, target, d, symbol) == SellOne(cfg, b, day, target, d, symbol)
  {
    hide Held, Without, SaleProceeds, SaleFees, SaleNotional;
  }

  lemma BuyOneSame(cfg: Settings, a: Input, b: Input, day: int, desired: real, weight: real, d: Desk, symbol: string)
    requires SameBarsOn(a, b, day)
    ensures BuyOne(cfg, a, day, desired, weight, d, symbol) == BuyOne(cfg, b, day, desired, weight, d, symbol)
  {
    hide Held, BuyPrice, Affordable, BuyFees, Quotient, CostRate;
  }

  lemma {:induction false} SellPassSame(cfg: Settings, a: Input, b: Input, day: int, target: seq<string>, d: Desk,
      symbols: seq<string>)
    requires SameBarsOn(a, b, day)
    ensures SellPass(cfg, a, day, target, d, symbols) == SellPass(cfg, b, day, target, d, symbols)
  {
    hide SellOne;
    if symbols != [] {
      SellPassSame(cfg, a, b, day, target, d, symbols[..|symbols| - 1]);
      SellOneSame(cfg, a, b, day, target, SellPass(cfg, a, day, target, d, symbols[..|symbols| - 1]),
          symbols[|symbols| - 1]);
    }
  }

  lemma {:induction false} BuyPassSame(cfg: Settings, a: Input, b: Input, day: int, desired: real, weight: real,
      d: Desk, symbols: seq<string>)
    requires SameBarsOn(a, b, day)
    ensures BuyPass(cfg, a, day, desired, weight, d, symbols) == BuyPass(cfg, b, day, desired, weight, d, symbols)
  {
    hide BuyOne;
    if symbols != [] {
      var init := symbols[..|symbols| - 1];
      BuyPassSame(cfg, a, b, day, desired, weight, d, init);
      if BuyPass(cfg, a, day, desired, weight, d, init).Ok? {
        BuyOneSame(cfg, a, b, day, desired, weight, BuyPass(cfg, a, day, desired, weight, d, init).value,
            symbols[|symbols| - 1]);
      }
    }
  }

  lemma TradingSame(cfg: Settings, a: Input, b: Input, d: Desk, day: int, t: int)
    requires ValidInput(a) && ValidInput(b) && AgreeUpto(a, b, t) && cfg.signalDelay >= 1 && day <= t
    ensures Trading(cfg, a, d, day) == Trading(cfg, b, d, day)
  {
    var desk, delay := d.(notional := 0.0), cfg.signalDelay;
    DaysAgree(a, b, t);
    SignalForEarly(a, a.predictions, delay, day, t);
    SignalForEarly(b, b.predictions, delay, day, t);
    SignalForSame(a, b, a.predictions, delay, day, t);
    assert SameBarsOn(a, b, day);
    var signal := SignalFor(a, a.predictions, delay, day);
    hide SignalFor, OnDate, Selected, Weight, Value, SellPass, BuyPass, Desired, HeldSymbols, ValidInput, SameBarsOn;
    assert SignalFor(b, b.predictions, delay, day) == signal;
    if signal.Some? {
      OnDateEarly(a.predictions, signal.value, t);
      OnDateEarly(b.predictions, signal.value, t);
      var target := Selected(cfg, OnDate(a.predictions, signal.value));
      var weight := Weight(cfg, |target|);
      ValueSame(a, b, desk.cash, desk.positions, day, true);
      var account := Value(a, desk.cash, desk.positions, day, true);
      SellPassSame(cfg, a, b, day, target, desk, HeldSymbols(desk.positions));
      var sold := SellPass(cfg, a, day, target, desk, HeldSymbols(desk.positions));
      BuyPassSame(cfg, a, b, day, Desired(account, weight), weight, sold, target);
    }
  }

  lemma ClosingSame(a: Input, b: Input, sim: Sim, d: Desk, day: int, t: int)
    requires AgreeUpto(a, b, t) && day <= t
    ensures Closing(a, sim, d, day) == Closing(b, sim, d, day)
  {
    assert SameBarsOn(a, b, day);
    assert ((a.benchmark, day) in a.bars <==> (b.benchmark, day) in b.bars);
    ValueSame(a, b, d.cash, d.positions, day, false);
    ValueSame(a, b, 0.0, d.positions, day, false);
    hide Value, Grown, Quotient, Max;
  }

  lemma RunDaysAt(cfg: Settings, input: Input, days: seq<int>, k: nat)
    requires k < |days|
    ensures RunDays(cfg, input, days[..k + 1]) ==
      if RunDays(cfg, input, days[..k]).Err? then RunDays(cfg, input, days[..k])
      else DayStep(cfg, input, RunDays(cfg, input, days[..k]).value, days[k])
  {
    assert days[..k + 1][..k] == days[..k];
    hide DayStep;
  }

  lemma DaysIncrease(input: Input, k: nat)
    requires ValidInput(input) && k + 1 < |input.calendar|
    ensures input.calendar[k] < input.calendar[k + 1]
  {
  }

  lemma RunDaysNone(cfg: Settings, input: Input)
    ensures RunDays(cfg, input, input.calendar[..0]) == Ok(OPENING)
  {
  }

  lemma DayStepSame(cfg: Settings, a: Input, b: Input, sim: Sim, day: int, t: int)
    requires ValidInput(a) && ValidInput(b) && AgreeUpto(a, b, t) && cfg.signalDelay >= 1 && day <= t
    ensures DayStep(cfg, a, sim, day) == DayStep(cfg, b, sim, day)
  {
    hide Trading, Closing, ValidInput, AgreeUpto;
    TradingSame(cfg, a, b, sim.desk, day, t);
    var traded := Trading(cfg, a, sim.desk, day);
    if traded.Ok? { ClosingSame(a, b, sim, traded.value, day, t); }
  }

  /** Two-run causality: inputs that agree up to `t` reach the same state after every day up to `t`. */
  lemma {:induction false} RunSame(cfg: Settings, a: Input, b: Input, t: int, k: nat)
    requires ValidInput(a) && ValidInput(b) && AgreeUpto(a, b, t) && cfg.signalDelay >= 1
    requires k <= |a.calendar| && (k > 0 ==> a.calendar[k - 1] <= t)
    ensures k <= |b.calendar| && a.calendar[..k] == b.calendar[..k]
    ensures RunDays(cfg, a, a.calendar[..k]) == RunDays(cfg, b, b.calendar[..k])
  {
    hide DayStep, RunDays, ValidInput, AgreeUpto, SameDays;
    DaysAgree(a, b, t);
    if k > 0 {
      SamePlace(a.calendar, b.calendar, t, k - 1);
      if k > 1 { DaysIncrease(a, k - 2); }
      RunSame(cfg, a, b, t, k - 1);
      RunDaysAt(cfg, a, a.calendar, k - 1);
      RunDaysAt(cfg, b, b.calendar, k - 1);
      var before := RunDays(cfg, a, a.calendar[..k - 1]);
      if before.Ok? { DayStepSame(cfg, a, b, before.value, a.calendar[k - 1], t); }
    } else {
      RunDaysNone(cfg, a);
      RunDaysNone(cfg, b);
    }
  }

  // ---------------------------------------------------------------- rows up to a day

  function RowsUpto(rows: seq<EquityRow>, t: int): seq<EquityRow> {
    if rows == [] then []
    else
      var r := RowsUpto(rows[..|rows| - 1], t);
      if rows[|rows| - 1].date <= t then r + [rows[|rows| - 1]] else r
  }

  function TradesUpto(trades: seq<Trade>, t: int): seq<Trade> {
    if trades == [] then []
    else
      var r := TradesUpto(trades[..|trades| - 1], t);
      if trades[|trades| - 1].date <= t then r + [trades[|trades| - 1]] else r
  }

  /** The later desk has the same trades dated up to `t`. */
  ghost predicate OnlyLater(before: Desk, after: Desk, t: int) {
    TradesUpto(after.trades, t) == TradesUpto(before.trades, t)
  }

  lemma TradesSnoc(trades: seq<Trade>, x: Trade, t: int)
    ensures TradesUpto(trades + [x], t) == if x.date <= t then TradesUpto(trades, t) + [x] else TradesUpto(trades, t)
  {
    assert (trades + [x])[..|trades|] == trades;
  }

  lemma {:induction false} SellPassLater(cfg: Settings, input: Input, day: int, target: seq<string>, d: Desk,
      symbols: seq<string>, t: int)
    requires day > t
    ensures OnlyLater(d, SellPass(cfg, input, day, target, d, symbols), t)
  {
    if symbols != [] {
      var before := SellPass(cfg, input, day, target, d, symbols[..|symbols| - 1]);
      SellPassLater(cfg, input, day, target, d, symbols[..|symbols| - 1], t);
      SellOneLater(cfg, input, day, target, before, symbols[|symbols| - 1], t);
      hide SellOne, TradesUpto;
    }
  }

  lemma SellOneLater(cfg: Settings, input: Input, day: int, target: seq<string>, d: Desk, symbol: string, t: int)
    requires day > t
    ensures OnlyLater(d, SellOne(cfg, input, day, target, d, symbol), t)
  {
    var after := SellOne(cfg, input, day, target, d, symbol);
    if after != d {
      hide TradesUpto, Held, Without, SaleProceeds, SaleFees, SaleNotional;
      TradesSnoc(d.trades, after.trades[|after.trades| - 1], t);
    }
  }

  lemma BuyOneLater(cfg: Settings, input: Input, day: int, desired: real, weight: real, d: Desk, symbol: string, t: int)
    requires day > t && BuyOne(cfg, input, day, desired, weight, d, symbol).Ok?
    ensures OnlyLater(d, BuyOne(cfg, input, day, desired, weight, d, symbol).value, t)
  {
    var after := BuyOne(cfg, input, day, desired, weight, d, symbol).value;
    if after != d {
      hide TradesUpto, Held, BuyPrice, Affordable, BuyFees, Quotient;
      TradesSnoc(d.trades, after.trades[|after.trades| - 1], t);
    }
  }

  lemma {:induction false} BuyPassLater(cfg: Settings, input: Input, day: int, desired: real, weight: real, d: Desk,
      symbols: seq<string>, t: int)
    requires day > t && BuyPass(cfg, input, day, desired, weight, d, symbols).Ok?
    ensures OnlyLater(d, BuyPass(cfg, input, day, desired, weight, d, symbols).value, t)
  {
    if symbols != [] {
      var before := BuyPass(cfg, input, day, desired, weight, d, symbols[..|symbols| - 1]).value;
      BuyPassLater(cfg, input, day, desired, weight, d, symbols[..|symbols| - 1], t);
      BuyOneLater(cfg, input, day, desired, weight, before, symbols[|symbols| - 1], t);
      hide BuyOne, TradesUpto;
    }
  }

  lemma DayLater(cfg: Settings, input: Input, sim: Sim, day: int, t: int)
    requires day > t && DayStep(cfg, input, sim, day).Ok?
    ensures var after := DayStep(cfg, input, sim, day).value;
      RowsUpto(after.equity, t) == RowsUpto(sim.equity, t) && OnlyLater(sim.desk, after.desk, t)
  {
    var after := DayStep(cfg, input, sim, day).value;
    assert after.equity[..|sim.equity|] == sim.equity &&
        after.equity[|sim.equity|].date == day by { hide Value, Trading; }
    var desk := sim.desk.(notional := 0.0);
    var signal := SignalFor(input, input.predictions, cfg.signalDelay, day);
    hide SellPass, BuyPass, Value, Selected, OnDate, SignalFor, Weight, Desired, HeldSymbols, TradesUpto;
    if signal.Some? {
      var target := Selected(cfg, OnDate(input.predictions, signal.value));
      var weight := Weight(cfg, |target|);
      var account := Value(input, desk.cash, desk.positions, day, true);
      SellPassLater(cfg, input, day, target, desk, HeldSymbols(desk.positions), t);
      var sold := SellPass(cfg, input, day, target, desk, HeldSymbols(desk.positions));
      BuyPassLater(cfg, input, day, Desired(account, weight), weight, sold, target, t);
    }
  }

  /** Days after `t` add no row or trade dated up to `t`. */
  lemma {:induction false} RowsSettled(cfg: Settings, input: Input, days: seq<int>, k: nat, t: int)
    requires k <= |days| && (forall i :: k <= i < |days| ==> days[i] > t) && RunDays(cfg, input, days).Ok?
    ensures RunDays(cfg, input, days[..k]).Ok?
    ensures RowsUpto(RunDays(cfg, input, days).value.equity, t) ==
        RowsUpto(RunDays(cfg, input, days[..k]).value.equity, t)
    ensures TradesUpto(RunDays(cfg, input, days).value.desk.trades, t) ==
        TradesUpto(RunDays(cfg, input, days[..k]).value.desk.trades, t)
  {
    hide DayStep, RowsUpto, TradesUpto;
    if k < |days| {
      var init := days[..|days| - 1];
      assert init[..k] == days[..k];
      RowsSettled(cfg, input, init, k, t);
      DayLater(cfg, input, RunDays(cfg, input, init).value, days[|days| - 1], t);
    } else {
      assert days[..k] == days;
    }
  }

  /** Causality of the whole backtest: if two inputs agree on all bars dated up to `t` and on all
      predictions signalled before `t`, their finished runs have identical equity rows and trades
      up to `t`, whatever comes later. */
  lemma Causality(cfg: Settings, a: Input, b: Input, t: int)
    requires ValidInput(a) && ValidInput(b) && AgreeUpto(a, b, t) && cfg.signalDelay >= 1
    requires RunDays(cfg, a, a.calendar).Ok? && RunDays(cfg, b, b.calendar).Ok?
    ensures var x, y := RunDays(cfg, a, a.calendar).value, RunDays(cfg, b, b.calendar).value;
      RowsUpto(x.equity, t) == RowsUpto(y.equity, t) && TradesUpto(x.desk.trades, t) == TradesUpto(y.desk.trades, t)
  {
    DaysAgree(a, b, t);
    var k, m := NotAfter(a.calendar, t), NotAfter(b.calendar, t);
    NotAfterSplits(a.calendar, t);
    NotAfterSplits(b.calendar, t);
    RunSame(cfg, a, b, t, k);
    if m > k { SamePlace(b.calendar, a.calendar, t, k); }
    RowsSettled(cfg, a, a.calendar, k, t);
    RowsSettled(cfg, b, b.calendar, k, t);
  }
}
