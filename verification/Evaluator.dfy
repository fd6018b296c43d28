/** The fair portfolio simulation: a day loop over cash, positions and entry dates, in exact reals. */
module Evaluator {
  import opened Wrappers
  import opened Basics

  datatype Bar = Bar(open: real, close: real, suspended: bool, limitUp: bool, limitDown: bool)

  datatype Prediction = Prediction(signalDate: int, symbol: string, score: real)

  /** `slippage` is the configured basis points over 10,000. */
  datatype Settings = Settings(
    signalDelay: nat, maxPositions: nat, maxSingle: real, maxGross: real,
    commission: real, stamp: real, transfer: real, slippage: real)

  /** Bars by symbol and date, the sorted dates among them, predictions in file order. */
  datatype Input = Input(
    bars: map<(string, int), Bar>, calendar: seq<int>, predictions: seq<Prediction>, benchmark: string)

  datatype Side = Buy | Sell

  datatype Trade = Trade(date: int, side: Side, symbol: string, notional: real, weight: real, fees: real)

  datatype EquityRow = EquityRow(
    date: int, equity: real, benchmark: real, turnover: real, positions: nat, gross: real, cash: real)

  datatype Holding = Holding(symbol: string, quantity: real)

  /** What the trading passes of one day change. Positions keep their order of purchase. */
  datatype Desk = Desk(
    cash: real, positions: seq<Holding>, entryDates: map<string, int>, trades: seq<Trade>, notional: real)

  datatype Sim = Sim(desk: Desk, equity: seq<EquityRow>, benchmark: real, previousClose: Option<real>)

  datatype SimError = DivisionByZero | BenchmarkMissing(date: int)

  const TINY := 0.000000000001

  /** The calendar is the sorted set of the bars' dates. */
  ghost predicate ValidInput(input: Input) {
    && Increasing(input.calendar)
    && (forall s, d :: (s, d) in input.bars ==> d in input.calendar)
    && (forall d :: d in input.calendar ==> exists s :: (s, d) in input.bars)
  }

  // ------------------------------------------------------------ signals to targets

  /** `bisect_right`: how many days are not after `day`. */
  function NotAfter(calendar: seq<int>, day: int): (n: nat)
    ensures n <= |calendar|
  {
    if calendar == [] then 0
    else NotAfter(calendar[..|calendar| - 1], day) + if calendar[|calendar| - 1] <= day then 1 else 0
  }

  /** The session a signal is carried out on. */
  function Delayed(calendar: seq<int>, day: int, delay: nat): Option<int> {
    var target := NotAfter(calendar, day) + delay - 1;
    if 0 <= target < |calendar| then Some(calendar[target]) else None
  }

  /** The latest signal date carried out on `day`; an earlier one due the same day is overwritten. */
  function SignalFor(input: Input, predictions: seq<Prediction>, delay: nat, day: int): Option<int> {
    if predictions == [] then None
    else
      var before := SignalFor(input, predictions[..|predictions| - 1], delay, day);
      var date := predictions[|predictions| - 1].signalDate;
      if Delayed(input.calendar, date, delay) == Some(day) && (before.None? || date > before.value) then Some(date)
      else before
  }

  function OnDate(predictions: seq<Prediction>, date: int): seq<Prediction> {
    if predictions == [] then []
    else
      var r := OnDate(predictions[..|predictions| - 1], date);
      if predictions[|predictions| - 1].signalDate == date then r + [predictions[|predictions| - 1]] else r
  }

  /** Stable: behind every prediction that scores at least as high. */
  function InsertByScore(s: seq<Prediction>, p: Prediction): (r: seq<Prediction>)
    ensures multiset(r) == multiset(s) + multiset{p}
  {
    if s == [] || s[|s| - 1].score >= p.score then s + [p]
    else
      assert s == s[..|s| - 1] + [s[|s| - 1]];
      InsertByScore(s[..|s| - 1], p) + [s[|s| - 1]]
  }

  function Ranked(s: seq<Prediction>): (r: seq<Prediction>)
    ensures multiset(r) == multiset(s)
  {
    if s == [] then []
    else
      assert s == s[..|s| - 1] + [s[|s| - 1]];
      InsertByScore(Ranked(s[..|s| - 1]), s[|s| - 1])
  }

  function Symbols(s: seq<Prediction>): (r: seq<string>)
    ensures forall i, j :: 0 <= i < j < |r| ==> r[i] != r[j]
  {
    if s == [] then []
    else
      var r := Symbols(s[..|s| - 1]);
      if s[|s| - 1].symbol in r then r else r + [s[|s| - 1].symbol]
  }

  /** The best distinct symbols, at most `maxPositions` of them. */
  function Selected(cfg: Settings, group: seq<Prediction>): (r: seq<string>)
    ensures |r| <= cfg.maxPositions
    ensures forall i, j :: 0 <= i < j < |r| ==> r[i] != r[j]
  {
    var all := Symbols(Ranked(group));
    if |all| <= cfg.maxPositions then all else all[..cfg.maxPositions]
  }

  function Weight(cfg: Settings, count: nat): real {
    if count == 0 then 0.0 else Min(cfg.maxSingle, cfg.maxGross / count as real)
  }

  // ----------------------------------------------------------------- one day's trades

  function Value(input: Input, cash: real, positions: seq<Holding>, day: int, atOpen: bool): real {
    if positions == [] then cash
    else
      var h := positions[|positions| - 1];
      Value(input, cash, positions[..|positions| - 1], day, atOpen) +
      if (h.symbol, day) in input.bars then
        h.quantity * (if atOpen then input.bars[(h.symbol, day)].open else input.bars[(h.symbol, day)].close)
      else 0.0
  }

  function Held(positions: seq<Holding>, symbol: string): Option<real> {
    if positions == [] then None
    else if positions[|positions| - 1].symbol == symbol then Some(positions[|positions| - 1].quantity)
    else Held(positions[..|positions| - 1], symbol)
  }

  function Without(positions: seq<Holding>, symbol: string): seq<Holding> {
    if positions == [] then []
    else
      var r := Without(positions[..|positions| - 1], symbol);
      if positions[|positions| - 1].symbol == symbol then r else r + [positions[|positions| - 1]]
  }

  function CostRate(cfg: Settings): real { 1.0 + cfg.commission + cfg.transfer }

  function SellRate(cfg: Settings): real { cfg.commission + cfg.stamp + cfg.transfer }

  function SaleProceeds(cfg: Settings, quantity: real, open: real): real {
    quantity * (open * (1.0 - cfg.slippage))
  }

  function SaleFees(cfg: Settings, proceeds: real): real { proceeds * SellRate(cfg) }

  /** A sale is logged at the price before slippage. */
  function SaleNotional(cfg: Settings, proceeds: real): real { proceeds / Max(1.0 - cfg.slippage, TINY) }

  /** One holding's turn in the selling pass. */
  function SellOne(cfg: Settings, input: Input, day: int, target: seq<string>, d: Desk, symbol: string): Desk {
    var key := (symbol, day);
    if symbol in target || key !in input.bars || input.bars[key].suspended || input.bars[key].limitDown ||
       symbol !in d.entryDates || d.entryDates[symbol] >= day || Held(d.positions, symbol).None? then d
    else
      var proceeds := SaleProceeds(cfg, Held(d.positions, symbol).value, input.bars[key].open);
      var fees := SaleFees(cfg, proceeds);
      var notional := SaleNotional(cfg, proceeds);
      Desk(d.cash + (proceeds - fees), Without(d.positions, symbol), d.entryDates - {symbol},
           d.trades + [Trade(day, Sell, symbol, notional, 0.0, fees)], d.notional + notional)
  }

  function SellPass(cfg: Settings, input: Input, day: int, target: seq<string>, d: Desk, symbols: seq<string>): Desk {
    if symbols == [] then d
    else SellOne(cfg, input, day, target, SellPass(cfg, input, day, target, d, symbols[..|symbols| - 1]),
        symbols[|symbols| - 1])
  }

  function Quotient(x: real, y: real): real
    requires y != 0.0
  {
    x / y
  }

  function BuyPrice(cfg: Settings, open: real): real { open * (1.0 + cfg.slippage) }

  /** What can be spent so that cash still covers the fees. */
  function Affordable(cfg: Settings, cash: real): real
    requires CostRate(cfg) != 0.0
  {
    cash / CostRate(cfg)
  }

  function BuyFees(cfg: Settings, spent: real): real { spent * (CostRate(cfg) - 1.0) }

  /** One target's turn in the buying pass. */
  function BuyOne(cfg: Settings, input: Input, day: int, desired: real, weight: real, d: Desk,
      symbol: string): Result<Desk, SimError> {
    var key := (symbol, day);
    if Held(d.positions, symbol).Some? || key !in input.bars || input.bars[key].suspended || input.bars[key].limitUp
        then Ok(d)
    else
      var price := BuyPrice(cfg, input.bars[key].open);
      if CostRate(cfg) == 0.0 || price == 0.0 then Err(DivisionByZero)
      else
        var spent := Min(desired, Affordable(cfg, d.cash));
        var fees := BuyFees(cfg, spent);
        var quantity := Quotient(spent, price);
        if quantity <= 0.0 then Ok(d)
        else
          Ok(Desk(d.cash - (spent + fees), d.positions + [Holding(symbol, quantity)], d.entryDates[symbol := day],
                  d.trades + [Trade(day, Buy, symbol, spent, weight, fees)], d.notional + spent))
  }

  function BuyPass(cfg: Settings, input: Input, day: int, desired: real, weight: real, d: Desk,
      symbols: seq<string>): Result<Desk, SimError> {
    if symbols == [] then Ok(d)
    else
      var before := BuyPass(cfg, input, day, desired, weight, d, symbols[..|symbols| - 1]);
      if before.Err? then before else BuyOne(cfg, input, day, desired, weight, before.value, symbols[|symbols| - 1])
  }

  function HeldSymbols(positions: seq<Holding>): (r: seq<string>)
    ensures |r| == |positions| && forall i :: 0 <= i < |r| ==> r[i] == positions[i].symbol
  {
    seq(|positions|, i requires 0 <= i < |positions| => positions[i].symbol)
  }

  /** The amount aimed at for each target. */
  function Desired(account: real, weight: real): real { account * weight }

  function Trading(cfg: Settings, input: Input, d: Desk, day: int): Result<Desk, SimError> {
    var signal := SignalFor(input, input.predictions, cfg.signalDelay, day);
    var desk := d.(notional := 0.0);
    if signal.None? then Ok(desk)
    else
      var target := Selected(cfg, OnDate(input.predictions, signal.value));
      var weight := Weight(cfg, |target|);
      var account := Value(input, desk.cash, desk.positions, day, true);
      var sold := SellPass(cfg, input, day, target, desk, HeldSymbols(desk.positions));
      BuyPass(cfg, input, day, Desired(account, weight), weight, sold, target)
  }

  function Grown(benchmark: real, close: real, previous: real): real
    requires previous > 0.0
  {
    benchmark * (close / previous)
  }

  /** The equity row closing a day. */
  function Closing(input: Input, sim: Sim, d: Desk, day: int): Result<Sim, SimError> {
    var key := (input.benchmark, day);
    if key !in input.bars then Err(BenchmarkMissing(day))
    else
      var equity := Value(input, d.cash, d.positions, day, false);
      var close := input.bars[key].close;
      var benchmark := if sim.previousClose.Some? && sim.previousClose.value > 0.0
                       then Grown(sim.benchmark, close, sim.previousClose.value) else sim.benchmark;
      var gross := if equity <= 0.0 then 0.0 else Quotient(Value(input, 0.0, d.positions, day, false), equity);
      var turnover := Quotient(d.notional, Max(equity, TINY));
      Ok(Sim(d, sim.equity + [EquityRow(day, equity, benchmark, turnover, |d.positions|, gross, d.cash)],
             benchmark, Some(close)))
  }

  function DayStep(cfg: Settings, input: Input, sim: Sim, day: int): Result<Sim, SimError> {
    var traded := Trading(cfg, input, sim.desk, day);
    if traded.Err? then Err(traded.error) else Closing(input, sim, traded.value, day)
  }

  const OPENING := Sim(Desk(1.0, [], map[], [], 0.0), [], 1.0, None)

  function RunDays(cfg: Settings, input: Input, days: seq<int>): Result<Sim, SimError> {
    if days == [] then Ok(OPENING)
    else
      var before := RunDays(cfg, input, days[..|days| - 1]);
      if before.Err? then before else DayStep(cfg, input, before.value, days[|days| - 1])
  }

  // ------------------------------------------------------------------- the simulator

  method SellLoop(cfg: Settings, input: Input, day: int, target: seq<string>, start: Desk) returns (d: Desk)
    ensures d == SellPass(cfg, input, day, target, start, HeldSymbols(start.positions))
  {
    var symbols := HeldSymbols(start.positions);
    d := start;
    var i := 0;
    while i < |symbols|
      invariant 0 <= i <= |symbols|
      invariant d == SellPass(cfg, input, day, target, start, symbols[..i])
    {
      hide SellOne;
      assert symbols[..i + 1][..i] == symbols[..i];
      d := SellOne(cfg, input, day, target, d, symbols[i]);
      i := i + 1;
    }
    assert symbols[..i] == symbols;
  }

  method BuyLoop(cfg: Settings, input: Input, day: int, desired: real, weight: real, start: Desk, target: seq<string>)
    returns (r: Result<Desk, SimError>)
    ensures r == BuyPass(cfg, input, day, desired, weight, start, target)
  {
    var d := start;
    var i := 0;
    while i < |target|
      invariant 0 <= i <= |target|
      invariant BuyPass(cfg, input, day, desired, weight, start, target[..i]) == Ok(d)
    {
      hide BuyOne;
      assert target[..i + 1][..i] == target[..i];
      var next := BuyOne(cfg, input, day, desired, weight, d, target[i]);
      if next.Err? {
        BuyErrorStays(cfg, input, day, desired, weight, start, target, i + 1);
        return next;
      }
      d := next.value;
      i := i + 1;
    }
    assert target[..i] == target;
    r := Ok(d);
  }

  lemma {:induction false} BuyErrorStays(cfg: Settings, input: Input, day: int, desired: real, weight: real,
                                         d: Desk, symbols: seq<string>, k: nat)
    requires k <= |symbols| && BuyPass(cfg, input, day, desired, weight, d, symbols[..k]).Err?
    ensures BuyPass(cfg, input, day, desired, weight, d, symbols) ==
        BuyPass(cfg, input, day, desired, weight, d, symbols[..k])
  {
    hide BuyOne;
    if k < |symbols| {
      assert symbols[..|symbols| - 1][..k] == symbols[..k];
      BuyErrorStays(cfg, input, day, desired, weight, d, symbols[..|symbols| - 1], k);
    } else {
      assert symbols[..k] == symbols;
    }
  }

  lemma {:induction false} RunErrorStays(cfg: Settings, input: Input, days: seq<int>, k: nat)
    requires k <= |days| && RunDays(cfg, input, days[..k]).Err?
    ensures RunDays(cfg, input, days) == RunDays(cfg, input, days[..k])
  {
    hide DayStep;
    if k < |days| {
      assert days[..|days| - 1][..k] == days[..k];
      RunErrorStays(cfg, input, days[..|days| - 1], k);
    } else {
      assert days[..k] == days;
    }
  }

  method TradeDay(cfg: Settings, input: Input, start: Desk, day: int) returns (r: Result<Desk, SimError>)
    ensures r == Trading(cfg, input, start, day)
  {
    hide SignalFor, OnDate, Selected, Weight, Value, SellPass, BuyPass, HeldSymbols, Desired;
    var desk := start.(notional := 0.0);
    var signal := SignalFor(input, input.predictions, cfg.signalDelay, day);
    if signal.None? { return Ok(desk); }
    var target := Selected(cfg, OnDate(input.predictions, signal.value));
    var weight := Weight(cfg, |target|);
    var account := Value(input, desk.cash, desk.positions, day, true);
    var sold := SellLoop(cfg, input, day, target, desk);
    r := BuyLoop(cfg, input, day, Desired(account, weight), weight, sold, target);
  }

  /** The whole backtest: equity rows and trades, or the error that ended it. */
  method Simulate(cfg: Settings, input: Input) returns (r: Result<Sim, SimError>)
    ensures r == RunDays(cfg, input, input.calendar)
  {
    var sim := OPENING;
    var i := 0;
    assert RunDays(cfg, input, input.calendar[..0]) == Ok(OPENING);
    hide Trading, Closing, RunDays;
    while i < |input.calendar|
      invariant 0 <= i <= |input.calendar|
      invariant RunDays(cfg, input, input.calendar[..i]) == Ok(sim)
    {
      RunNext(cfg, input, input.calendar, i);
      var day := input.calendar[i];
      var traded := TradeDay(cfg, input, sim.desk, day);
      if traded.Err? { return Err(traded.error); }
      var closed := Closing(input, sim, traded.value, day);
      if closed.Err? { return closed; }
      sim := closed.value;
      i := i + 1;
    }
    assert input.calendar[..i] == input.calendar;
    r := Ok(sim);
  }

  /** One more day of the run; an error ends the whole run with that error. */
  lemma RunNext(cfg: Settings, input: Input, days: seq<int>, k: nat)
    requires k < |days| && RunDays(cfg, input, days[..k]).Ok?
    ensures var next := DayStep(cfg, input, RunDays(cfg, input, days[..k]).value, days[k]);
      RunDays(cfg, input, days[..k + 1]) == next && (next.Err? ==> RunDays(cfg, input, days) == next)
  {
    hide DayStep;
    assert days[..k + 1][..k] == days[..k];
    if RunDays(cfg, input, days[..k + 1]).Err? { RunErrorStays(cfg, input, days, k + 1); }
  }
}
