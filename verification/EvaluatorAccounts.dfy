/** Where the simulated money goes: trading loses exactly its logged costs, buys stay within their
    caps, and every equity row balances. */
module EvaluatorAccounts {
  import opened Wrappers
  import opened Basics
  import opened Evaluator
  import opened EvaluatorSafety

  // ---------------------------------------------------------------- marking to market

  ghost predicate Distinct(positions: seq<Holding>) {
    forall i, j :: 0 <= i < j < |positions| ==> positions[i].symbol != positions[j].symbol
  }

  function Price(input: Input, symbol: string, day: int, atOpen: bool): real {
    if (symbol, day) in input.bars then
      if atOpen then input.bars[(symbol, day)].open else input.bars[(symbol, day)].close
    else 0.0
  }

  lemma ValueSnoc(input: Input, cash: real, positions: seq<Holding>, h: Holding, day: int, atOpen: bool)
    ensures Value(input, cash, positions + [h], day, atOpen) ==
            Value(input, cash, positions, day, atOpen) + Times(h.quantity, Price(input, h.symbol, day, atOpen))
  {
    assert (positions + [h])[..|positions|] == positions;
  }

  lemma {:induction false} ValueCash(input: Input, a: real, b: real, positions: seq<Holding>, day: int, atOpen: bool)
    ensures Value(input, a + b, positions, day, atOpen) == Value(input, a, positions, day, atOpen) + b
  {
    if positions != [] { ValueCash(input, a, b, positions[..|positions| - 1], day, atOpen); }
  }

  lemma {:induction false} WithoutOther(positions: seq<Holding>, symbol: string)
    requires forall i :: 0 <= i < |positions| ==> positions[i].symbol != symbol
    ensures Without(positions, symbol) == positions && Held(positions, symbol) == None
  {
    if positions != [] {
      var k := |positions| - 1;
      WithoutOther(positions[..k], symbol);
      assert positions == positions[..k] + [positions[k]];
    }
  }

  /** Giving a holding up lowers the value by what it was worth. */
  lemma {:induction false} ValueWithout(input: Input, cash: real, positions: seq<Holding>, symbol: string, day: int,
      atOpen: bool)
    requires Distinct(positions) && Held(positions, symbol).Some?
    ensures Value(input, cash, Without(positions, symbol), day, atOpen) ==
            Value(input, cash, positions, day, atOpen) -
            Times(Held(positions, symbol).value, Price(input, symbol, day, atOpen))
  {
    var k := |positions| - 1;
    var h := positions[k];
    assert positions == positions[..k] + [h];
    hide Price, Times;
    if h.symbol == symbol {
      WithoutOther(positions[..k], symbol);
      ValueSnoc(input, cash, positions[..k], h, day, atOpen);
    } else {
      ValueWithout(input, cash, positions[..k], symbol, day, atOpen);
      ValueSnoc(input, cash, positions[..k], h, day, atOpen);
      ValueSnoc(input, cash, Without(positions[..k], symbol), h, day, atOpen);
    }
  }

  lemma {:induction false} WithoutDistinct(positions: seq<Holding>, symbol: string)
    requires Distinct(positions)
    ensures Distinct(Without(positions, symbol))
    ensures forall i :: 0 <= i < |Without(positions, symbol)| ==> Without(positions, symbol)[i] in positions
  {
    if positions != [] {
      var k := |positions| - 1;
      WithoutDistinct(positions[..k], symbol);
      var r := Without(positions[..k], symbol);
      forall i | 0 <= i < |r| ensures r[i].symbol != positions[k].symbol {
        assert r[i] in positions[..k];
      }
    }
  }

  lemma {:induction false} NotHeld(positions: seq<Holding>, symbol: string)
    requires Held(positions, symbol).None?
    ensures forall i :: 0 <= i < |positions| ==> positions[i].symbol != symbol
  {
    if positions != [] { NotHeld(positions[..|positions| - 1], symbol); }
  }

  // ----------------------------------------------------------------------- trade costs

  /** A quotient, zero where the source would never divide. */
  function Over(x: real, y: real): real { if y == 0.0 then 0.0 else x / y }

  /** What one logged trade cost: its fees, and the slippage between the open and the price paid or received. */
  function TradeCost(cfg: Settings, t: Trade): real {
    if t.side.Sell? then
      var received := Times(t.notional, Max(1.0 - cfg.slippage, TINY));
      t.fees + (Over(received, 1.0 - cfg.slippage) - received)
    else t.fees + (t.notional - Over(t.notional, 1.0 + cfg.slippage))
  }

  function Costs(cfg: Settings, trades: seq<Trade>): real {
    if trades == [] then 0.0 else Costs(cfg, trades[..|trades| - 1]) + TradeCost(cfg, trades[|trades| - 1])
  }

  lemma CostsSnoc(cfg: Settings, trades: seq<Trade>, t: Trade)
    ensures Costs(cfg, trades + [t]) == Costs(cfg, trades) + TradeCost(cfg, t)
  {
    assert (trades + [t])[..|trades|] == trades;
  }

  /** The account at the day's open prices plus everything trading has cost so far. */
  function Account(cfg: Settings, input: Input, d: Desk, day: int): real {
    Value(input, d.cash, d.positions, day, true) + Costs(cfg, d.trades)
  }

  /** What a sale brings in and what it is logged to cost add up to what the shares were worth, unless the
      slippage is exactly one: then it brings in nothing and logs nothing. */
  lemma SaleArithmetic(cfg: Settings, quantity: real, open: real, day: int, symbol: string)
    ensures var proceeds := SaleProceeds(cfg, quantity, open);
      var fees := SaleFees(cfg, proceeds);
      var t := Trade(day, Sell, symbol, SaleNotional(cfg, proceeds), 0.0, fees);
      proceeds - fees + TradeCost(cfg, t) == if cfg.slippage == 1.0 then 0.0 else Times(quantity, open)
  {
    var c, u := 1.0 - cfg.slippage, Times(quantity, open);
    var proceeds := SaleProceeds(cfg, quantity, open);
    Reorder(quantity, open, c);
    NotionalTimes(cfg, proceeds);
    assert Times(SaleNotional(cfg, proceeds), Max(c, TINY)) == proceeds == Times(u, c);
    if c != 0.0 { OverTimes(u, c); } else { NothingSold(cfg, u, c); }
    hide SaleProceeds, SaleNotional, SaleFees, Max, Times, Over;
  }

  lemma Reorder(x: real, y: real, z: real)
    ensures x * (y * z) == Times(Times(x, y), z)
  {
  }

  lemma OverTimes(u: real, c: real)
    requires c != 0.0
    ensures Over(Times(u, c), c) == u
  {
    Divided(u, c);
  }

  lemma NothingSold(cfg: Settings, u: real, c: real)
    requires c == 0.0
    ensures Times(u, c) == 0.0 && Over(0.0, c) == 0.0 && SaleFees(cfg, 0.0) == 0.0
  {
  }

  lemma Divided(u: real, c: real)
    requires c != 0.0
    ensures u * c / c == u
  {
  }

  lemma Cancel(x: real, y: real, c: real)
    requires c != 0.0 && x * c == y * c
    ensures x == y
  {
    Divided(x, c);
    Divided(y, c);
  }

  lemma SellShape(cfg: Settings, input: Input, day: int, target: seq<string>, d: Desk, symbol: string)
    ensures var after := SellOne(cfg, input, day, target, d, symbol);
      after.trades != d.trades ==>
        && (symbol, day) in input.bars && Held(d.positions, symbol).Some?
        && var proceeds := SaleProceeds(cfg, Held(d.positions, symbol).value, input.bars[(symbol, day)].open);
           var fees := SaleFees(cfg, proceeds);
           && after.cash == d.cash + (proceeds - fees) && after.positions == Without(d.positions, symbol)
           && after.trades == d.trades + [Trade(day, Sell, symbol, SaleNotional(cfg, proceeds), 0.0, fees)]
    ensures SellOne(cfg, input, day, target, d, symbol).trades == d.trades ==>
        SellOne(cfg, input, day, target, d, symbol) == d
  {
    hide SaleProceeds, SaleFees, SaleNotional, Held, Without;
    var after := SellOne(cfg, input, day, target, d, symbol);
    if after != d { assert |after.trades| == |d.trades| + 1; }
  }

  /** Whether the pass sells this holding. */
  predicate Sells(cfg: Settings, input: Input, day: int, target: seq<string>, d: Desk, symbol: string) {
    SellOne(cfg, input, day, target, d, symbol).trades != d.trades
  }

  /** What a sale loses without logging it: at a slippage of exactly one, all the shares were worth. */
  function Lost(cfg: Settings, input: Input, day: int, target: seq<string>, d: Desk, symbol: string): real {
    if cfg.slippage == 1.0 && Sells(cfg, input, day, target, d, symbol) && Held(d.positions, symbol).Some? then
      Times(Held(d.positions, symbol).value, Price(input, symbol, day, true))
    else 0.0
  }

  /** One sale moves the account by exactly what the log says it cost and what it lost unlogged. */
  lemma SellConserves(cfg: Settings, input: Input, day: int, target: seq<string>, d: Desk, symbol: string)
    requires Distinct(d.positions)
    ensures Distinct(SellOne(cfg, input, day, target, d, symbol).positions)
    ensures Account(cfg, input, SellOne(cfg, input, day, target, d, symbol), day) ==
            Account(cfg, input, d, day) - Lost(cfg, input, day, target, d, symbol)
  {
    hide SellOne, Value, Costs, SaleProceeds, SaleFees, SaleNotional, Times, Distinct, Held, Without, TradeCost;
    SellShape(cfg, input, day, target, d, symbol);
    var after := SellOne(cfg, input, day, target, d, symbol);
    if after.trades != d.trades {
      var q, open := Held(d.positions, symbol).value, input.bars[(symbol, day)].open;
      var proceeds := SaleProceeds(cfg, q, open);
      var fees, notional := SaleFees(cfg, proceeds), SaleNotional(cfg, proceeds);
      WithoutDistinct(d.positions, symbol);
      SaleArithmetic(cfg, q, open, day, symbol);
      CostsSnoc(cfg, d.trades, Trade(day, Sell, symbol, notional, 0.0, fees));
      ValueWithout(input, after.cash, d.positions, symbol, day, true);
      ValueCash(input, d.cash, proceeds - fees, d.positions, day, true);
    }
  }

  lemma BuyArithmetic(cfg: Settings, spent: real, open: real)
    requires BuyPrice(cfg, open) != 0.0
    ensures Times(Quotient(spent, BuyPrice(cfg, open)), open) == Over(spent, 1.0 + cfg.slippage)
  {
    var u := 1.0 + cfg.slippage;
    NotZero(open, u);
    var q := spent / (open * u);
    assert q * (open * u) == spent;
    assert q * open * u == spent / u * u;
    Cancel(q * open, spent / u, u);
  }

  lemma NotZero(x: real, y: real)
    requires x * y != 0.0
    ensures y != 0.0
  {
  }

  lemma BuyShape(cfg: Settings, input: Input, day: int, desired: real, weight: real, d: Desk, symbol: string)
    requires BuyOne(cfg, input, day, desired, weight, d, symbol).Ok?
    ensures var after := BuyOne(cfg, input, day, desired, weight, d, symbol).value;
      after != d ==>
        && (symbol, day) in input.bars && CostRate(cfg) != 0.0 && Held(d.positions, symbol).None?
        && var price := BuyPrice(cfg, input.bars[(symbol, day)].open);
           var spent := Min(desired, Affordable(cfg, d.cash));
           var fees := BuyFees(cfg, spent);
           && price != 0.0 && after.cash == d.cash - (spent + fees)
           && after.positions == d.positions + [Holding(symbol, Quotient(spent, price))]
           && after.trades == d.trades + [Trade(day, Buy, symbol, spent, weight, fees)]
  {
    hide BuyPrice, Affordable, BuyFees, Quotient, Held, Min, CostRate;
  }

  /** One buy moves the account by exactly what the log says it cost. */
  lemma BuyConserves(cfg: Settings, input: Input, day: int, desired: real, weight: real, d: Desk, symbol: string)
    requires Distinct(d.positions) && BuyOne(cfg, input, day, desired, weight, d, symbol).Ok?
    ensures Distinct(BuyOne(cfg, input, day, desired, weight, d, symbol).value.positions)
    ensures Account(cfg, input, BuyOne(cfg, input, day, desired, weight, d, symbol).value, day) ==
        Account(cfg, input, d, day)
  {
    hide BuyOne, Value, Costs, BuyFees, Affordable, BuyPrice, Quotient, Times, Min, Over, CostRate, Held, Distinct;
    BuyShape(cfg, input, day, desired, weight, d, symbol);
    var after := BuyOne(cfg, input, day, desired, weight, d, symbol).value;
    if after != d {
      var open := input.bars[(symbol, day)].open;
      var spent := Min(desired, Affordable(cfg, d.cash));
      var fees := BuyFees(cfg, spent);
      var h := Holding(symbol, Quotient(spent, BuyPrice(cfg, open)));
      DistinctSnoc(d.positions, h);
      BuyArithmetic(cfg, spent, open);
      CostsSnoc(cfg, d.trades, Trade(day, Buy, symbol, spent, weight, fees));
      ValueSnoc(input, after.cash, d.positions, h, day, true);
      ValueCash(input, d.cash, -(spent + fees), d.positions, day, true);
    }
  }

  lemma DistinctSnoc(positions: seq<Holding>, h: Holding)
    requires Distinct(positions) && Held(positions, h.symbol).None?
    ensures Distinct(positions + [h])
  {
    NotHeld(positions, h.symbol);
  }

  function LostInPass(cfg: Settings, input: Input, day: int, target: seq<string>, d: Desk, symbols: seq<string>): real {
    if symbols == [] then 0.0
    else
      var k := |symbols| - 1;
      LostInPass(cfg, input, day, target, d, symbols[..k]) +
      Lost(cfg, input, day, target, SellPass(cfg, input, day, target, d, symbols[..k]), symbols[k])
  }

  lemma {:induction false} SellPassConserves(
    cfg: Settings, input: Input, day: int, target: seq<string>, d: Desk, symbols: seq<string>)
    requires Distinct(d.positions)
    ensures Distinct(SellPass(cfg, input, day, target, d, symbols).positions)
    ensures Account(cfg, input, SellPass(cfg, input, day, target, d, symbols), day) ==
            Account(cfg, input, d, day) - LostInPass(cfg, input, day, target, d, symbols)
    ensures cfg.slippage != 1.0 ==> LostInPass(cfg, input, day, target, d, symbols) == 0.0
  {
    if symbols != [] {
      var k := |symbols| - 1;
      hide Account, Distinct, SellOne;
      SellPassConserves(cfg, input, day, target, d, symbols[..k]);
      SellConserves(cfg, input, day, target, SellPass(cfg, input, day, target, d, symbols[..k]), symbols[k]);
    }
  }

  lemma {:induction false} BuyPassConserves(cfg: Settings, input: Input, day: int, desired: real, weight: real, d: Desk,
      symbols: seq<string>)
    requires Distinct(d.positions) && BuyPass(cfg, input, day, desired, weight, d, symbols).Ok?
    ensures Distinct(BuyPass(cfg, input, day, desired, weight, d, symbols).value.positions)
    ensures Account(cfg, input, BuyPass(cfg, input, day, desired, weight, d, symbols).value, day) ==
        Account(cfg, input, d, day)
  {
    if symbols != [] {
      var k := |symbols| - 1;
      hide Account, Distinct, BuyOne;
      BuyPassConserves(cfg, input, day, desired, weight, d, symbols[..k]);
      BuyConserves(cfg, input, day, desired, weight, BuyPass(cfg, input, day, desired, weight, d, symbols[..k]).value,
          symbols[k]);
    }
  }

  /** What a day's sales lose without logging it. */
  function LostOn(cfg: Settings, input: Input, d: Desk, day: int): real {
    var signal := SignalFor(input, input.predictions, cfg.signalDelay, day);
    if signal.None? then 0.0
    else
      var target := Selected(cfg, OnDate(input.predictions, signal.value));
      LostInPass(cfg, input, day, target, d.(notional := 0.0), HeldSymbols(d.positions))
  }

  /** A day's trading moves the account, at that day's open prices, by exactly the costs it logs and what its
      sales lost unlogged. */
  lemma TradingConserves(cfg: Settings, input: Input, d: Desk, day: int)
    requires Distinct(d.positions) && Trading(cfg, input, d, day).Ok?
    ensures Distinct(Trading(cfg, input, d, day).value.positions)
    ensures Account(cfg, input, Trading(cfg, input, d, day).value, day) ==
            Account(cfg, input, d, day) - LostOn(cfg, input, d, day)
    ensures cfg.slippage != 1.0 ==> LostOn(cfg, input, d, day) == 0.0
  {
    var signal := SignalFor(input, input.predictions, cfg.signalDelay, day);
    var desk := d.(notional := 0.0);
    assert Account(cfg, input, desk, day) == Account(cfg, input, d, day);
    if signal.Some? {
      var target := Selected(cfg, OnDate(input.predictions, signal.value));
      var weight := Weight(cfg, |target|);
      var account := Value(input, desk.cash, desk.positions, day, true);
      var symbols := HeldSymbols(desk.positions);
      hide Account, Distinct, SellPass, BuyPass, Value, Selected, OnDate, SignalFor, Weight, LostInPass;
      SellPassConserves(cfg, input, day, target, desk, symbols);
      BuyPassConserves(
        cfg, input, day, Desired(account, weight), weight, SellPass(cfg, input, day, target, desk, symbols), target);
    }
  }

  /** Every day of every backtest: no symbol is held twice, and trading creates no money. The account at the
      day's open prices falls by exactly the fees and slippage of the trades it logs, and, at a slippage of
      exactly one, by what was sold for nothing. */
  lemma {:induction false} RunConserves(cfg: Settings, input: Input, days: seq<int>)
    requires RunDays(cfg, input, days).Ok? && days != []
    ensures RunDays(cfg, input, days[..|days| - 1]).Ok?
    ensures var day := days[|days| - 1];
      var before, after := RunDays(cfg, input, days[..|days| - 1]).value.desk, RunDays(cfg, input, days).value.desk;
      && Distinct(after.positions)
      && Value(input, after.cash, after.positions, day, true) ==
         Value(input, before.cash, before.positions, day, true)
         - (Costs(cfg, after.trades) - Costs(cfg, before.trades)) - LostOn(cfg, input, before, day)
      && (cfg.slippage != 1.0 ==> LostOn(cfg, input, before, day) == 0.0)
  {
    var init := days[..|days| - 1];
    if init == [] {
      assert RunDays(cfg, input, init) == Ok(OPENING);
    } else {
      RunConserves(cfg, input, init);
    }
    var before := RunDays(cfg, input, init).value.desk;
    TradingConserves(cfg, input, before, days[|days| - 1]);
    hide Trading, Value, Costs, Distinct, LostOn;
  }

  // -------------------------------------------------------------------- buys within caps

  function BuysOn(trades: seq<Trade>, from: nat): real {
    if |trades| <= from then 0.0
    else
      var t := trades[|trades| - 1];
      BuysOn(trades[..|trades| - 1], from) + if t.side.Buy? then t.notional else 0.0
  }

  lemma BuysSnoc(trades: seq<Trade>, t: Trade, from: nat)
    requires from <= |trades|
    ensures BuysOn(trades + [t], from) == BuysOn(trades, from) + if t.side.Buy? then t.notional else 0.0
  {
    assert (trades + [t])[..|trades|] == trades;
  }

  lemma {:induction false} SellPassBuysNothing(cfg: Settings, input: Input, day: int, target: seq<string>, d: Desk,
      symbols: seq<string>, from: nat)
    requires from <= |d.trades|
    ensures var after := SellPass(cfg, input, day, target, d, symbols);
      |after.trades| >= |d.trades| && BuysOn(after.trades, from) == BuysOn(d.trades, from)
  {
    if symbols != [] {
      var k := |symbols| - 1;
      SellPassBuysNothing(cfg, input, day, target, d, symbols[..k], from);
      var before := SellPass(cfg, input, day, target, d, symbols[..k]);
      var after := SellOne(cfg, input, day, target, before, symbols[k]);
      hide SellPass, BuysOn;
      if after != before {
        BuysSnoc(before.trades, after.trades[|before.trades|], from);
      }
    }
  }

  lemma {:induction false} BuyPassWithin(cfg: Settings, input: Input, day: int, desired: real, weight: real, d: Desk,
      symbols: seq<string>, from: nat)
    requires from <= |d.trades| && BuyPass(cfg, input, day, desired, weight, d, symbols).Ok?
    ensures var after := BuyPass(cfg, input, day, desired, weight, d, symbols).value;
      && |after.trades| >= |d.trades|
      && BuysOn(after.trades, from) <= BuysOn(d.trades, from) + Times(|symbols| as real, Max(0.0, desired))
  {
    if symbols != [] {
      var k := |symbols| - 1;
      BuyPassWithin(cfg, input, day, desired, weight, d, symbols[..k], from);
      var before := BuyPass(cfg, input, day, desired, weight, d, symbols[..k]).value;
      var after := BuyOne(cfg, input, day, desired, weight, before, symbols[k]).value;
      OneMore(k, Max(0.0, desired));
      hide BuyPass, BuysOn, Times;
      if after != before {
        BuysSnoc(before.trades, after.trades[|before.trades|], from);
      }
    }
  }

  lemma TradingBuys(cfg: Settings, input: Input, d: Desk, day: int, target: seq<string>, weight: real, account: real)
    requires BuyPass(cfg, input, day, Desired(account, weight), weight,
                     SellPass(cfg, input, day, target, d, HeldSymbols(d.positions)), target).Ok?
    ensures BuysOn(BuyPass(cfg, input, day, Desired(account, weight), weight,
                           SellPass(cfg, input, day, target, d, HeldSymbols(d.positions)), target).value.trades,
                   |d.trades|) <=
            Times(|target| as real, Max(0.0, Desired(account, weight)))
  {
    hide SellPass, BuyPass, Times, Desired;
    SellPassBuysNothing(cfg, input, day, target, d, HeldSymbols(d.positions), |d.trades|);
    BuyPassWithin(cfg, input, day, Desired(account, weight), weight,
                  SellPass(cfg, input, day, target, d, HeldSymbols(d.positions)), target, |d.trades|);
  }

  /** All buys of one day together stay within the gross cap of the account at the open; an account below
      zero buys nothing unless a cap is negative too. */
  lemma DayBuysWithinGrossCap(cfg: Settings, input: Input, d: Desk, day: int)
    requires Trading(cfg, input, d, day).Ok?
    ensures var account := Value(input, d.cash, d.positions, day, true);
      var bought := BuysOn(Trading(cfg, input, d, day).value.trades, |d.trades|);
      && (account >= 0.0 ==> bought <= Max(0.0, Times(cfg.maxGross, account)))
      && (account < 0.0 && cfg.maxGross >= 0.0 && cfg.maxSingle >= 0.0 ==> bought <= 0.0)
  {
    hide SellPass, BuyPass, Value, Selected, OnDate, SignalFor, Weight, Times, Desired;
    var account := Value(input, d.cash, d.positions, day, true);
    var signal := SignalFor(input, input.predictions, cfg.signalDelay, day);
    if signal.Some? {
      var group := OnDate(input.predictions, signal.value);
      var target := Selected(cfg, group);
      TargetWithinCaps(cfg, group);
      CapTimes(cfg, |target|, account);
      TradingBuys(cfg, input, d.(notional := 0.0), day, target, Weight(cfg, |target|), account);
    }
  }

  /** The same for the buys every day of every backtest adds to the log. */
  lemma RunBuysWithinGrossCap(cfg: Settings, input: Input, days: seq<int>)
    requires days != [] && RunDays(cfg, input, days).Ok?
    ensures RunDays(cfg, input, days[..|days| - 1]).Ok?
    ensures var before, after := RunDays(cfg, input, days[..|days| - 1]).value.desk,
        RunDays(cfg, input, days).value.desk;
      var account := Value(input, before.cash, before.positions, days[|days| - 1], true);
      var bought := BuysOn(after.trades, |before.trades|);
      && (account >= 0.0 ==> bought <= Max(0.0, Times(cfg.maxGross, account)))
      && (account < 0.0 && cfg.maxGross >= 0.0 && cfg.maxSingle >= 0.0 ==> bought <= 0.0)
  {
    var init, day := days[..|days| - 1], days[|days| - 1];
    var sim := RunDays(cfg, input, init).value;
    hide Trading, Value, Closing, BuysOn, Times;
    ClosingDesk(input, sim, Trading(cfg, input, sim.desk, day).value, day);
    DayBuysWithinGrossCap(cfg, input, sim.desk, day);
  }

  lemma NonNegative(x: real, y: real)
    requires x >= 0.0 && y >= 0.0
    ensures Times(x, y) >= 0.0
  {
  }

  lemma CapTimes(cfg: Settings, count: nat, account: real)
    requires count > 0 ==> count as real * Weight(cfg, count) <= cfg.maxGross
    ensures account >= 0.0 ==>
      Times(count as real, Max(0.0, Desired(account, Weight(cfg, count)))) <= Max(0.0, Times(cfg.maxGross, account))
    ensures account < 0.0 && cfg.maxGross >= 0.0 && cfg.maxSingle >= 0.0 ==>
      Times(count as real, Max(0.0, Desired(account, Weight(cfg, count)))) <= 0.0
  {
    var w, n := Weight(cfg, count), count as real;
    assert Times(n, 0.0) == 0.0;
    if count > 0 && account >= 0.0 {
      assert (cfg.maxGross - n * w) * account >= 0.0;
      assert n * (account * w) == n * w * account;
    }
    if count > 0 && account < 0.0 && cfg.maxGross >= 0.0 && cfg.maxSingle >= 0.0 {
      assert cfg.maxGross / n >= 0.0 && w >= 0.0;
      assert (-account) * w >= 0.0;
      assert Desired(account, w) <= 0.0;
    }
  }

  // ------------------------------------------------------------------------ equity rows

  ghost predicate NoNegativePrice(input: Input) {
    forall k :: k in input.bars ==> input.bars[k].open >= 0.0 && input.bars[k].close >= 0.0
  }

  /** Equity is cash plus a share of itself in positions: no leverage, no debt. */
  ghost predicate Balanced(row: EquityRow) {
    row.cash >= 0.0 && row.equity >= row.cash && 0.0 <= row.gross <= 1.0 &&
        row.equity == row.cash + Times(row.gross, row.equity)
  }

  /** Positive quantities at prices that are not negative are not worth less than nothing. */
  lemma {:induction false} WorthAt(input: Input, cash: real, positions: seq<Holding>, day: int, atOpen: bool)
    requires NoNegativePrice(input) && cash >= 0.0 && forall i :: 0 <= i < |positions| ==> positions[i].quantity > 0.0
    ensures Value(input, cash, positions, day, atOpen) >= cash
  {
    if positions != [] {
      var h := positions[|positions| - 1];
      WorthAt(input, cash, positions[..|positions| - 1], day, atOpen);
      if (h.symbol, day) in input.bars {
        NonNegative(h.quantity, input.bars[(h.symbol, day)].close);
        NonNegative(h.quantity, input.bars[(h.symbol, day)].open);
      }
    }
  }

  lemma RowBalanced(cash: real, held: real, equity: real)
    requires cash >= 0.0 && held >= 0.0 && equity == cash + held
    ensures var gross := if equity <= 0.0 then 0.0 else Quotient(held, equity);
      0.0 <= gross <= 1.0 && equity == cash + Times(gross, equity)
  {
    if equity > 0.0 { assert held / equity * equity == held; }
  }

  lemma ClosingBalanced(cfg: Settings, input: Input, sim: Sim, d: Desk, day: int)
    requires NoNegativePrice(input) && Solvent(d) && Closing(input, sim, d, day).Ok?
    ensures var rows := Closing(input, sim, d, day).value.equity;
      |rows| == |sim.equity| + 1 && rows[..|sim.equity|] == sim.equity && Balanced(rows[|sim.equity|])
  {
    WorthAt(input, 0.0, d.positions, day, false);
    ValueCash(input, 0.0, d.cash, d.positions, day, false);
    RowBalanced(d.cash, Value(input, 0.0, d.positions, day, false), Value(input, d.cash, d.positions, day, false));
    hide Value, Quotient, Times;
  }

  /** Every equity row of every backtest balances. */
  lemma {:induction false} RowsBalanced(cfg: Settings, input: Input, days: seq<int>)
    requires Sane(cfg) && NoNegativePrice(input) && RunDays(cfg, input, days).Ok?
    ensures var rows := RunDays(cfg, input, days).value.equity;
      |rows| == |days| && forall i :: 0 <= i < |rows| ==> Balanced(rows[i])
  {
    if days != [] {
      var init, day := days[..|days| - 1], days[|days| - 1];
      RowsBalanced(cfg, input, init);
      RunSolvent(cfg, input, days);
      var sim := RunDays(cfg, input, init).value;
      hide Sane, NoNegativePrice, Balanced, Trading, Closing, Solvent;
      ClosingDesk(input, sim, Trading(cfg, input, sim.desk, day).value, day);
      ClosingBalanced(cfg, input, sim, Trading(cfg, input, sim.desk, day).value, day);
      var rows := RunDays(cfg, input, days).value.equity;
      forall i | 0 <= i < |rows| ensures Balanced(rows[i]) {
        if i < |sim.equity| { assert rows[i] == rows[..|sim.equity|][i]; }
      }
    }
  }

  lemma ClosingDesk(input: Input, sim: Sim, d: Desk, day: int)
    requires Closing(input, sim, d, day).Ok?
    ensures Closing(input, sim, d, day).value.desk == d
  {
    hide Value;
  }

  // ---------------------------------------------------------------------- the benchmark

  lemma ClosingBenchmark(cfg: Settings, input: Input, sim: Sim, day: int)
    requires DayStep(cfg, input, sim, day).Ok?
    ensures (input.benchmark, day) in input.bars
    ensures var close, after := input.bars[(input.benchmark, day)].close, DayStep(cfg, input, sim, day).value;
      && after.previousClose == Some(close)
      && after.benchmark ==
         if sim.previousClose.Some? && sim.previousClose.value > 0.0
             then Grown(sim.benchmark, close, sim.previousClose.value)
         else sim.benchmark
  {
    hide Trading, Value;
  }

  /** As long as the benchmark closes above zero on every day but the last, its equity is its close relative to
      its first close. */
  lemma {:induction false} BenchmarkTelescopes(cfg: Settings, input: Input, days: seq<int>)
    requires RunDays(cfg, input, days).Ok? && days != []
    requires forall i :: 0 <= i < |days| - 1 ==>
      (input.benchmark, days[i]) in input.bars ==> input.bars[(input.benchmark, days[i])].close > 0.0
    ensures (input.benchmark, days[0]) in input.bars && (input.benchmark, days[|days| - 1]) in input.bars
    ensures var first, last := input.bars[(input.benchmark, days[0])].close,
        input.bars[(input.benchmark, days[|days| - 1])].close;
      var sim := RunDays(cfg, input, days).value;
      && sim.previousClose == Some(last)
      && sim.benchmark == if |days| == 1 then 1.0 else Over(last, first)
  {
    var init, day := days[..|days| - 1], days[|days| - 1];
    hide DayStep, Over, Grown;
    ClosingBenchmark(cfg, input, RunDays(cfg, input, init).value, day);
    if init != [] {
      BenchmarkTelescopes(cfg, input, init);
      hide RunDays;
      var first, previous := input.bars[(input.benchmark, days[0])].close,
          input.bars[(input.benchmark, init[|init| - 1])].close;
      assert init[0] == days[0];
      ChainRatio(first, previous, input.bars[(input.benchmark, day)].close);
    }
  }

  lemma ChainRatio(first: real, previous: real, last: real)
    requires first > 0.0 && previous > 0.0
    ensures Grown(Over(previous, first), last, previous) == Over(last, first)
    ensures Grown(1.0, last, first) == Over(last, first)
  {
    var a, b, c := previous / first, last / previous, last / first;
    assert a * first == previous && b * previous == last && c * first == last;
    assert a * b * first == b * previous;
    Cancel(a * b, c, first);
  }
}
