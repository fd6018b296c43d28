/** What the fee schedule promises about the money that moves: a minimum commission, stamp duty on sales
    only, a transfer fee for Shanghai codes only. */
module FeeRules {
  import opened Basics
  import opened Rounding
  import opened Contracts
  import opened Ordering
  import opened Replay
  import opened LedgerModel
  import opened LedgerFindings

  ghost predicate ShanghaiCode(symbol: string) {
    symbol != "" && (symbol[0] == '5' || symbol[0] == '6' || symbol[0] == '9')
  }

  /** What a fill costs beyond, or brings in short of, its notional. */
  function Charged(cfg: Config, f: Fill): int {
    if f.side.Buy? then Outlay(cfg, f) - Notional(f) else Notional(f) - Proceeds(cfg, f)
  }

  lemma ChargedIsFees(cfg: Config, f: Fill)
    ensures Charged(cfg, f) == Fees(cfg.fees, f)
  {
    hide Notional, Fees;
  }

  /** A buy pays no stamp duty, whatever the rate. */
  lemma BuyIgnoresStamp(cfg: Config, other: Config, f: Fill, stamp: real)
    requires f.side.Buy? && stamp >= 0.0 && other.fees == cfg.fees.(stamp := stamp)
    ensures Charged(cfg, f) == Charged(other, f)
  {
    ChargedIsFees(cfg, f);
    ChargedIsFees(other, f);
    hide Notional, HalfUp, Charged, Times, Levy;
  }

  /** A sell pays what a buy of the same symbol and notional pays, and the stamp duty on top. */
  lemma SellPaysStamp(cfg: Config, b: Fill, s: Fill)
    requires b.side.Buy? && s.side.Sell? && b.symbol == s.symbol && Notional(b) == Notional(s)
    ensures Charged(cfg, s) == Charged(cfg, b) + Levy(Notional(s), cfg.fees.stamp)
  {
    ChargedIsFees(cfg, b);
    ChargedIsFees(cfg, s);
    hide Notional, HalfUp, Charged, Times, Levy;
  }

  /** A Shanghai code pays what any other code pays for the same side and notional, and the transfer fee on top. */
  lemma ShanghaiPaysTransfer(cfg: Config, f: Fill, g: Fill)
    requires f.side == g.side && Notional(f) == Notional(g) && ShanghaiCode(f.symbol) && !ShanghaiCode(g.symbol)
    ensures Charged(cfg, f) == Charged(cfg, g) + Levy(Notional(f), cfg.fees.transfer)
  {
    ChargedIsFees(cfg, f);
    ChargedIsFees(cfg, g);
    hide Notional, HalfUp, Charged, Times, Levy;
  }

  /** The rest is commission: the minimum up to the notional where the share reaches it, the share from there on.
      A buy of any code that is not a Shanghai one pays nothing else. */
  lemma CommissionIs(cfg: Config, f: Fill)
    requires f.side.Buy? && !ShanghaiCode(f.symbol)
    ensures Times(Notional(f) as real, cfg.fees.commission) <= cfg.fees.minimum ==>
        Charged(cfg, f) == HalfUp(cfg.fees.minimum)
    ensures Times(Notional(f) as real, cfg.fees.commission) >= cfg.fees.minimum ==>
        Charged(cfg, f) == Levy(Notional(f), cfg.fees.commission)
  {
    ChargedIsFees(cfg, f);
    hide Notional, HalfUp, Charged, Times;
  }

  /** Half a cent goes up. */
  lemma NearestCent(x: real)
    requires x >= 0.0
    ensures -0.5 < HalfUp(x) as real - x <= 0.5
  {
  }

  /** A notional is price times quantity to the nearest cent. */
  lemma NotionalIsNearest(f: Fill)
    ensures -50 < 100 * Notional(f) - f.price * f.quantity <= 50
  {
    hide HalfUp, Cents;
    WholeProduct(f.price, f.quantity);
    NearestCent(Cents(f.price, f.quantity));
    NearestHundredth(Notional(f), f.price * f.quantity);
  }

  lemma WholeProduct(price: int, quantity: int)
    requires price > 0 && quantity > 0
    ensures Cents(price, quantity) == (price * quantity) as real / 100.0
  {
    assert (price * quantity) as real == price as real * quantity as real;
  }

  lemma NearestHundredth(n: int, product: int)
    requires -0.5 < n as real - product as real / 100.0 <= 0.5
    ensures -50 < 100 * n - product <= 50
  {
  }

  /** A levy is notional times rate to the nearest cent. */
  lemma LevyIsNearest(notional: nat, rate: real)
    requires rate >= 0.0
    ensures -0.5 < Levy(notional, rate) as real - Times(notional as real, rate) <= 0.5
  {
    hide HalfUp;
    assert Times(notional as real, rate) >= 0.0;
    hide Times;
    NearestCent(Times(notional as real, rate));
  }

  // -------------------------------------------------------------- a run at default rates

  /** 100,000 yuan and the schedule's default rates: 0.03 percent with a minimum of 5 yuan, 0.05 percent stamp
      duty, 0.001 percent transfer fee. */
  function Standard(): Config {
    Config(10000000, FeeRates(0.0003, 500.0, 0.0005, 0.00001), map[], (d: int) => d + 1, 100)
  }

  const BOUGHT: Fill := FillRecord("b", Buy, "600000", 1000, 100000, 1, "Bank", "manual", 1)

  const SOLD: Fill := FillRecord("s", Sell, "600000", 1000, 300000, 3, "Bank", "manual", 3)

  lemma WorthIs(price: int, quantity: int, cents: int)
    requires price > 0 && quantity > 0 && Cents(price, quantity) == cents as real
    ensures Worth(price, quantity) == cents
  {
    HalfUpOfInt(cents);
    hide HalfUp;
  }

  lemma StandardAmounts()
    ensures Notional(BOUGHT) == 1000000 && Notional(SOLD) == 3000000
    ensures Outlay(Standard(), BOUGHT) == 1000510 && Proceeds(Standard(), SOLD) == 2997570
  {
    WorthIs(100000, 1000, 1000000);
    WorthIs(300000, 1000, 3000000);
    hide Worth;
    assert Notional(BOUGHT) as real * 0.0003 == 300.0 && Notional(SOLD) as real * 0.0003 == 900.0;
    assert Notional(SOLD) as real * 0.0005 == 1500.0;
    assert Notional(BOUGHT) as real * 0.00001 == 10.0 && Notional(SOLD) as real * 0.00001 == 30.0;
    assert HalfUp(500.0) == 500 && HalfUp(900.0) == 900 && HalfUp(1500.0) == 1500 && HalfUp(10.0) == 10 &&
        HalfUp(30.0) == 30;
  }

  /** 1,000 shares of a Shanghai code bought at 10 yuan, with the minimum commission and 0.10 transfer fee, and sold at
      30 yuan, with 9 commission, 15 stamp duty and 0.30 transfer fee. */
  lemma DefaultRatesRun()
    ensures var s := Run(Standard(), [Fills(BOUGHT), Fills(SOLD)]);
      && SnapshotAt(Standard(), s, 1).Ok? && SnapshotAt(Standard(), s, 1).value.cash == 8999490
      && SnapshotAt(Standard(), s, 3).Ok? && SnapshotAt(Standard(), s, 3).value.cash == 11997060
  {
    StandardAmounts();
    hide Notional, Outlay, Proceeds, Run, SnapshotAt;
    assert Pair(Standard(), BOUGHT, SOLD);
    PairRun(Standard(), BOUGHT, SOLD);
    PairSnapshotCash(Standard(), BOUGHT, SOLD);
    PairFirstCash(Standard(), BOUGHT, SOLD);
  }

  lemma PairFirstCash(cfg: Config, buy: Fill, sell: Fill)
    requires Pair(cfg, buy, sell) && sell.quantity <= buy.quantity
    ensures var snapshot := SnapshotAt(cfg, TwoFillLedger(buy, sell), buy.tradeDate);
      snapshot.Ok? && snapshot.value.cash == cfg.initialCash - Outlay(cfg, buy)
  {
    hide Notional, Outlay, Proceeds, Effective, Upto, ReplayFills;
    KeptTwo(buy, sell);
    EffectiveTwo(TwoFillLedger(buy, sell), buy, sell);
    OneFillPosition(cfg, buy);
    CountsOfReplay(cfg, [buy], buy.symbol, buy.tradeDate);
    FillSums(cfg, [], buy, buy.symbol, 0);
    assert [] + [buy] == [buy];
    NoCashMoved(cfg);
  }
}
