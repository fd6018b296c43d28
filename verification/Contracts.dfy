/** Value objects of the manual account: fills, corrections, fees.
    Money is in cents, prices in 1/10000, dates and timestamps are integers. */
module Contracts {
  import opened Rounding
  import opened Basics

  datatype Side = Buy | Sell

  datatype FillRecord = FillRecord(
    id: string, side: Side, symbol: string, quantity: int, price: int,
    tradeDate: int, name: string, source: string, recordedAt: int)

  ghost predicate ValidFill(f: FillRecord) {
    f.id != "" && f.quantity > 0 && f.price > 0
  }

  /** What the fill's own constructor lets through. */
  type Fill = f: FillRecord | ValidFill(f)
    witness FillRecord("id", Buy, "", 1, 1, 0, "", "manual", 0)

  datatype Correction = Correction(id: string, originalId: string, replacement: Fill, recordedAt: int)

  datatype Record = FillRow(fill: Fill) | CorrectionRow(correction: Correction)

  datatype LedgerError =
    | NotionalNotPositive
    | InsufficientCash
    | InsufficientShares
    | NameRequired
    | NameMismatch
    | NotWholeLots
    | IdReused
    | DateBeforeLatest
    | OriginalMissing
    | OriginalCorrected
    | ReplacementIdReused
    | SideOrSymbolChanged
    | DateChanged
    | CorrectionIdRequired

  /** Rates are exact decimals; the minimum commission is in cents. */
  datatype FeeRates = FeeRates(commission: real, minimum: real, stamp: real, transfer: real)

  type FeeSchedule = f: FeeRates |
      f.commission >= 0.0 && f.minimum >= 0.0 && f.stamp >= 0.0 && f.transfer >= 0.0
    witness FeeRates(0.0, 0.0, 0.0, 0.0)

  datatype Config = Config(
    initialCash: int, fees: FeeSchedule, known: map<string, string>, next: int -> int, lotSize: nat)

  predicate Shanghai(symbol: string) {
    symbol != "" && symbol[0] in {'5', '6', '9'}
  }

  /** Shares at a price, in cents before rounding. */
  function Cents(price: int, quantity: int): (cents: real)
    requires price > 0 && quantity > 0
    ensures cents >= 0.0
  {
    price as real * quantity as real / 100.0
  }

  /** The same to the nearest cent. */
  function Worth(price: int, quantity: int): (cents: int)
    requires price > 0 && quantity > 0
    ensures cents >= 0
  {
    HalfUp(Cents(price, quantity))
  }

  function Notional(f: Fill): (cents: int)
    ensures cents >= 0
  {
    Worth(f.price, f.quantity)
  }

  /** A share of the notional, to the cent. */
  function Levy(notional: nat, rate: real): (cents: int)
    requires rate >= 0.0
    ensures cents >= 0
  {
    assert Times(notional as real, rate) >= 0.0;
    HalfUp(Times(notional as real, rate))
  }

  /** Commission with its minimum, stamp duty on sells, transfer fee in Shanghai, each rounded. */
  function FeeTotal(rates: FeeSchedule, side: Side, symbol: string, notional: nat): (cents: int)
    ensures cents >= 0
  {
    var share := Times(notional as real, rates.commission);
    assert share >= 0.0;
    var commission := HalfUp(Max(share, rates.minimum));
    var stamp := if side.Sell? then Levy(notional, rates.stamp) else 0;
    var transfer := if Shanghai(symbol) then Levy(notional, rates.transfer) else 0;
    commission + stamp + transfer
  }

  function Fees(rates: FeeSchedule, f: Fill): (cents: int)
    ensures cents >= 0
  {
    FeeTotal(rates, f.side, f.symbol, Notional(f))
  }

  /** What a buy takes out of the account. */
  function Outlay(cfg: Config, f: Fill): (cents: int)
    ensures cents >= Notional(f)
  {
    Notional(f) + Fees(cfg.fees, f)
  }

  /** What a sell brings in; negative when the fees exceed the notional. */
  function Proceeds(cfg: Config, f: Fill): int {
    Notional(f) - Fees(cfg.fees, f)
  }
}
