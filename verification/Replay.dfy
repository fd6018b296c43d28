/** Replaying fills into cash and FIFO lots. */
module Replay {
  import opened Rounding
  import opened Wrappers
  import opened Basics
  import opened Contracts
  import opened Ordering

  datatype Lot = Lot(quantity: int, remaining: int, cost: int, availableFrom: int)

  datatype Book = Book(cash: int, pnl: int, lots: map<string, seq<Lot>>, names: map<string, string>)

  /** A running sell: the lots seen so far, the shares still to sell, the cost basis. */
  datatype Sale = Sale(lots: seq<Lot>, left: int, basis: int)

  function Min(a: int, b: int): int { if a <= b then a else b }

  function LotsOf(book: Book, symbol: string): seq<Lot> {
    if symbol in book.lots then book.lots[symbol] else []
  }

  function Allocation(lot: Lot, take: int): int
    requires lot.remaining != 0
  {
    if take == lot.remaining then lot.cost
    else HalfUp(Proportion(lot.cost, take, lot.remaining))
  }

  /** Shares this lot gives to the sell; none while it is frozen or the sell is satisfied. */
  function TakeFrom(lot: Lot, day: int, left: int): int {
    if lot.availableFrom > day || left <= 0 || Min(lot.remaining, left) <= 0 then 0
    else Min(lot.remaining, left)
  }

  function Share(lot: Lot, take: int): int {
    if take == 0 || lot.remaining == 0 then 0 else Allocation(lot, take)
  }

  function AfterTake(lot: Lot, take: int): Lot {
    lot.(remaining := lot.remaining - take, cost := lot.cost - Share(lot, take))
  }

  function SellFrom(sale: Sale, lot: Lot, day: int): Sale {
    var take := TakeFrom(lot, day, sale.left);
    Sale(sale.lots + [AfterTake(lot, take)], sale.left - take, sale.basis + Share(lot, take))
  }

  function SellLots(lots: seq<Lot>, day: int, quantity: int): Sale {
    if lots == [] then Sale([], quantity, 0)
    else SellFrom(SellLots(lots[..|lots| - 1], day, quantity), lots[|lots| - 1], day)
  }

  function ApplyBuy(cfg: Config, book: Book, f: Fill): Result<Book, LedgerError> {
    if Notional(f) <= 0 then Err(NotionalNotPositive)
    else if book.cash < Outlay(cfg, f) then Err(InsufficientCash)
    else
      var lot := Lot(f.quantity, f.quantity, Outlay(cfg, f), cfg.next(f.tradeDate));
      var name := if f.name != "" then f.name
                  else if f.symbol in book.names then book.names[f.symbol] else "";
      Ok(Book(book.cash - Outlay(cfg, f), book.pnl,
              book.lots[f.symbol := LotsOf(book, f.symbol) + [lot]],
              book.names[f.symbol := name]))
  }

  function ApplySell(cfg: Config, book: Book, f: Fill): Result<Book, LedgerError> {
    if Notional(f) <= 0 then Err(NotionalNotPositive)
    else
      var sale := SellLots(LotsOf(book, f.symbol), f.tradeDate, f.quantity);
      if sale.left != 0 then Err(InsufficientShares)
      else
        Ok(Book(book.cash + Proceeds(cfg, f), book.pnl + Proceeds(cfg, f) - sale.basis,
                if f.symbol in book.lots then book.lots[f.symbol := sale.lots] else book.lots,
                book.names))
  }

  function Apply(cfg: Config, book: Book, f: Fill): Result<Book, LedgerError> {
    if f.side.Buy? then ApplyBuy(cfg, book, f) else ApplySell(cfg, book, f)
  }

  function Opening(cfg: Config): Book {
    Book(cfg.initialCash, 0, map[], map[])
  }

  function ReplayFills(cfg: Config, fills: seq<Fill>): Result<Book, LedgerError> {
    if fills == [] then Ok(Opening(cfg))
    else
      var before := ReplayFills(cfg, fills[..|fills| - 1]);
      if before.Err? then before else Apply(cfg, before.value, fills[|fills| - 1])
  }

  lemma {:induction false} ReplayPrefix(cfg: Config, fills: seq<Fill>, k: nat)
    requires k <= |fills| && ReplayFills(cfg, fills).Ok?
    ensures ReplayFills(cfg, fills[..k]).Ok?
  {
    if k < |fills| {
      assert fills[..|fills| - 1][..k] == fills[..k];
      ReplayPrefix(cfg, fills[..|fills| - 1], k);
    } else {
      assert fills[..k] == fills;
    }
  }

  // ------------------------------------------------------------- lot sums

  function Held(lots: seq<Lot>): int {
    if lots == [] then 0 else Held(lots[..|lots| - 1]) + lots[|lots| - 1].remaining
  }

  function AvailableOn(lots: seq<Lot>, day: int): int {
    if lots == [] then 0
    else AvailableOn(lots[..|lots| - 1], day) +
         if lots[|lots| - 1].availableFrom <= day then lots[|lots| - 1].remaining else 0
  }

  function CostOf(lots: seq<Lot>): int {
    if lots == [] then 0 else CostOf(lots[..|lots| - 1]) + lots[|lots| - 1].cost
  }

  ghost predicate SoundLot(lot: Lot) {
    0 <= lot.remaining <= lot.quantity && 0 < lot.quantity && 0 <= lot.cost &&
    (lot.remaining == 0 ==> lot.cost == 0)
  }

  ghost predicate SoundLots(lots: seq<Lot>) {
    forall i :: 0 <= i < |lots| ==> SoundLot(lots[i])
  }

  ghost predicate SoundBook(book: Book) {
    forall s :: s in book.lots ==> SoundLots(book.lots[s])
  }

  lemma HeldBounds(lots: seq<Lot>, day: int)
    requires SoundLots(lots)
    ensures 0 <= AvailableOn(lots, day) <= Held(lots)
    ensures 0 <= CostOf(lots)
  {
  }

  /** Every allocation stays inside the lot's remaining cost; selling the rest takes all of it. */
  lemma AllocationBounds(lot: Lot, take: int)
    requires SoundLot(lot) && 0 < take <= lot.remaining
    ensures 0 <= Allocation(lot, take) <= lot.cost
    ensures take == lot.remaining ==> Allocation(lot, take) == lot.cost
  {
    hide HalfUp, Proportion;
    if take < lot.remaining {
      HalfUpShareBounds(lot.cost, take, lot.remaining);
    }
  }

  lemma LotSums(lots: seq<Lot>, lot: Lot, day: int, quantity: int)
    ensures Held(lots + [lot]) == Held(lots) + lot.remaining
    ensures CostOf(lots + [lot]) == CostOf(lots) + lot.cost
    ensures AvailableOn(lots + [lot], day) ==
            AvailableOn(lots, day) + if lot.availableFrom <= day then lot.remaining else 0
    ensures SellLots(lots + [lot], day, quantity) == SellFrom(SellLots(lots, day, quantity), lot, day)
  {
    assert (lots + [lot])[..|lots|] == lots;
  }

  /** One lot's turn in a sell keeps it sound. */
  lemma AfterTakeSound(lot: Lot, day: int, left: int)
    requires SoundLot(lot)
    ensures var take := TakeFrom(lot, day, left);
      && SoundLot(AfterTake(lot, take)) && 0 <= Share(lot, take) <= lot.cost
      && 0 <= take && (left > 0 ==> take <= left)
      && take == if lot.availableFrom <= day && left > 0 then Min(lot.remaining, left) else 0
  {
    var take := TakeFrom(lot, day, left);
    if take != 0 { AllocationBounds(lot, take); }
  }

  lemma {:induction false} SellLotsSound(lots: seq<Lot>, day: int, quantity: int)
    requires SoundLots(lots)
    ensures var after := SellLots(lots, day, quantity).lots;
      && |after| == |lots| && SoundLots(after)
      && forall i :: 0 <= i < |lots| ==>
           after[i].quantity == lots[i].quantity && after[i].availableFrom == lots[i].availableFrom
  {
    if lots != [] {
      hide SellLots, TakeFrom, Share;
      var init, lot := lots[..|lots| - 1], lots[|lots| - 1];
      assert lots == init + [lot];
      SellLotsSound(init, day, quantity);
      LotSums(init, lot, day, quantity);
      AfterTakeSound(lot, day, SellLots(init, day, quantity).left);
    }
  }

  /** What is left of a lot costs its share of the former cost, to the nearest cent. */
  ghost predicate CostInProportion(before: Lot, after: Lot) {
    -before.remaining <= 2 * (after.cost * before.remaining - before.cost * after.remaining) <= before.remaining
  }

  lemma NearestShare(n: int, x: real, w: int, b: int)
    requires w > 0 && -0.5 <= n as real - x <= 0.5 && Times(x, w as real) == b as real
    ensures -w <= 2 * (n * w - b) <= w
  {
    TimesWithin(n as real - x, w as real);
    TimesDifference(n, x, w);
    hide Times;
    Whole(n * w, b, w);
  }

  lemma TimesDifference(n: int, x: real, w: int)
    ensures Times(n as real - x, w as real) == (n * w) as real - Times(x, w as real)
  {
    assert (n * w) as real == n as real * w as real;
  }

  lemma Whole(a: int, b: int, w: int)
    requires -(w as real) <= 2.0 * (a as real - b as real) <= w as real
    ensures -w <= 2 * (a - b) <= w
  {
  }

  lemma TimesWithin(d: real, w: real)
    requires w > 0.0 && -0.5 <= d <= 0.5
    ensures -w <= 2.0 * Times(d, w) <= w
  {
    TimesNonNegative(0.5 - d, w);
    TimesNonNegative(d + 0.5, w);
    assert Times(0.5 - d, w) == 0.5 * w - Times(d, w) && Times(d + 0.5, w) == 0.5 * w + Times(d, w);
  }

  lemma TimesNonNegative(x: real, y: real)
    requires x >= 0.0 && y >= 0.0
    ensures Times(x, y) >= 0.0
  {
  }

  lemma ShareTimesWhole(amount: int, take: int, whole: int)
    requires whole > 0
    ensures Times(Proportion(amount, take, whole), whole as real) == (amount * take) as real
  {
    assert (amount * take) as real == amount as real * take as real;
  }

  lemma TakenInProportion(lot: Lot, take: int)
    requires SoundLot(lot) && 0 <= take <= lot.remaining
    ensures CostInProportion(lot, AfterTake(lot, take))
  {
    hide HalfUp, Proportion, Times;
    if 0 < take < lot.remaining {
      var x := Proportion(lot.cost, take, lot.remaining);
      ShareTimesWhole(lot.cost, take, lot.remaining);
      NearestToHalf(x);
      NearestShare(HalfUp(x), x, lot.remaining, lot.cost * take);
      Rearranged(lot.cost, HalfUp(x), lot.remaining, take);
    }
    hide Allocation;
  }

  lemma Rearranged(cost: int, n: int, whole: int, take: int)
    ensures (cost - n) * whole - cost * (whole - take) == cost * take - n * whole
  {
  }

  lemma NearestToHalf(x: real)
    ensures -0.5 <= HalfUp(x) as real - x <= 0.5
  {
  }

  /** A sell leaves every lot its share of the cost. */
  lemma {:induction false} SellKeepsProportion(lots: seq<Lot>, day: int, quantity: int)
    requires SoundLots(lots)
    ensures |SellLots(lots, day, quantity).lots| == |lots|
    ensures forall i :: 0 <= i < |lots| ==> CostInProportion(lots[i], SellLots(lots, day, quantity).lots[i])
  {
    if lots != [] {
      hide SellLots, CostInProportion, Share;
      var init, lot := lots[..|lots| - 1], lots[|lots| - 1];
      assert lots == init + [lot];
      SellKeepsProportion(init, day, quantity);
      LotSums(init, lot, day, quantity);
      TakenInProportion(lot, TakeFrom(lot, day, SellLots(init, day, quantity).left));
    }
  }

  lemma NothingHeld(day: int, quantity: int)
    ensures SellLots([], day, quantity) == Sale([], quantity, 0)
    ensures Held([]) == 0 && CostOf([]) == 0 && AvailableOn([], day) == 0
  {
  }

  /** What one pass over the lots does: the cost basis is exactly the cost removed, lots stay
      sound, and the shares taken are the smaller of the request and what is available. */
  lemma {:induction false} SellLotsEffect(lots: seq<Lot>, day: int, quantity: int)
    requires SoundLots(lots) && quantity > 0
    ensures var sale := SellLots(lots, day, quantity);
      && |sale.lots| == |lots| && SoundLots(sale.lots)
      && sale.basis == CostOf(lots) - CostOf(sale.lots) && sale.basis >= 0
      && sale.left == quantity - Min(quantity, AvailableOn(lots, day))
      && Held(sale.lots) == Held(lots) - (quantity - sale.left)
  {
    hide Held, CostOf, AvailableOn, SellLots, TakeFrom, Share;
    SellLotsSound(lots, day, quantity);
    if lots == [] {
      NothingHeld(day, quantity);
    } else {
      var init, lot := lots[..|lots| - 1], lots[|lots| - 1];
      assert lots == init + [lot];
      SellLotsEffect(init, day, quantity);
      HeldBounds(init, day);
      LotSums(init, lot, day, quantity);
      var sale := SellLots(init, day, quantity);
      AfterTakeSound(lot, day, sale.left);
      LotSums(sale.lots, AfterTake(lot, TakeFrom(lot, day, sale.left)), day, quantity);
    }
  }

  /** Selling on `day` takes the same number of shares out of what is available on any later day. */
  lemma {:induction false} SellLotsAvailable(lots: seq<Lot>, day: int, quantity: int, later: int)
    requires SoundLots(lots) && quantity > 0 && day <= later
    ensures var sale := SellLots(lots, day, quantity);
      AvailableOn(sale.lots, later) == AvailableOn(lots, later) - (quantity - sale.left)
  {
    if lots != [] {
      hide Held, CostOf, AvailableOn, SellLots, TakeFrom, Share;
      var init, lot := lots[..|lots| - 1], lots[|lots| - 1];
      assert lots == init + [lot];
      SellLotsAvailable(init, day, quantity, later);
      LotSums(init, lot, later, quantity);
      LotSums(init, lot, day, quantity);
      var sale := SellLots(init, day, quantity);
      AfterTakeSound(lot, day, sale.left);
      LotSums(sale.lots, AfterTake(lot, TakeFrom(lot, day, sale.left)), later, quantity);
    }
  }

  lemma {:induction false} SoundReplay(cfg: Config, fills: seq<Fill>)
    requires ReplayFills(cfg, fills).Ok?
    ensures SoundBook(ReplayFills(cfg, fills).value)
  {
    if fills != [] {
      SoundReplay(cfg, fills[..|fills| - 1]);
      var book, f := ReplayFills(cfg, fills[..|fills| - 1]).value, fills[|fills| - 1];
      if f.side.Sell? {
        SellLotsEffect(LotsOf(book, f.symbol), f.tradeDate, f.quantity);
      }
    }
  }

  // ------------------------------------------------------- cost conservation

  /** Remaining cost of all lots of all symbols. */
  ghost function TotalCost(lots: map<string, seq<Lot>>): int {
    if lots == map[] then 0
    else
      var s :| s in lots;
      CostOf(lots[s]) + TotalCost(lots - {s})
  }

  lemma {:induction false} TotalCostRemove(lots: map<string, seq<Lot>>, s: string)
    requires s in lots
    ensures TotalCost(lots) == CostOf(lots[s]) + TotalCost(lots - {s})
    decreases |lots|
  {
    var t :| t in lots && TotalCost(lots) == CostOf(lots[t]) + TotalCost(lots - {t});
    if t != s {
      TotalCostRemove(lots - {t}, s);
      TotalCostRemove(lots - {s}, t);
      assert lots - {t} - {s} == lots - {s} - {t};
    }
  }

  lemma TotalCostUpdate(lots: map<string, seq<Lot>>, s: string, v: seq<Lot>)
    ensures TotalCost(lots[s := v]) == TotalCost(lots) - (if s in lots then CostOf(lots[s]) else 0) + CostOf(v)
  {
    TotalCostRemove(lots[s := v], s);
    if s in lots {
      TotalCostRemove(lots, s);
      assert lots[s := v] - {s} == lots - {s};
    } else {
      assert lots[s := v] - {s} == lots;
    }
  }

  /** To the cent: cash plus the cost still in lots is the initial cash plus realised profit,
      although every partial sale rounds its allocation. */
  lemma {:induction false} CostConservation(cfg: Config, fills: seq<Fill>)
    requires ReplayFills(cfg, fills).Ok?
    ensures var book := ReplayFills(cfg, fills).value;
      book.cash + TotalCost(book.lots) == cfg.initialCash + book.pnl
  {
    if fills != [] {
      var init, f := fills[..|fills| - 1], fills[|fills| - 1];
      CostConservation(cfg, init);
      SoundReplay(cfg, init);
      var book := ReplayFills(cfg, init).value;
      var lots := LotsOf(book, f.symbol);
      if f.side.Buy? {
        var lot := Lot(f.quantity, f.quantity, Outlay(cfg, f), cfg.next(f.tradeDate));
        assert (lots + [lot])[..|lots|] == lots;
        TotalCostUpdate(book.lots, f.symbol, lots + [lot]);
      } else {
        SellLotsEffect(lots, f.tradeDate, f.quantity);
        TotalCostUpdate(book.lots, f.symbol, SellLots(lots, f.tradeDate, f.quantity).lots);
      }
    }
  }

  // -------------------------------------------- reference semantics by counting

  function Bought(fills: seq<Fill>, symbol: string): int {
    if fills == [] then 0
    else
      var f := fills[|fills| - 1];
      Bought(fills[..|fills| - 1], symbol) + if f.side.Buy? && f.symbol == symbol then f.quantity else 0
  }

  function Sold(fills: seq<Fill>, symbol: string): int {
    if fills == [] then 0
    else
      var f := fills[|fills| - 1];
      Sold(fills[..|fills| - 1], symbol) + if f.side.Sell? && f.symbol == symbol then f.quantity else 0
  }

  /** Shares whose buy has become sellable by `day`. */
  function Settled(cfg: Config, fills: seq<Fill>, symbol: string, day: int): int {
    if fills == [] then 0
    else
      var f := fills[|fills| - 1];
      Settled(cfg, fills[..|fills| - 1], symbol, day) +
      if f.side.Buy? && f.symbol == symbol && cfg.next(f.tradeDate) <= day then f.quantity else 0
  }

  function BoughtBefore(fills: seq<Fill>, symbol: string, day: int): int {
    if fills == [] then 0
    else
      var f := fills[|fills| - 1];
      BoughtBefore(fills[..|fills| - 1], symbol, day) +
      if f.side.Buy? && f.symbol == symbol && f.tradeDate < day then f.quantity else 0
  }

  /** Cash as plain arithmetic over the fills, no lots involved. */
  function CashOf(cfg: Config, fills: seq<Fill>): int {
    if fills == [] then cfg.initialCash
    else
      var f := fills[|fills| - 1];
      CashOf(cfg, fills[..|fills| - 1]) + if f.side.Buy? then -Outlay(cfg, f) else Proceeds(cfg, f)
  }

  /** The next fill can be carried out after `before`. */
  predicate Admissible(cfg: Config, before: seq<Fill>, f: Fill) {
    Notional(f) > 0 &&
    if f.side.Buy? then Outlay(cfg, f) <= CashOf(cfg, before)
    else Sold(before, f.symbol) + f.quantity <= Settled(cfg, before, f.symbol, f.tradeDate)
  }

  ghost predicate Feasible(cfg: Config, fills: seq<Fill>) {
    forall i :: 0 <= i < |fills| ==> Admissible(cfg, fills[..i], fills[i])
  }

  lemma FillSums(cfg: Config, fills: seq<Fill>, f: Fill, symbol: string, day: int)
    ensures var buys, sells := f.side.Buy? && f.symbol == symbol, f.side.Sell? && f.symbol == symbol;
      && Bought(fills + [f], symbol) == Bought(fills, symbol) + (if buys then f.quantity else 0)
      && Sold(fills + [f], symbol) == Sold(fills, symbol) + (if sells then f.quantity else 0)
      && Settled(cfg, fills + [f], symbol, day) ==
           Settled(cfg, fills, symbol, day) + (if buys && cfg.next(f.tradeDate) <= day then f.quantity else 0)
      && CashOf(cfg, fills + [f]) == CashOf(cfg, fills) + (if f.side.Buy? then -Outlay(cfg, f) else Proceeds(cfg, f))
  {
    assert (fills + [f])[..|fills|] == fills;
  }

  /** What one more fill does to cash, shares held and shares available. */
  lemma ApplyEffect(cfg: Config, book: Book, f: Fill, symbol: string, day: int)
    requires SoundBook(book) && Apply(cfg, book, f).Ok? && f.tradeDate <= day
    ensures var after, mine := Apply(cfg, book, f).value, f.symbol == symbol;
      && after.cash == book.cash + (if f.side.Buy? then -Outlay(cfg, f) else Proceeds(cfg, f))
      && Held(LotsOf(after, symbol)) == Held(LotsOf(book, symbol)) +
           (if !mine then 0 else if f.side.Buy? then f.quantity else -f.quantity)
      && AvailableOn(LotsOf(after, symbol), day) == AvailableOn(LotsOf(book, symbol), day) +
           (if !mine then 0 else if f.side.Sell? then -f.quantity
            else if cfg.next(f.tradeDate) <= day then f.quantity else 0)
  {
    hide Held, AvailableOn, SellLots, CostOf, Outlay, Proceeds;
    var lots := LotsOf(book, f.symbol);
    if f.side.Buy? {
      LotSums(lots, Lot(f.quantity, f.quantity, Outlay(cfg, f), cfg.next(f.tradeDate)), day, 1);
    } else {
      SellLotsEffect(lots, f.tradeDate, f.quantity);
      SellLotsAvailable(lots, f.tradeDate, f.quantity, day);
      if f.symbol !in book.lots { NoLots(f.tradeDate, f.quantity); }
    }
  }

  lemma NoLots(day: int, quantity: int)
    ensures SellLots([], day, quantity).left == quantity
  {
  }

  lemma {:induction false} CountsOfReplay(cfg: Config, fills: seq<Fill>, symbol: string, day: int)
    requires ReplayFills(cfg, fills).Ok?
    requires forall f :: f in fills ==> f.tradeDate <= day
    ensures var book := ReplayFills(cfg, fills).value;
      && book.cash == CashOf(cfg, fills)
      && Held(LotsOf(book, symbol)) == Bought(fills, symbol) - Sold(fills, symbol)
      && AvailableOn(LotsOf(book, symbol), day) == Settled(cfg, fills, symbol, day) - Sold(fills, symbol)
  {
    if fills != [] {
      var init, f := fills[..|fills| - 1], fills[|fills| - 1];
      var book := ReplayFills(cfg, init).value;
      assert fills == init + [f] && Apply(cfg, book, f) == ReplayFills(cfg, fills);
      hide Held, AvailableOn, Bought, Sold, Settled, CashOf, Apply, ReplayFills;
      CountsOfReplay(cfg, init, symbol, day);
      SoundReplay(cfg, init);
      ApplyEffect(cfg, book, f, symbol, day);
      FillSums(cfg, init, f, symbol, day);
    }
  }

  lemma AdmissibleIff(cfg: Config, before: seq<Fill>, f: Fill)
    requires ReplayFills(cfg, before).Ok?
    requires DateSorted(before) && forall x :: x in before ==> x.tradeDate <= f.tradeDate
    ensures Apply(cfg, ReplayFills(cfg, before).value, f).Ok? <==> Admissible(cfg, before, f)
  {
    var book := ReplayFills(cfg, before).value;
    CountsOfReplay(cfg, before, f.symbol, f.tradeDate);
    if f.side.Sell? {
      SoundReplay(cfg, before);
      SellLotsEffect(LotsOf(book, f.symbol), f.tradeDate, f.quantity);
    }
  }

  lemma FeasibleSplit(cfg: Config, init: seq<Fill>, f: Fill)
    ensures Feasible(cfg, init + [f]) <==> Feasible(cfg, init) && Admissible(cfg, init, f)
  {
    var fills := init + [f];
    assert fills[..|init|] == init;
    forall i | 0 <= i < |init| ensures fills[..i] == init[..i] && fills[i] == init[i] {}
    if Feasible(cfg, fills) {
      assert Admissible(cfg, fills[..|init|], fills[|init|]);
      forall i | 0 <= i < |init| ensures Admissible(cfg, init[..i], init[i]) {
        assert Admissible(cfg, fills[..i], fills[i]);
      }
    }
  }

  /** The FIFO replay succeeds exactly when plain counting of cash and shares says every fill
      could be carried out at its place. */
  lemma {:induction false} ReplayIffFeasible(cfg: Config, fills: seq<Fill>)
    requires DateSorted(fills)
    ensures ReplayFills(cfg, fills).Ok? <==> Feasible(cfg, fills)
  {
    if fills != [] {
      var init, f := fills[..|fills| - 1], fills[|fills| - 1];
      ReplayIffFeasible(cfg, init);
      FeasibleSplit(cfg, init, f);
      assert fills == init + [f];
      if ReplayFills(cfg, init).Ok? {
        AdmissibleIff(cfg, init, f);
      }
    }
  }

  // --------------------------------------------------------------- T+1 and FIFO

  lemma SettledBeforeDay(cfg: Config, fills: seq<Fill>, symbol: string, day: int)
    requires forall d :: cfg.next(d) > d
    ensures Settled(cfg, fills, symbol, day) <= BoughtBefore(fills, symbol, day)
  {
  }

  /** T+1: shares sold up to and including any fill never exceed those bought on earlier days. */
  lemma NeverSoldOnBuyDay(cfg: Config, fills: seq<Fill>, k: nat)
    requires DateSorted(fills) && ReplayFills(cfg, fills).Ok? && k < |fills| && fills[k].side.Sell?
    requires forall d :: cfg.next(d) > d
    ensures Sold(fills[..k + 1], fills[k].symbol) <= BoughtBefore(fills[..k], fills[k].symbol, fills[k].tradeDate)
  {
    ReplayIffFeasible(cfg, fills);
    assert fills[..k + 1][..k] == fills[..k];
    assert Admissible(cfg, fills[..k], fills[k]);
    SettledBeforeDay(cfg, fills[..k], fills[k].symbol, fills[k].tradeDate);
  }

  /** Emptied lots, then at most one partly sold lot, then untouched ones. */
  ghost predicate FifoShape(lots: seq<Lot>, k: nat) {
    k <= |lots| &&
    (forall i :: 0 <= i < k ==> lots[i].remaining == 0) &&
    (forall i :: k < i < |lots| ==> lots[i].remaining == lots[i].quantity)
  }

  ghost predicate ReleaseOrdered(lots: seq<Lot>) {
    forall i, j :: 0 <= i < j < |lots| ==> lots[i].availableFrom <= lots[j].availableFrom
  }

  lemma SkipEmpty(sale: Sale, lot: Lot, day: int)
    requires lot.remaining == 0
    ensures SellFrom(sale, lot, day) == sale.(lots := sale.lots + [lot])
  {
  }

  /** When every lot is already empty a sell changes none. */
  lemma {:induction false} SellFromEmpty(lots: seq<Lot>, day: int, quantity: int)
    requires FifoShape(lots, |lots|)
    ensures SellLots(lots, day, quantity) == Sale(lots, quantity, 0)
  {
    if lots != [] {
      hide SellLots, SellFrom;
      var init, lot := lots[..|lots| - 1], lots[|lots| - 1];
      assert lots == init + [lot];
      SellFromEmpty(init, day, quantity);
      LotSums(init, lot, day, quantity);
      SkipEmpty(Sale(init, quantity, 0), lot, day);
    }
  }

  /** A sell that wants more has emptied every lot it may touch. */
  lemma {:induction false} HungrySellEmpties(lots: seq<Lot>, day: int, quantity: int)
    requires SoundLots(lots) && quantity > 0 && SellLots(lots, day, quantity).left > 0
    requires forall i :: 0 <= i < |lots| ==> lots[i].availableFrom <= day
    ensures FifoShape(SellLots(lots, day, quantity).lots, |lots|)
  {
    if lots != [] {
      hide SellLots, TakeFrom, Share;
      var init, lot := lots[..|lots| - 1], lots[|lots| - 1];
      assert lots == init + [lot];
      LotSums(init, lot, day, quantity);
      SellLotsSound(init, day, quantity);
      AfterTakeSound(lot, day, SellLots(init, day, quantity).left);
      HungrySellEmpties(init, day, quantity);
    }
  }

  lemma FifoSplit(init: seq<Lot>, lot: Lot, k: nat)
    requires FifoShape(init + [lot], k)
    ensures if k < |init| then FifoShape(init, k) && lot.remaining == lot.quantity
            else FifoShape(init, |init|) && (k > |init| ==> lot.remaining == 0)
  {
    var lots := init + [lot];
    assert lots[|init|] == lot && forall i :: 0 <= i < |init| ==> lots[i] == init[i];
  }

  lemma FifoSnoc(init: seq<Lot>, lot: Lot, m: nat)
    requires FifoShape(init, m)
    ensures lot.remaining == lot.quantity ==> FifoShape(init + [lot], m)
    ensures m == |init| ==> FifoShape(init + [lot], m)
    ensures m == |init| && lot.remaining == 0 ==> FifoShape(init + [lot], m + 1)
  {
  }

  lemma ReleaseSplit(init: seq<Lot>, lot: Lot)
    requires ReleaseOrdered(init + [lot])
    ensures ReleaseOrdered(init) && forall i :: 0 <= i < |init| ==> init[i].availableFrom <= lot.availableFrom
  {
    var lots := init + [lot];
    assert lots[|init|] == lot && forall i :: 0 <= i < |init| ==> lots[i] == init[i];
  }

  lemma {:induction false} SellKeepsFifo(lots: seq<Lot>, day: int, quantity: int, k: nat) returns (m: nat)
    requires SoundLots(lots) && ReleaseOrdered(lots) && FifoShape(lots, k) && quantity > 0
    ensures FifoShape(SellLots(lots, day, quantity).lots, m)
  {
    if lots == [] {
      m := 0;
    } else {
      hide SellLots, TakeFrom, Share, FifoShape, ReleaseOrdered;
      var init, lot := lots[..|lots| - 1], lots[|lots| - 1];
      assert lots == init + [lot];
      FifoSplit(init, lot, k);
      ReleaseSplit(init, lot);
      LotSums(init, lot, day, quantity);
      SellLotsSound(init, day, quantity);
      var sale := SellLots(init, day, quantity);
      AfterTakeSound(lot, day, sale.left);
      NoShare(lot);
      var sold := AfterTake(lot, TakeFrom(lot, day, sale.left));
      if k >= |init| {
        SellFromEmpty(init, day, quantity);
        m := if k > |init| then |init| + 1 else |init|;
        FifoSnoc(init, sold, |init|);
      } else if TakeFrom(lot, day, sale.left) != 0 {
        HungrySellEmpties(init, day, quantity);
        m := |init|;
        FifoSnoc(sale.lots, sold, m);
      } else {
        m := SellKeepsFifo(init, day, quantity, k);
        FifoSnoc(sale.lots, sold, m);
      }
    }
  }

  lemma NoShare(lot: Lot)
    ensures AfterTake(lot, 0) == lot
  {
  }

  ghost predicate FifoBook(book: Book) {
    forall s :: s in book.lots ==>
      ReleaseOrdered(book.lots[s]) && exists k :: FifoShape(book.lots[s], k)
  }

  lemma {:induction false} ReleaseDates(cfg: Config, fills: seq<Fill>, symbol: string, day: int)
    requires ReplayFills(cfg, fills).Ok? && DateSorted(fills)
    requires forall a, b :: a <= b ==> cfg.next(a) <= cfg.next(b)
    requires forall f :: f in fills ==> f.tradeDate <= day
    ensures var lots := LotsOf(ReplayFills(cfg, fills).value, symbol);
      ReleaseOrdered(lots) && forall i :: 0 <= i < |lots| ==> lots[i].availableFrom <= cfg.next(day)
  {
    if fills != [] {
      var init, f := fills[..|fills| - 1], fills[|fills| - 1];
      ReleaseDates(cfg, init, symbol, f.tradeDate);
      SoundReplay(cfg, init);
      hide SellLots, Outlay, Proceeds;
      if f.side.Sell? {
        SellLotsSound(LotsOf(ReplayFills(cfg, init).value, f.symbol), f.tradeDate, f.quantity);
      }
    }
  }

  /** With a monotone next-day function every symbol's lots keep the FIFO shape. */
  lemma {:induction false} FifoAlways(cfg: Config, fills: seq<Fill>)
    requires ReplayFills(cfg, fills).Ok? && DateSorted(fills)
    requires forall a, b :: a <= b ==> cfg.next(a) <= cfg.next(b)
    ensures FifoBook(ReplayFills(cfg, fills).value)
  {
    if fills != [] {
      var init, f := fills[..|fills| - 1], fills[|fills| - 1];
      FifoAlways(cfg, init);
      SoundReplay(cfg, init);
      var book, after := ReplayFills(cfg, init).value, ReplayFills(cfg, fills).value;
      var lots := LotsOf(book, f.symbol);
      ReleaseDates(cfg, fills, f.symbol, f.tradeDate);
      if f.symbol in after.lots {
        var k: nat := 0;
        if f.symbol in book.lots { k :| FifoShape(lots, k); }
        if f.side.Buy? {
          assert FifoShape(LotsOf(after, f.symbol), k);
        } else {
          var m := SellKeepsFifo(lots, f.tradeDate, f.quantity, k);
        }
      }
    }
  }
}
