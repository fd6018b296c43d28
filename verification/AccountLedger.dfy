/** The append-only account ledger, proved against `LedgerModel`. */
module AccountLedgerClass {
  import opened Wrappers
  import opened Contracts
  import opened Ordering
  import opened Replay
  import opened LedgerModel

  lemma {:induction false} ReplayErrorStays(cfg: Config, fills: seq<Fill>, k: nat)
    requires k <= |fills| && ReplayFills(cfg, fills[..k]).Err?
    ensures ReplayFills(cfg, fills) == ReplayFills(cfg, fills[..k])
  {
    if k < |fills| {
      assert fills[..|fills| - 1][..k] == fills[..k];
      ReplayErrorStays(cfg, fills[..|fills| - 1], k);
    } else {
      assert fills[..k] == fills;
    }
  }

  lemma {:induction false} UptoTake(s: seq<Fill>, k: nat, day: int)
    requires k <= |s|
    ensures Upto(s[..k], day) <= Upto(s, day)
  {
    if k < |s| {
      assert s[..|s| - 1][..k] == s[..k];
      UptoTake(s[..|s| - 1], k, day);
    } else {
      assert s[..k] == s;
    }
  }

  lemma ReplaySnoc(cfg: Config, fills: seq<Fill>, f: Fill)
    requires ReplayFills(cfg, fills).Ok?
    ensures ReplayFills(cfg, fills + [f]) == Apply(cfg, ReplayFills(cfg, fills).value, f)
  {
    hide Apply;
    assert (fills + [f])[..|fills|] == fills;
  }

  /** One more fill seen by the replay loop. */
  lemma ReplayNext(cfg: Config, fills: seq<Fill>, k: nat, day: int)
    requires k < |fills| && ReplayFills(cfg, Upto(fills[..k], day)).Ok?
    ensures var book, f := ReplayFills(cfg, Upto(fills[..k], day)).value, fills[k];
      && (f.tradeDate > day ==> Upto(fills[..k + 1], day) == Upto(fills[..k], day))
      && (f.tradeDate <= day ==> ReplayFills(cfg, Upto(fills[..k + 1], day)) == Apply(cfg, book, f))
      && (f.tradeDate <= day && Apply(cfg, book, f).Err? ==>
            ReplayFills(cfg, Upto(fills, day)) == Apply(cfg, book, f))
  {
    hide Upto, Apply, ReplayFills;
    var f, before := fills[k], Upto(fills[..k], day);
    assert fills[..k + 1] == fills[..k] + [f];
    UptoSnoc(fills[..k], f, day);
    if f.tradeDate <= day {
      ReplaySnoc(cfg, before, f);
      UptoTake(fills, k + 1, day);
      var all, part := Upto(fills, day), before + [f];
      assert part == Upto(fills[..k + 1], day) && part <= all;
      assert all[..|part|] == part;
      if ReplayFills(cfg, part).Err? {
        ReplayErrorStays(cfg, all, |part|);
      }
    }
  }

  /** The lot at `j` is the next one of the pass, and updating it in place extends the part done. */
  lemma PassStep(lots: seq<Lot>, after: seq<Lot>, j: nat, day: int, quantity: int)
    requires j < |lots| == |after| && after[j..] == lots[j..]
    ensures after[j] == lots[j] && after[j + 1..] == lots[j + 1..]
    ensures SellLots(lots[..j + 1], day, quantity) == SellFrom(SellLots(lots[..j], day, quantity), lots[j], day)
    ensures after[..j + 1] == after[..j] + [after[j]]
    ensures forall x: Lot :: after[j := x][..j + 1] == after[..j] + [x] && after[j := x][j + 1..] == after[j + 1..]
  {
    hide SellLots, SellFrom;
    assert after[j] == after[j..][0] == lots[j..][0];
    assert after[j + 1..] == after[j..][1..] == lots[j..][1..];
    assert lots[..j + 1] == lots[..j] + [lots[j]];
    LotSums(lots[..j], lots[j], day, quantity);
  }

  function FirstError<T, U>(check: Result<T, LedgerError>, r: Result<U, LedgerError>): Result<U, LedgerError> {
    match check
    case Err(e) => Err(e)
    case Ok(_) => r
  }

  class AccountLedger {
    const cfg: Config
    var events: seq<Fill>
    var eventsById: map<string, Fill>
    var corrections: seq<Correction>
    var voidedEventIds: set<string>
    var records: seq<Record>

    function State(): Ledger
      reads this
    {
      Ledger(events, eventsById, corrections, voidedEventIds, records)
    }

    constructor (cfg: Config)
      ensures this.cfg == cfg && State() == EMPTY
    {
      this.cfg := cfg;
      events, eventsById, corrections, voidedEventIds, records := [], map[], [], {}, [];
    }

    /** One lot's turn: frozen lots, empty lots and a satisfied sell leave it alone. */
    method SellOne(lot: Lot, day: int, left: int, basis: int) returns (sold: Lot, stillLeft: int, newBasis: int)
      ensures forall pre :: SellFrom(Sale(pre, left, basis), lot, day) == Sale(pre + [sold], stillLeft, newBasis)
    {
      hide Allocation;
      sold, stillLeft, newBasis := lot, left, basis;
      if lot.availableFrom > day || left <= 0 { return; }
      var take := Min(lot.remaining, left);
      if take <= 0 { return; }
      var allocation := Allocation(lot, take);
      sold := lot.(remaining := lot.remaining - take, cost := lot.cost - allocation);
      newBasis := basis + allocation;
      stillLeft := left - take;
    }

    /** The pass of one sell over a symbol's lots, earliest first, updating them in place. */
    method SellFifo(lots: seq<Lot>, day: int, quantity: int) returns (after: seq<Lot>, left: int, basis: int)
      ensures Sale(after, left, basis) == SellLots(lots, day, quantity)
    {
      after, left, basis := lots, quantity, 0;
      var j := 0;
      assert SellLots(lots[..0], day, quantity) == Sale([], quantity, 0);
      hide SellLots, SellFrom;
      while j < |lots|
        invariant 0 <= j <= |lots| == |after|
        invariant after[j..] == lots[j..]
        invariant SellLots(lots[..j], day, quantity) == Sale(after[..j], left, basis)
      {
        PassStep(lots, after, j, day, quantity);
        ghost var done := after[..j];
        var sold;
        sold, left, basis := SellOne(after[j], day, left, basis);
        after := after[j := sold];
        assert after[..j + 1] == done + [sold];
        j := j + 1;
      }
      assert lots[..|lots|] == lots && after[..|lots|] == after;
    }

    /** One fill of the replay: a lot is opened, or lots are sold and the profit realised. */
    method ReplayOne(f: Fill, book: Book) returns (r: Result<Book, LedgerError>)
      ensures r == Apply(cfg, book, f)
    {
      hide SellLots, Notional, Outlay, Proceeds;
      if Notional(f) <= 0 { return Err(NotionalNotPositive); }
      var cash, pnl, lots, names := book.cash, book.pnl, book.lots, book.names;
      if f.side.Buy? {
        var totalCost := Outlay(cfg, f);
        if cash < totalCost { return Err(InsufficientCash); }
        cash := cash - totalCost;
        names := names[f.symbol := if f.name != "" then f.name else if f.symbol in names then names[f.symbol] else ""];
        lots := lots[f.symbol := LotsOf(book, f.symbol) +
                                 [Lot(f.quantity, f.quantity, totalCost, cfg.next(f.tradeDate))]];
      } else {
        var proceeds := Proceeds(cfg, f);
        var mine, left, basis := SellFifo(LotsOf(book, f.symbol), f.tradeDate, f.quantity);
        if left != 0 { return Err(InsufficientShares); }
        if f.symbol in lots { lots := lots[f.symbol := mine]; }
        cash := cash + proceeds;
        pnl := pnl + proceeds - basis;
      }
      r := Ok(Book(cash, pnl, lots, names));
    }

    method SnapshotOn(asOf: int) returns (r: Result<Snapshot, LedgerError>)
      ensures r == SnapshotAt(cfg, State(), asOf)
    {
      var fills := Effective(State());
      var book := Opening(cfg);
      assert fills[..0] == [];
      var i := 0;
      while i < |fills|
        invariant 0 <= i <= |fills|
        invariant ReplayFills(cfg, Upto(fills[..i], asOf)) == Ok(book)
      {
        hide Upto, ReplayFills, Effective, Apply;
        ReplayNext(cfg, fills, i, asOf);
        if fills[i].tradeDate <= asOf {
          var next := ReplayOne(fills[i], book);
          if next.Err? { return Err(next.error); }
          book := next.value;
        }
        i := i + 1;
      }
      assert fills[..|fills|] == fills;
      r := Ok(SnapshotOf(book, asOf));
    }

    method ReceiptOf(e: Fill, idempotent: bool) returns (r: Result<Receipt, LedgerError>)
      ensures r == ReceiptFor(cfg, State(), e, idempotent)
    {
      hide SnapshotAt;
      var snapshot := SnapshotOn(e.tradeDate);
      if snapshot.Err? { return Err(snapshot.error); }
      var v := snapshot.value;
      var position := if e.symbol in v.positions then v.positions[e.symbol]
                      else Position(e.symbol, e.name, 0, 0, 0, 0);
      r := Ok(Receipt(e, v.cash, position, v.pnl, idempotent));
    }

    /** `_append`: the event list is extended first and put back if the receipt fails. */
    method AppendEvent(e: Fill) returns (r: Result<Receipt, LedgerError>)
      modifies this
      ensures (State(), r) == Append(cfg, old(State()), e)
    {
      hide ReceiptFor;
      if e.id in eventsById {
        var existing := eventsById[e.id];
        if SameEvent(existing, e) {
          r := ReceiptOf(existing, true);
          return;
        }
        return Err(IdReused);
      }
      if BeforeLatest(State(), e) {
        return Err(DateBeforeLatest);
      }
      hide BeforeLatest;
      var originalEvents := events;
      events := events + [e];
      assert State() == old(State()).(events := old(State()).events + [e]);
      r := ReceiptOf(e, false);
      if r.Err? {
        events := originalEvents;
        return;
      }
      eventsById := eventsById[e.id := e];
      records := records + [FillRow(e)];
    }

    method Record(e: Fill) returns (r: Result<Receipt, LedgerError>)
      modifies this
      ensures (State(), r) == RecordFill(cfg, old(State()), e)
    {
      hide SnapshotAt, Append;
      if e.side.Buy? {
        var refused := CheckName(cfg, e);
        if refused.Some? { return Err(refused.value); }
        if cfg.lotSize > 0 && e.quantity % cfg.lotSize != 0 { return Err(NotWholeLots); }
      } else {
        var snapshot := SnapshotOn(e.tradeDate);
        if snapshot.Err? { return Err(snapshot.error); }
        if e.symbol !in snapshot.value.positions || snapshot.value.positions[e.symbol].available < e.quantity {
          return Err(InsufficientShares);
        }
      }
      r := AppendEvent(e);
    }

    /** All five fields are replaced, then put back if the account does not replay. */
    method Correct(c: Correction) returns (r: Result<Receipt, LedgerError>)
      modifies this
      ensures (State(), r) == AppendCorrection(cfg, old(State()), c)
    {
      var refused := CorrectionRefused(State(), c);
      if refused.Some? { return Err(refused.value); }
      hide SnapshotAt, CorrectionRefused, ReceiptFor;
      var oldEvents, oldIndex, oldCorrections, oldVoided, oldRecords :=
        events, eventsById, corrections, voidedEventIds, records;
      events := events + [c.replacement];
      eventsById := eventsById[c.replacement.id := c.replacement];
      corrections := corrections + [c];
      voidedEventIds := voidedEventIds + {c.originalId};
      records := records + [CorrectionRow(c)];
      assert State() == Corrected(old(State()), c);
      r := ReceiptOf(c.replacement, false);
      if r.Ok? {
        var check := SnapshotOn(DefaultDate(State(), 0));
        r := FirstError(check, r);
      }
      if r.Err? {
        events, eventsById, corrections, voidedEventIds, records :=
          oldEvents, oldIndex, oldCorrections, oldVoided, oldRecords;
      }
    }

    method ReplayRecord(r: Record, now: int) returns (result: Result<Receipt, LedgerError>)
      modifies this
      ensures (State(), result) == RebuildOne(cfg, old(State()), r, now)
    {
      hide Append, AppendCorrection;
      match r {
        case FillRow(e) => result := AppendEvent(e);
        case CorrectionRow(c) => result := Correct(c.(recordedAt := now));
      }
    }

    /** `from_records`: a new ledger fed the records in log order. */
    static method FromRecords(cfg: Config, recs: seq<Record>, clock: nat -> int)
      returns (ledger: AccountLedger, failed: Option<LedgerError>)
      ensures fresh(ledger) && ledger.cfg == cfg
      ensures Rebuild(cfg, recs, clock) ==
        if failed.Some? then Err(failed.value) else Ok(ledger.State())
    {
      ledger := new AccountLedger(cfg);
      failed := None;
      var i := 0;
      assert Rebuild(cfg, recs[..0], clock) == Ok(EMPTY);
      hide RebuildOne, Rebuild;
      while i < |recs|
        invariant 0 <= i <= |recs| && fresh(ledger) && ledger.cfg == cfg
        invariant Rebuild(cfg, recs[..i], clock) == Ok(ledger.State())
      {
        RebuildNext(cfg, recs, i, clock);
        var result := ledger.ReplayRecord(recs[i], clock(i));
        if result.Err? {
          failed := Some(result.error);
          return;
        }
        i := i + 1;
      }
      assert recs[..|recs|] == recs;
    }
  }

  lemma {:induction false} RebuildErrorStays(cfg: Config, recs: seq<Record>, k: nat, clock: nat -> int)
    requires k <= |recs| && Rebuild(cfg, recs[..k], clock).Err?
    ensures Rebuild(cfg, recs, clock) == Rebuild(cfg, recs[..k], clock)
  {
    hide RebuildOne;
    if k < |recs| {
      assert recs[..|recs| - 1][..k] == recs[..k];
      RebuildErrorStays(cfg, recs[..|recs| - 1], k, clock);
    } else {
      assert recs[..k] == recs;
    }
  }

  /** One more record fed to the rebuilt ledger. */
  lemma RebuildNext(cfg: Config, recs: seq<Record>, k: nat, clock: nat -> int)
    requires k < |recs| && Rebuild(cfg, recs[..k], clock).Ok?
    ensures var (after, result) := RebuildOne(cfg, Rebuild(cfg, recs[..k], clock).value, recs[k], clock(k));
      && (result.Ok? ==> Rebuild(cfg, recs[..k + 1], clock) == Ok(after))
      && (result.Err? ==> Rebuild(cfg, recs, clock) == Err(result.error))
  {
    hide RebuildOne;
    assert recs[..k + 1][..k] == recs[..k];
    if RebuildOne(cfg, Rebuild(cfg, recs[..k], clock).value, recs[k], clock(k)).1.Err? {
      RebuildErrorStays(cfg, recs, k + 1, clock);
    }
  }
}
