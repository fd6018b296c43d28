/** Confirming a preview: a dry run on a rebuilt copy, then each fill to the store and the ledger. */
module AccountService {
  import opened Wrappers
  import opened Basics
  import opened Contracts
  import opened LedgerModel
  import opened AccountLedgerClass
  import opened LedgerStore

  /** The fills recorded one after another; the first refusal ends it. */
  function RecordAll(cfg: Config, s: Ledger, events: seq<Fill>): Result<(Ledger, seq<Receipt>), LedgerError> {
    if events == [] then Ok((s, []))
    else
      var before := RecordAll(cfg, s, events[..|events| - 1]);
      if before.Err? then before
      else
        var (after, receipt) := RecordFill(cfg, before.value.0, events[|events| - 1]);
        if receipt.Err? then Err(receipt.error) else Ok((after, before.value.1 + [receipt.value]))
  }

  /** The records a batch adds: those of its fills that were not duplicates. */
  function Added(events: seq<Fill>, receipts: seq<Receipt>): seq<Record>
    requires |events| == |receipts|
  {
    if events == [] then []
    else
      Added(events[..|events| - 1], receipts[..|events| - 1]) +
      if receipts[|events| - 1].idempotent then [] else [FillRow(events[|events| - 1])]
  }

  lemma RecordAllNext(cfg: Config, s: Ledger, events: seq<Fill>, k: nat)
    requires k < |events| && RecordAll(cfg, s, events[..k]).Ok?
    ensures var step := RecordFill(cfg, RecordAll(cfg, s, events[..k]).value.0, events[k]);
      && (step.1.Ok? ==>
            && RecordAll(cfg, s, events[..k + 1]).Ok?
            && RecordAll(cfg, s, events[..k + 1]).value.0 == step.0
            && RecordAll(cfg, s, events[..k + 1]).value.1 == RecordAll(cfg, s, events[..k]).value.1 + [step.1.value])
      && (step.1.Err? ==> RecordAll(cfg, s, events) == Err(step.1.error))
  {
    hide RecordFill;
    assert events[..k + 1][..k] == events[..k];
    if RecordFill(cfg, RecordAll(cfg, s, events[..k]).value.0, events[k]).1.Err? {
      RecordAllErrorStays(cfg, s, events, k + 1);
    }
  }

  lemma {:induction false} RecordAllErrorStays(cfg: Config, s: Ledger, events: seq<Fill>, k: nat)
    requires k <= |events| && RecordAll(cfg, s, events[..k]).Err?
    ensures RecordAll(cfg, s, events) == RecordAll(cfg, s, events[..k])
  {
    hide RecordFill;
    if k < |events| {
      assert events[..|events| - 1][..k] == events[..k];
      RecordAllErrorStays(cfg, s, events[..|events| - 1], k);
    } else {
      assert events[..k] == events;
    }
  }

  lemma {:induction false} RecordAllPrefix(cfg: Config, s: Ledger, events: seq<Fill>, k: nat)
    requires k <= |events| && RecordAll(cfg, s, events).Ok?
    ensures RecordAll(cfg, s, events[..k]).Ok?
    ensures |RecordAll(cfg, s, events).value.1| == |events|
    ensures RecordAll(cfg, s, events[..k]).value.1 == RecordAll(cfg, s, events).value.1[..k]
  {
    hide RecordFill;
    if k < |events| {
      assert events[..|events| - 1][..k] == events[..k];
      RecordAllPrefix(cfg, s, events[..|events| - 1], k);
    } else {
      assert events[..k] == events;
      if events != [] { RecordAllPrefix(cfg, s, events[..|events| - 1], |events| - 1); }
    }
  }

  /** The batch takes a copy with the same essence through the same receipts. */
  lemma {:induction false} SameBatch(cfg: Config, a: Ledger, b: Ledger, events: seq<Fill>)
    requires Essence(a) == Essence(b)
    ensures RecordAll(cfg, a, events).Ok? <==> RecordAll(cfg, b, events).Ok?
    ensures RecordAll(cfg, a, events).Err? ==> RecordAll(cfg, a, events) == RecordAll(cfg, b, events)
    ensures RecordAll(cfg, a, events).Ok? ==>
      RecordAll(cfg, a, events).value.1 == RecordAll(cfg, b, events).value.1 &&
      Essence(RecordAll(cfg, a, events).value.0) == Essence(RecordAll(cfg, b, events).value.0)
  {
    hide RecordFill, Essence;
    if events != [] {
      SameBatch(cfg, a, b, events[..|events| - 1]);
      if RecordAll(cfg, a, events[..|events| - 1]).Ok? {
        SameVerdicts(cfg, RecordAll(cfg, a, events[..|events| - 1]).value.0,
                     RecordAll(cfg, b, events[..|events| - 1]).value.0, Fills(events[|events| - 1]), 0);
      }
    }
  }

  // ------------------------------------------------------------ store and ledger in step

  /** Every stored fill is in the ledger's index. */
  ghost predicate RecordsIndexed(s: Ledger) {
    forall r :: r in s.records && r.FillRow? ==> r.fill.id in s.byId && s.byId[r.fill.id] == r.fill
  }

  lemma StepRecordsIndexed(cfg: Config, s: Ledger, call: Call)
    requires RecordsIndexed(s)
    ensures RecordsIndexed(Step(cfg, s, call).0)
  {
    hide SnapshotAt, ReceiptFor, CheckName;
  }

  lemma {:induction false} RunRecordsIndexed(cfg: Config, calls: seq<Call>)
    ensures RecordsIndexed(Run(cfg, calls))
  {
    if calls != [] {
      RunRecordsIndexed(cfg, calls[..|calls| - 1]);
      StepRecordsIndexed(cfg, Run(cfg, calls[..|calls| - 1]), calls[|calls| - 1]);
    }
  }

  /** The store's rows are the ledger's records, up to when corrections were recorded. */
  ghost predicate InStep(rows: seq<Row>, s: Ledger) {
    EraseRecords(Records(rows)) == EraseRecords(s.records)
  }

  lemma {:induction false} EraseAt(rs: seq<Record>, i: nat)
    requires i < |rs|
    ensures EraseRecords(rs)[i] == EraseRecord(rs[i])
  {
    if i < |rs| - 1 { EraseAt(rs[..|rs| - 1], i); }
  }

  /** A fill the ledger does not know has no row in the store. */
  lemma NewFillIsNewInStore(rows: seq<Row>, s: Ledger, e: Fill)
    requires InStep(rows, s) && RecordsIndexed(s) && e.id !in s.byId
    ensures Find(rows, FillRow(e), |rows|).None?
  {
    assert |EraseRecords(Records(rows))| == |EraseRecords(s.records)|;
    forall i | 0 <= i < |rows| ensures IdentityOf(rows[i].record) != FillIdentity(e.id) {
      EraseAt(Records(rows), i);
      EraseAt(s.records, i);
      assert EraseRecord(rows[i].record) == EraseRecord(s.records[i]);
      assert s.records[i] in s.records;
    }
  }

  /** Writing a new fill to the store and then to the ledger keeps them in step; a crash between
      the two writes leaves a store that reloads to the state the ledger was about to reach. */
  lemma CommitOne(cfg: Config, digest: Digest, rows: seq<Row>, s: Ledger, e: Fill, clock: nat -> int)
    requires Chained(digest, rows) && DistinctIdentities(rows) && InStep(rows, s)
    requires RecordsIndexed(s) && Reloads(cfg, s) && Accepted(cfg, s, e)
    ensures var grown, after := rows + [NextRow(digest, rows, FillRow(e))], RecordFill(cfg, s, e).0;
      && Chained(digest, grown) && DistinctIdentities(grown) && InStep(grown, after)
      && RecordsIndexed(after) && Reloads(cfg, after)
      && Rebuild(cfg, Records(grown), clock).Ok?
      && Essence(Rebuild(cfg, Records(grown), clock).value) == Essence(after)
  {
    var grown, after := rows + [NextRow(digest, rows, FillRow(e))], RecordFill(cfg, s, e).0;
    NewFillIsNewInStore(rows, s, e);
    AppendKeepsIdentities(digest, rows, FillRow(e));
    StepReloads(cfg, s, Fills(e));
    StepRecordsIndexed(cfg, s, Fills(e));
    assert after.records == s.records + [FillRow(e)];
    hide Rebuild, RecordFill, Essence, Chained, DistinctIdentities, RecordsIndexed;
    EraseSnoc(Records(rows), FillRow(e));
    EraseSnoc(s.records, FillRow(e));
    SameRebuild(cfg, Records(grown), after.records, clock, clock);
    assert Rebuild(cfg, after.records, clock).Ok?;
  }

  lemma EraseSnoc(rs: seq<Record>, r: Record)
    ensures EraseRecords(rs + [r]) == EraseRecords(rs) + [EraseRecord(r)]
  {
    assert (rs + [r])[..|rs|] == rs;
  }

  // ------------------------------------------------------------- repeated confirmation

  ghost predicate AllRepeat(cfg: Config, s: Ledger, events: seq<Fill>) {
    forall i :: 0 <= i < |events| ==> Repeats(cfg, s, events[i])
  }

  lemma AllRepeatSnoc(cfg: Config, s: Ledger, init: seq<Fill>, last: Fill)
    ensures AllRepeat(cfg, s, init + [last]) <==> AllRepeat(cfg, s, init) && Repeats(cfg, s, last)
  {
    hide Repeats;
    var all := init + [last];
    assert all[|init|] == last;
    forall i | 0 <= i < |init| ensures Repeats(cfg, s, all[i]) <==> Repeats(cfg, s, init[i]) {}
  }

  lemma RecordAllSnoc(cfg: Config, s: Ledger, init: seq<Fill>, last: Fill)
    ensures RecordAll(cfg, s, init + [last]).Ok? <==>
      RecordAll(cfg, s, init).Ok? && RecordFill(cfg, RecordAll(cfg, s, init).value.0, last).1.Ok?
    ensures RecordAll(cfg, s, init + [last]).Ok? ==>
      RecordAll(cfg, s, init + [last]).value.0 == RecordFill(cfg, RecordAll(cfg, s, init).value.0, last).0
  {
    hide RecordFill;
    assert (init + [last])[..|init|] == init;
  }

  /** A batch whose ids are all recorded, whatever its recording times, changes nothing when it is
      confirmed, and succeeds exactly when each of its fills repeats the recorded one. */
  lemma {:induction false} RepeatedConfirmationIff(cfg: Config, s: Ledger, events: seq<Fill>)
    requires forall i :: 0 <= i < |events| ==> events[i].id in s.byId
    ensures RecordAll(cfg, s, events).Ok? <==> AllRepeat(cfg, s, events)
    ensures RecordAll(cfg, s, events).Ok? ==> RecordAll(cfg, s, events).value.0 == s
  {
    hide Repeats, RecordFill, RecordAll;
    if events == [] {
      RecordAllNone(cfg, s);
    } else {
      hide AllRepeat;
      var init, last := events[..|events| - 1], events[|events| - 1];
      assert events == init + [last];
      RepeatedConfirmationIff(cfg, s, init);
      ResubmissionIff(cfg, s, last);
      AllRepeatSnoc(cfg, s, init, last);
      RecordAllSnoc(cfg, s, init, last);
    }
  }

  // ------------------------------------------------------------- resuming after a crash

  /** The second list holds the same fills, read again: everything agrees but the recording times. */
  ghost predicate Reread(first: seq<Fill>, again: seq<Fill>) {
    |first| == |again| && forall i :: 0 <= i < |first| ==> first[i].id == again[i].id && SameEvent(first[i], again[i])
  }

  ghost predicate AllKnown(s: Ledger, events: seq<Fill>) {
    forall i :: 0 <= i < |events| ==> events[i].id in s.byId && SameEvent(s.byId[events[i].id], events[i])
  }

  lemma RecordedIsKnown(cfg: Config, s: Ledger, e: Fill)
    requires RecordFill(cfg, s, e).1.Ok?
    ensures var after := RecordFill(cfg, s, e).0;
      && (forall id :: id in s.byId ==> id in after.byId && after.byId[id] == s.byId[id])
      && e.id in after.byId && SameEvent(after.byId[e.id], e)
  {
    hide SnapshotAt, ReceiptFor, CheckName;
  }

  lemma KnownStays(cfg: Config, s: Ledger, init: seq<Fill>, last: Fill)
    requires AllKnown(s, init) && RecordFill(cfg, s, last).1.Ok?
    ensures AllKnown(RecordFill(cfg, s, last).0, init + [last])
  {
    hide RecordFill, SameEvent;
    RecordedIsKnown(cfg, s, last);
  }

  lemma NothingIsKnown(s: Ledger)
    ensures AllKnown(s, [])
  {
  }

  /** Every fill of an accepted batch is known afterwards. */
  lemma {:induction false} BatchIsKnown(cfg: Config, s: Ledger, events: seq<Fill>)
    requires RecordAll(cfg, s, events).Ok?
    ensures AllKnown(RecordAll(cfg, s, events).value.0, events)
  {
    hide *;
    if events == [] {
      NothingIsKnown(RecordAll(cfg, s, events).value.0);
    } else {
      var init, last := events[..|events| - 1], events[|events| - 1];
      assert events == init + [last];
      RecordAllSnoc(cfg, s, init, last);
      BatchIsKnown(cfg, s, init);
      KnownStays(cfg, RecordAll(cfg, s, init).value.0, init, last);
    }
  }

  lemma RecordAllNone(cfg: Config, s: Ledger)
    ensures RecordAll(cfg, s, []) == Ok((s, []))
  {
  }

  /** Recording two lists one after the other. */
  lemma {:induction false} RecordAllConcat(cfg: Config, s: Ledger, a: seq<Fill>, b: seq<Fill>)
    requires RecordAll(cfg, s, a).Ok?
    ensures RecordAll(cfg, s, a + b).Ok? <==> RecordAll(cfg, RecordAll(cfg, s, a).value.0, b).Ok?
    ensures RecordAll(cfg, s, a + b).Ok? ==>
      RecordAll(cfg, s, a + b).value.0 == RecordAll(cfg, RecordAll(cfg, s, a).value.0, b).value.0
  {
    hide *;
    var part := RecordAll(cfg, s, a).value.0;
    if b == [] {
      assert a + b == a;
      RecordAllNone(cfg, part);
    } else {
      var init, last := b[..|b| - 1], b[|b| - 1];
      assert a + b == (a + init) + [last] && b == init + [last];
      RecordAllConcat(cfg, s, a, init);
      RecordAllSnoc(cfg, s, a + init, last);
      RecordAllSnoc(cfg, part, init, last);
    }
  }

  lemma RecordAllRefused(cfg: Config, s: Ledger, a: seq<Fill>, b: seq<Fill>)
    requires RecordAll(cfg, s, a).Err?
    ensures RecordAll(cfg, s, a + b).Err?
  {
    hide RecordAll;
    assert (a + b)[..|a|] == a;
    RecordAllErrorStays(cfg, s, a + b, |a|);
  }

  /** A confirmation cut off after its fills `a`, and resumed on the reloaded ledger with the whole file
      read again: it goes through exactly when each fill of `a` repeats the recorded one and the rest is
      accepted after `a`, and it ends where one uninterrupted confirmation of `a` and that rest ends. */
  lemma ResumeIff(cfg: Config, s: Ledger, a: seq<Fill>, reloaded: Ledger, again: seq<Fill>, rest: seq<Fill>)
    requires RecordAll(cfg, s, a).Ok? && Essence(reloaded) == Essence(RecordAll(cfg, s, a).value.0) && Reread(a, again)
    ensures RecordAll(cfg, reloaded, again + rest).Ok? <==>
      AllRepeat(cfg, RecordAll(cfg, s, a).value.0, again) && RecordAll(cfg, s, a + rest).Ok?
    ensures RecordAll(cfg, reloaded, again + rest).Ok? ==>
      Essence(RecordAll(cfg, reloaded, again + rest).value.0) == Essence(RecordAll(cfg, s, a + rest).value.0)
  {
    var part := RecordAll(cfg, s, a).value.0;
    BatchIsKnown(cfg, s, a);
    hide RecordAll, AllRepeat, Essence;
    SameBatch(cfg, part, reloaded, again + rest);
    RepeatedConfirmationIff(cfg, part, again);
    RecordAllConcat(cfg, s, a, rest);
    if RecordAll(cfg, part, again).Ok? {
      RecordAllConcat(cfg, part, again, rest);
    } else {
      RecordAllRefused(cfg, part, again, rest);
    }
  }

  /** All a recorded fill needs to be a duplicate, apart from the shares a sell asks for once more. */
  ghost predicate Passable(cfg: Config, s: Ledger, e: Fill) {
    SnapshotAt(cfg, s, e.tradeDate).Ok? &&
    (e.side.Buy? ==> CheckName(cfg, e).None? && (cfg.lotSize > 0 ==> e.quantity % cfg.lotSize == 0))
  }

  ghost predicate AllPassable(cfg: Config, s: Ledger, events: seq<Fill>) {
    forall i :: 0 <= i < |events| ==> Passable(cfg, s, events[i])
  }

  lemma RecordedIsPassable(cfg: Config, s: Ledger, e: Fill)
    requires RecordFill(cfg, s, e).1.Ok?
    ensures Passable(cfg, RecordFill(cfg, s, e).0, e)
  {
    if Accepted(cfg, s, e) { AcceptedFillIsReplayable(cfg, s, e, e.tradeDate); }
    hide SnapshotAt, CheckName;
  }

  lemma PassableStays(cfg: Config, s: Ledger, init: seq<Fill>, last: Fill)
    requires AllPassable(cfg, s, init) && RecordFill(cfg, s, last).1.Ok?
    ensures AllPassable(cfg, RecordFill(cfg, s, last).0, init + [last])
  {
    var after, all := RecordFill(cfg, s, last).0, init + [last];
    hide RecordFill, SnapshotAt, CheckName;
    forall i | 0 <= i < |all| ensures Passable(cfg, after, all[i]) {
      if i < |init| {
        assert all[i] == init[i] && Passable(cfg, s, init[i]);
        FillKeepsReplayable(cfg, s, last, init[i].tradeDate);
      } else {
        RecordedIsPassable(cfg, s, last);
      }
    }
  }

  lemma NothingIsPassable(cfg: Config, s: Ledger)
    ensures AllPassable(cfg, s, [])
  {
  }

  lemma {:induction false} BatchIsPassable(cfg: Config, s: Ledger, events: seq<Fill>)
    requires RecordAll(cfg, s, events).Ok?
    ensures AllPassable(cfg, RecordAll(cfg, s, events).value.0, events)
  {
    hide *;
    if events == [] {
      NothingIsPassable(cfg, RecordAll(cfg, s, events).value.0);
    } else {
      var init, last := events[..|events| - 1], events[|events| - 1];
      assert events == init + [last];
      RecordAllSnoc(cfg, s, init, last);
      BatchIsPassable(cfg, s, init);
      PassableStays(cfg, RecordAll(cfg, s, init).value.0, init, last);
    }
  }

  /** Every sell still finds its quantity available, although it has been carried out already. */
  ghost predicate SellsCovered(cfg: Config, s: Ledger, events: seq<Fill>) {
    forall i :: 0 <= i < |events| && events[i].side.Sell? ==>
      var snapshot := SnapshotAt(cfg, s, events[i].tradeDate);
      && snapshot.Ok? && events[i].symbol in snapshot.value.positions
      && snapshot.value.positions[events[i].symbol].available >= events[i].quantity
  }

  /** Which recorded batches can be confirmed again: those whose sells find their shares a second time. */
  lemma RepeatableIffSellsCovered(cfg: Config, s: Ledger, a: seq<Fill>, again: seq<Fill>)
    requires RecordAll(cfg, s, a).Ok? && Reread(a, again)
    ensures var part := RecordAll(cfg, s, a).value.0; AllRepeat(cfg, part, again) <==> SellsCovered(cfg, part, again)
  {
    BatchIsKnown(cfg, s, a);
    BatchIsPassable(cfg, s, a);
    var part := RecordAll(cfg, s, a).value.0;
    hide RecordAll, SnapshotAt, CheckName;
    forall i | 0 <= i < |again|
      ensures again[i].id in part.byId && SameEvent(part.byId[again[i].id], again[i]) && Passable(cfg, part, again[i])
    {
      assert a[i].id == again[i].id && SameEvent(a[i], again[i]) && Passable(cfg, part, a[i]);
      SameCheck(cfg, a[i], again[i]);
    }
  }

  lemma SameCheck(cfg: Config, a: Fill, b: Fill)
    requires SameEvent(a, b)
    ensures CheckName(cfg, a) == CheckName(cfg, b)
  {
  }

  /** The same within one process, whose preview still holds the fills as first read: a second attempt at an
      accepted batch cut off after `a` completes it exactly when the sells already recorded find their
      shares a second time. */
  lemma RetriedConfirmationIff(cfg: Config, s: Ledger, a: seq<Fill>, b: seq<Fill>)
    requires RecordAll(cfg, s, a).Ok? && RecordAll(cfg, s, a + b).Ok?
    ensures var part := RecordAll(cfg, s, a).value.0;
      && (RecordAll(cfg, part, a + b).Ok? <==> SellsCovered(cfg, part, a))
      && (RecordAll(cfg, part, a + b).Ok? ==>
            Essence(RecordAll(cfg, part, a + b).value.0) == Essence(RecordAll(cfg, s, a + b).value.0))
  {
    assert Reread(a, a);
    hide *;
    ResumeIff(cfg, s, a, RecordAll(cfg, s, a).value.0, a, b);
    RepeatableIffSellsCovered(cfg, s, a, a);
  }

  // ------------------------------------------------------------------ start and restart

  lemma EmptyIsValid(cfg: Config, digest: Digest)
    ensures Reloads(cfg, EMPTY) && RecordsIndexed(EMPTY) && InStep([], EMPTY)
    ensures Sound(digest, [], []) && DistinctIdentities([])
  {
    ReplayEquivalence(cfg, []);
    assert Records([]) == [];
  }

  lemma SameRecordsIndexed(a: Ledger, b: Ledger)
    requires Essence(a) == Essence(b) && RecordsIndexed(a)
    ensures RecordsIndexed(b)
  {
    assert |EraseRecords(a.records)| == |EraseRecords(b.records)|;
    forall r | r in b.records && r.FillRow? ensures r.fill.id in b.byId && b.byId[r.fill.id] == r.fill {
      var i :| 0 <= i < |b.records| && b.records[i] == r;
      EraseAt(a.records, i);
      EraseAt(b.records, i);
      assert a.records[i] == r && r in a.records;
    }
  }

  lemma SameReloads(cfg: Config, a: Ledger, b: Ledger)
    requires Essence(a) == Essence(b) && Reloads(cfg, a)
    ensures Reloads(cfg, b)
  {
    hide Rebuild;
    forall clock: nat -> int
      ensures Rebuild(cfg, b.records, clock).Ok? && Essence(Rebuild(cfg, b.records, clock).value) == Essence(b)
    {
      SameRebuild(cfg, a.records, b.records, clock, clock);
      assert Rebuild(cfg, a.records, clock).Ok?;
    }
  }

  /** A store in step with a reloading ledger rebuilds to one that cannot be told from it, in step again. */
  lemma ReloadedIsValid(cfg: Config, s: Ledger, rows: seq<Row>, clock: nat -> int)
    requires Reloads(cfg, s) && RecordsIndexed(s) && InStep(rows, s)
    ensures Rebuild(cfg, Records(rows), clock).Ok?
    ensures var reloaded := Rebuild(cfg, Records(rows), clock).value;
      Essence(reloaded) == Essence(s) && Reloads(cfg, reloaded) && RecordsIndexed(reloaded) && InStep(rows, reloaded)
  {
    hide Rebuild, RecordsIndexed;
    SameRebuild(cfg, s.records, Records(rows), clock, clock);
    assert Rebuild(cfg, s.records, clock).Ok?;
    var reloaded := Rebuild(cfg, Records(rows), clock).value;
    SameReloads(cfg, s, reloaded);
    SameRecordsIndexed(s, reloaded);
  }

  // ------------------------------------------------------------------ the service

  class AccountEntryService {
    const ledger: AccountLedger
    const store: JsonlLedgerStore

    /** On a new ledger and an empty store the service is valid from the start. */
    constructor (ledger: AccountLedger, store: JsonlLedgerStore)
      ensures this.ledger == ledger && this.store == store
      ensures ledger.State() == EMPTY && store.file == [] ==> Valid([])
    {
      this.ledger := ledger;
      this.store := store;
      new;
      hide Reloads, RecordsIndexed;
      EmptyIsValid(ledger.cfg, store.digest);
    }

    /** The ledger reloads from its records, and the store holds the same ones. */
    ghost predicate Valid(rows: seq<Row>)
      reads this, ledger, store
    {
      && Reloads(ledger.cfg, ledger.State()) && RecordsIndexed(ledger.State())
      && Sound(store.digest, store.file, rows) && DistinctIdentities(rows)
      && InStep(rows, ledger.State())
    }

    /** After a restart: the records are loaded and the ledger is rebuilt from them. Whatever ledger `s` the
        store was in step with, the new service is valid and its ledger cannot be told from `s`. */
    static method Reopen(cfg: Config, store: JsonlLedgerStore, clock: nat -> int, ghost s: Ledger, ghost rows: seq<Row>)
      returns (service: AccountEntryService)
      requires Sound(store.digest, store.file, rows) && DistinctIdentities(rows)
      requires Reloads(cfg, s) && RecordsIndexed(s) && InStep(rows, s)
      ensures fresh(service) && service.store == store && store.file == old(store.file) && service.ledger.cfg == cfg
      ensures service.Valid(rows) && Essence(service.ledger.State()) == Essence(s)
    {
      hide Reloads, RecordsIndexed, Chained, DistinctIdentities, InStep, Essence, Rebuild;
      ReloadedIsValid(cfg, s, rows, clock);
      var loaded := store.LoadRecords();
      if loaded.Err? { assert false; }
      var records := if loaded.Ok? then loaded.value else [];
      var ledger, refused := AccountLedger.FromRecords(cfg, records, clock);
      if refused.Some? { assert false; }
      service := new AccountEntryService(ledger, store);
    }

    /** The fills recorded on a rebuilt copy of the ledger. */
    method DryRun(events: seq<Fill>, clock: nat -> int) returns (r: Result<seq<Receipt>, LedgerError>)
      requires Reloads(ledger.cfg, ledger.State())
      ensures ledger.State() == old(ledger.State()) && store.file == old(store.file)
      ensures match RecordAll(ledger.cfg, ledger.State(), events)
        case Ok(outcome) => r == Ok(outcome.1)
        case Err(error) => r == Err(error)
    {
      hide RecordFill, Rebuild, Essence, RecordAll;
      var prospective, failed := AccountLedger.FromRecords(ledger.cfg, ledger.records, clock);
      assert ledger.State().records == ledger.records;
      assert failed.None? && Essence(prospective.State()) == Essence(ledger.State());
      ghost var start := prospective.State();
      SameBatch(ledger.cfg, start, ledger.State(), events);
      var receipts: seq<Receipt> := [];
      RecordAllEmpty(ledger.cfg, start, events);
      var i := 0;
      while i < |events|
        invariant 0 <= i <= |events| && fresh(prospective) && prospective.cfg == ledger.cfg
        invariant ledger.State() == old(ledger.State()) && store.file == old(store.file)
        invariant RecordAll(ledger.cfg, start, events[..i]) == Ok((prospective.State(), receipts))
      {
        RecordAllNext(ledger.cfg, start, events, i);
        var receipt := prospective.Record(events[i]);
        if receipt.Err? { return Err(receipt.error); }
        receipts := receipts + [receipt.value];
        i := i + 1;
      }
      assert events[..i] == events;
      r := Ok(receipts);
    }

    /** The commit of one fill the dry run has accepted: the store write, the ledger write and the
        comparison of the two receipts all go through. */
    method CommitEvent(event: Fill, expected: Receipt, ghost rows: seq<Row>)
      returns (receipt: Receipt, ghost after: seq<Row>)
      requires Valid(rows) && RecordFill(ledger.cfg, ledger.State(), event).1 == Ok(expected)
      modifies ledger, store
      ensures Valid(after) && receipt == expected
      ensures ledger.State() == RecordFill(ledger.cfg, old(ledger.State()), event).0
      ensures Records(after) == Records(rows) + if expected.idempotent then [] else [FillRow(event)]
    {
      hide RecordFill, Reloads, RecordsIndexed, Chained, DistinctIdentities, InStep;
      after := rows;
      ghost var before := ledger.State();
      DuplicateOrNew(ledger.cfg, before, event);
      if !expected.idempotent {
        NewFillIsNewInStore(rows, before, event);
        CommitOne(ledger.cfg, store.digest, rows, before, event, k => 0);
        AppendKeepsIdentities(store.digest, rows, FillRow(event));
        var stored := store.Append(FillRow(event));
        after := rows + [NextRow(store.digest, rows, FillRow(event))];
        if stored.Err? { assert false; }
      }
      var recorded := ledger.Record(event);
      if recorded.Err? || recorded.value.idempotent != expected.idempotent { assert false; }
      receipt := expected;
      if recorded.Ok? { receipt := recorded.value; }
    }

    /** The commit phase: fill after fill, with the receipts the dry run predicted. */
    method CommitAll(events: seq<Fill>, expected: seq<Receipt>, ghost rows: seq<Row>)
      returns (receipts: seq<Receipt>, ghost after: seq<Row>)
      requires Valid(rows)
      requires RecordAll(ledger.cfg, ledger.State(), events).Ok?
      requires RecordAll(ledger.cfg, ledger.State(), events).value.1 == expected
      modifies ledger, store
      ensures Valid(after) && receipts == expected && |expected| == |events|
      ensures ledger.State() == RecordAll(ledger.cfg, old(ledger.State()), events).value.0
      ensures Records(after) == Grown(rows, events, expected)
    {
      ghost var start := ledger.State();
      receipts, after := [], rows;
      hide *;
      RecordAllEmpty(ledger.cfg, start, events);
      RecordAllPrefix(ledger.cfg, start, events, |events|);
      GrownNone(rows, events, expected);
      var i := 0;
      while i < |events|
        invariant 0 <= i <= |events| && Valid(after)
        invariant RecordAll(ledger.cfg, start, events[..i]).Ok?
        invariant RecordAll(ledger.cfg, start, events[..i]).value.0 == ledger.State()
        invariant receipts == expected[..i]
        invariant Records(after) == Grown(rows, events[..i], expected[..i])
      {
        BatchNext(ledger.cfg, start, events, expected, i);
        GrownNext(rows, events, expected, i);
        var receipt;
        receipt, after := CommitEvent(events[i], expected[i], after);
        TakeSnoc(expected, i);
        receipts := receipts + [receipt];
        i := i + 1;
      }
      TakeAll(events);
      TakeAll(expected);
    }

    /** If the dry run is refused nothing changes. Otherwise every commit goes through: no store or
        idempotency error can occur, and ledger and store end in step, each grown by exactly the
        fills that were new. */
    method ConfirmValidatedPreview(events: seq<Fill>, clock: nat -> int, ghost rows: seq<Row>)
      returns (r: Result<seq<Receipt>, LedgerError>, ghost after: seq<Row>)
      requires Valid(rows)
      modifies ledger, store
      ensures Valid(after)
      ensures RecordAll(ledger.cfg, old(ledger.State()), events).Err? ==>
        && r == Err(RecordAll(ledger.cfg, old(ledger.State()), events).error)
        && ledger.State() == old(ledger.State()) && store.file == old(store.file)
      ensures RecordAll(ledger.cfg, old(ledger.State()), events).Ok? ==>
        var outcome := RecordAll(ledger.cfg, old(ledger.State()), events).value;
        && |outcome.1| == |events|
        && r == Ok(outcome.1) && ledger.State() == outcome.0
        && Records(after) == Grown(rows, events, outcome.1)
    {
      after := rows;
      var prospective := DryRun(events, clock);
      hide RecordFill, RecordAll, Records, Added;
      if prospective.Err? { return Err(prospective.error), after; }
      var receipts;
      receipts, after := CommitAll(events, prospective.value, rows);
      r := Ok(receipts);
    }
  }

  /** A batch that goes through as a whole goes through fill by fill, with the same receipts. */
  lemma BatchNext(cfg: Config, s: Ledger, events: seq<Fill>, receipts: seq<Receipt>, k: nat)
    requires k < |events| && RecordAll(cfg, s, events).Ok? && RecordAll(cfg, s, events).value.1 == receipts
    ensures |receipts| == |events| && RecordAll(cfg, s, events[..k]).Ok?
    ensures var step := RecordFill(cfg, RecordAll(cfg, s, events[..k]).value.0, events[k]);
      && step.1 == Ok(receipts[k])
      && RecordAll(cfg, s, events[..k + 1]).Ok?
      && RecordAll(cfg, s, events[..k + 1]).value.0 == step.0
      && RecordAll(cfg, s, events[..k + 1]).value.1 == receipts[..k + 1]
  {
    hide RecordAll, RecordFill;
    RecordAllPrefix(cfg, s, events, k);
    RecordAllPrefix(cfg, s, events, k + 1);
    RecordAllNext(cfg, s, events, k);
  }

  lemma TakeAll<T>(s: seq<T>)
    ensures s[..|s|] == s
  {
  }

  lemma RecordAllEmpty(cfg: Config, s: Ledger, events: seq<Fill>)
    ensures RecordAll(cfg, s, events[..0]) == Ok((s, []))
  {
  }

  /** The stored records after a batch. */
  function Grown(rows: seq<Row>, events: seq<Fill>, receipts: seq<Receipt>): seq<Record>
    requires |events| == |receipts|
  {
    Records(rows) + Added(events, receipts)
  }

  lemma GrownNone(rows: seq<Row>, events: seq<Fill>, receipts: seq<Receipt>)
    requires |events| == |receipts|
    ensures Grown(rows, events[..0], receipts[..0]) == Records(rows)
  {
  }

  lemma GrownNext(rows: seq<Row>, events: seq<Fill>, receipts: seq<Receipt>, k: nat)
    requires k < |events| == |receipts|
    ensures Grown(rows, events[..k + 1], receipts[..k + 1]) ==
      Grown(rows, events[..k], receipts[..k]) + if receipts[k].idempotent then [] else [FillRow(events[k])]
  {
    assert events[..k + 1][..k] == events[..k] && receipts[..k + 1][..k] == receipts[..k];
  }

  /** An accepted call is a duplicate exactly when the id is known; then the ledger is unchanged. */
  lemma DuplicateOrNew(cfg: Config, s: Ledger, e: Fill)
    ensures RecordFill(cfg, s, e).1.Ok? ==>
      (RecordFill(cfg, s, e).1.value.idempotent <==> e.id in s.byId) &&
      (RecordFill(cfg, s, e).1.value.idempotent ==> RecordFill(cfg, s, e).0 == s)
  {
    hide SnapshotAt, CheckName;
  }
}
