/** Confirming a file that was read again after a restart: every fill carries a new recording time. The
    replay never looks at ids and times except to order the fills of a day. */
module Reimport {
  import opened Contracts
  import opened Ordering
  import opened Replay
  import opened LedgerModel
  import opened LedgerFindings
  import opened AccountService

  // -------------------------------------------------------------- replaying reread fills

  lemma NotionalReread(x: Fill, y: Fill)
    requires SameEvent(x, y)
    ensures Notional(x) == Notional(y)
  {
    hide Worth;
  }

  lemma FeesReread(rates: FeeSchedule, x: Fill, y: Fill)
    requires SameEvent(x, y)
    ensures Fees(rates, x) == Fees(rates, y)
  {
    hide Notional, FeeTotal;
    NotionalReread(x, y);
  }

  lemma ApplyReread(cfg: Config, book: Book, x: Fill, y: Fill)
    requires SameEvent(x, y)
    ensures Apply(cfg, book, x) == Apply(cfg, book, y)
  {
    hide Notional, Fees, SellLots;
    NotionalReread(x, y);
    FeesReread(cfg.fees, x, y);
    assert Outlay(cfg, x) == Outlay(cfg, y) && Proceeds(cfg, x) == Proceeds(cfg, y);
    hide Outlay, Proceeds;
  }

  lemma RereadSnoc(a: seq<Fill>, b: seq<Fill>, x: Fill, y: Fill)
    ensures Reread(a + [x], b + [y]) <==> Reread(a, b) && x.id == y.id && SameEvent(x, y) && |a| == |b|
  {
    hide SameEvent;
    var p, q := a + [x], b + [y];
    if Reread(p, q) {
      assert p[|a|] == x && q[|b|] == y;
      forall i | 0 <= i < |a| ensures a[i].id == b[i].id && SameEvent(a[i], b[i]) {
        assert p[i] == a[i] && q[i] == b[i];
      }
    }
  }

  lemma {:induction false} ReplayReread(cfg: Config, a: seq<Fill>, b: seq<Fill>)
    requires Reread(a, b)
    ensures ReplayFills(cfg, a) == ReplayFills(cfg, b)
  {
    if a != [] {
      hide Apply, SameEvent;
      var k := |a| - 1;
      ReplayReread(cfg, a[..k], b[..k]);
      var before := ReplayFills(cfg, a[..k]);
      if before.Ok? { ApplyReread(cfg, before.value, a[k], b[k]); }
    }
  }

  lemma {:induction false} UptoReread(a: seq<Fill>, b: seq<Fill>, day: int)
    requires Reread(a, b)
    ensures Reread(Upto(a, day), Upto(b, day))
  {
    if a != [] {
      var k := |a| - 1;
      UptoReread(a[..k], b[..k], day);
      RereadSnoc(Upto(a[..k], day), Upto(b[..k], day), a[k], b[k]);
      hide Reread;
    }
  }

  /** Ledgers whose effective fills are rereadings of each other answer every date alike. */
  lemma SnapshotReread(cfg: Config, s: Ledger, t: Ledger, day: int)
    requires Reread(Effective(s), Effective(t))
    ensures SnapshotAt(cfg, s, day) == SnapshotAt(cfg, t, day)
  {
    hide Effective, Upto, ReplayFills, SnapshotOf, Reread;
    UptoReread(Effective(s), Effective(t), day);
    ReplayReread(cfg, Upto(Effective(s), day), Upto(Effective(t), day));
  }

  // ------------------------------------------------------------------- twin ledgers

  /** Nothing of the fill's date sorts behind it. */
  ghost predicate SortsLast(events: seq<Fill>, e: Fill) {
    forall i :: 0 <= i < |events| && events[i].tradeDate == e.tradeDate ==> KeyLe(events[i], e)
  }

  lemma EffectiveLast(s: Ledger, e: Fill)
    requires !BeforeLatest(s, e) && SortsLast(s.events, e)
    ensures Effective(s.(events := s.events + [e])) == if e.id in s.voided then Effective(s) else Effective(s) + [e]
  {
    hide Sort, Kept;
    KeptAppend(s.events, e, s.voided);
    if e.id !in s.voided {
      var sorted := Sort(Kept(s.events, s.voided));
      SortSnoc(Kept(s.events, s.voided), e);
      EffectiveMembers(s);
      if sorted != [] {
        var last := sorted[|sorted| - 1];
        assert last in sorted && last in s.events;
        var i :| 0 <= i < |s.events| && s.events[i] == last;
        assert s.events[i].tradeDate <= e.tradeDate;
      }
    }
  }

  /** The same ledger but for the recording times of some fills. */
  ghost predicate Twins(s: Ledger, t: Ledger) {
    && Reread(s.events, t.events) && Reread(Effective(s), Effective(t)) && s.voided == t.voided
    && s.byId.Keys == t.byId.Keys
    && forall id :: id in s.byId ==> SameEvent(s.byId[id], t.byId[id])
  }

  lemma TwinOfItself(s: Ledger)
    ensures Twins(s, s)
  {
    hide Effective;
  }

  lemma BeforeLatestReread(s: Ledger, t: Ledger, e: Fill, f: Fill)
    requires Reread(s.events, t.events) && SameEvent(e, f)
    ensures BeforeLatest(s, e) <==> BeforeLatest(t, f)
  {
    forall i | 0 <= i < |s.events| ensures s.events[i].tradeDate == t.events[i].tradeDate {
      assert SameEvent(s.events[i], t.events[i]);
    }
  }

  lemma PrecheckTwin(cfg: Config, s: Ledger, t: Ledger, e: Fill, f: Fill)
    requires Twins(s, t) && SameEvent(e, f)
    ensures Precheck(cfg, s, e) == Precheck(cfg, t, f)
  {
    hide SnapshotAt, CheckName, Effective, Reread;
    SnapshotReread(cfg, s, t, e.tradeDate);
    SameCheck(cfg, e, f);
  }

  lemma ReceiptIsSnapshot(cfg: Config, s: Ledger, e: Fill, idempotent: bool)
    ensures ReceiptFor(cfg, s, e, idempotent).Ok? <==> SnapshotAt(cfg, s, e.tradeDate).Ok?
  {
    hide SnapshotAt;
  }

  /** A known id gets the same answer from both. */
  lemma KnownTwin(cfg: Config, s: Ledger, t: Ledger, e: Fill, f: Fill)
    requires Twins(s, t) && e.id == f.id && SameEvent(e, f) && e.id in s.byId
    ensures f.id in t.byId && Append(cfg, s, e).0 == s && Append(cfg, t, f).0 == t
    ensures Append(cfg, s, e).1.Ok? <==> Append(cfg, t, f).1.Ok?
  {
    var known := s.byId[e.id];
    SnapshotReread(cfg, s, t, known.tradeDate);
    ReceiptIsSnapshot(cfg, s, known, true);
    ReceiptIsSnapshot(cfg, t, t.byId[f.id], true);
    assert SameEvent(known, t.byId[f.id]);
    hide SnapshotAt, ReceiptFor, Reread, Effective;
  }

  /** So does a new fill that sorts behind everything of its date, on both. */
  lemma NewTwin(cfg: Config, s: Ledger, t: Ledger, e: Fill, f: Fill)
    requires Twins(s, t) && e.id == f.id && SameEvent(e, f) && e.id !in s.byId
    requires SortsLast(s.events, e) && SortsLast(t.events, f)
    ensures f.id !in t.byId && (Append(cfg, s, e).1.Ok? <==> Append(cfg, t, f).1.Ok?)
    ensures Append(cfg, s, e).1.Ok? ==> Twins(Append(cfg, s, e).0, Append(cfg, t, f).0)
  {
    hide SnapshotAt, ReceiptFor, BeforeLatest, SortsLast, SameEvent, Effective, Reread;
    BeforeLatestReread(s, t, e, f);
    if !BeforeLatest(s, e) {
      var u, v := s.(events := s.events + [e]), t.(events := t.events + [f]);
      GrownTwins(s, t, e, f);
      SnapshotReread(cfg, u, v, e.tradeDate);
      SameDate(e, f);
      ReceiptIsSnapshot(cfg, u, e, false);
      ReceiptIsSnapshot(cfg, v, f, false);
      if Append(cfg, s, e).1.Ok? { AppendTwins(cfg, s, t, e, f); }
    }
  }

  lemma SameDate(e: Fill, f: Fill)
    requires SameEvent(e, f)
    ensures e.tradeDate == f.tradeDate
  {
  }

  lemma AppendTwins(cfg: Config, s: Ledger, t: Ledger, e: Fill, f: Fill)
    requires Twins(s, t) && e.id == f.id && SameEvent(e, f) && e.id !in s.byId && f.id !in t.byId
    requires Append(cfg, s, e).1.Ok? && Append(cfg, t, f).1.Ok?
    requires var u, v := s.(events := s.events + [e]), t.(events := t.events + [f]);
      Reread(u.events, v.events) && Reread(Effective(u), Effective(v))
    ensures Twins(Append(cfg, s, e).0, Append(cfg, t, f).0)
  {
    hide SnapshotAt, ReceiptFor, BeforeLatest, SameEvent, Effective, Reread;
    var x, y := Append(cfg, s, e).0, Append(cfg, t, f).0;
    assert x.byId == s.byId[e.id := e] && y.byId == t.byId[f.id := f] && x.voided == s.voided && y.voided == t.voided;
    assert x.events == s.events + [e] && y.events == t.events + [f];
    SameEffective(s.(events := s.events + [e]), x);
    SameEffective(t.(events := t.events + [f]), y);
  }

  lemma SameEffective(s: Ledger, t: Ledger)
    requires s.events == t.events && s.voided == t.voided
    ensures Effective(s) == Effective(t)
  {
  }

  lemma GrownTwins(s: Ledger, t: Ledger, e: Fill, f: Fill)
    requires Twins(s, t) && e.id == f.id && SameEvent(e, f) && !BeforeLatest(s, e) && !BeforeLatest(t, f)
    requires SortsLast(s.events, e) && SortsLast(t.events, f)
    ensures var u, v := s.(events := s.events + [e]), t.(events := t.events + [f]);
      Reread(u.events, v.events) && Reread(Effective(u), Effective(v))
  {
    EffectiveLast(s, e);
    EffectiveLast(t, f);
    hide Effective, SameEvent, SortsLast, BeforeLatest;
    RereadSnoc(s.events, t.events, e, f);
    RereadSnoc(Effective(s), Effective(t), e, f);
    hide Reread;
  }

  /** One fill and its rereading get the same verdict, and the ledgers stay twins. */
  lemma StepTwins(cfg: Config, s: Ledger, t: Ledger, e: Fill, f: Fill)
    requires Twins(s, t) && e.id == f.id && SameEvent(e, f) && SortsLast(s.events, e) && SortsLast(t.events, f)
    ensures RecordFill(cfg, s, e).1.Ok? <==> RecordFill(cfg, t, f).1.Ok?
    ensures RecordFill(cfg, s, e).1.Ok? ==> Twins(RecordFill(cfg, s, e).0, RecordFill(cfg, t, f).0)
  {
    hide Precheck, Append, Twins, SortsLast, SameEvent;
    PrecheckTwin(cfg, s, t, e, f);
    if e.id in s.byId { KnownTwin(cfg, s, t, e, f); } else { NewTwin(cfg, s, t, e, f); }
  }

  // --------------------------------------------------------------------- whole batches

  /** Each fill sorts behind everything of its date: what the ledger holds and the fills before it. */
  ghost predicate StampedLast(s: Ledger, batch: seq<Fill>) {
    forall j :: 0 <= j < |batch| ==> SortsLast(s.events, batch[j]) && SortsLast(batch[..j], batch[j])
  }

  ghost predicate From(events: seq<Fill>, first: seq<Fill>, batch: seq<Fill>) {
    forall i :: 0 <= i < |events| ==> events[i] in first || events[i] in batch
  }

  lemma StepFrom(cfg: Config, s: Ledger, first: seq<Fill>, batch: seq<Fill>, e: Fill)
    requires From(s.events, first, batch)
    ensures From(RecordFill(cfg, s, e).0.events, first, batch + [e])
  {
    hide Precheck, ReceiptFor, SameEvent, BeforeLatest;
    var after := RecordFill(cfg, s, e).0;
    assert after.events == s.events || after.events == s.events + [e];
  }

  lemma NoneAdded(events: seq<Fill>)
    ensures From(events, events, [])
  {
  }

  /** A batch only adds its own fills. */
  lemma {:induction false} BatchFrom(cfg: Config, s: Ledger, batch: seq<Fill>)
    requires RecordAll(cfg, s, batch).Ok?
    ensures From(RecordAll(cfg, s, batch).value.0.events, s.events, batch)
  {
    hide *;
    if batch == [] {
      RecordAllNone(cfg, s);
      NoneAdded(s.events);
    } else {
      var init, last := batch[..|batch| - 1], batch[|batch| - 1];
      assert batch == init + [last];
      RecordAllSnoc(cfg, s, init, last);
      BatchFrom(cfg, s, init);
      StepFrom(cfg, RecordAll(cfg, s, init).value.0, s.events, init, last);
    }
  }

  lemma LastInBatch(events: seq<Fill>, first: seq<Fill>, init: seq<Fill>, e: Fill)
    requires From(events, first, init) && SortsLast(first, e) && SortsLast(init, e)
    ensures SortsLast(events, e)
  {
    forall i | 0 <= i < |events| && events[i].tradeDate == e.tradeDate ensures KeyLe(events[i], e) {
      if events[i] in first {
        var k :| 0 <= k < |first| && first[k] == events[i];
        assert KeyLe(first[k], e);
      } else {
        var k :| 0 <= k < |init| && init[k] == events[i];
        assert KeyLe(init[k], e);
      }
    }
  }

  lemma StampedInit(s: Ledger, batch: seq<Fill>)
    requires StampedLast(s, batch) && batch != []
    ensures StampedLast(s, batch[..|batch| - 1])
    ensures SortsLast(s.events, batch[|batch| - 1]) && SortsLast(batch[..|batch| - 1], batch[|batch| - 1])
  {
    hide SortsLast;
    var init := batch[..|batch| - 1];
    forall j | 0 <= j < |init| ensures SortsLast(s.events, init[j]) && SortsLast(init[..j], init[j]) {
      assert init[..j] == batch[..j] && init[j] == batch[j];
    }
  }

  lemma RereadInit(a: seq<Fill>, b: seq<Fill>)
    requires Reread(a, b) && a != []
    ensures b != [] && Reread(a[..|a| - 1], b[..|b| - 1])
    ensures a[|a| - 1].id == b[|b| - 1].id && SameEvent(a[|a| - 1], b[|b| - 1])
  {
  }

  /** A batch and its rereading, both stamped last, get the same verdict from the same ledger, and leave twins. */
  lemma {:induction false} BatchTwins(cfg: Config, s: Ledger, b: seq<Fill>, rest: seq<Fill>)
    requires Reread(b, rest) && StampedLast(s, b) && StampedLast(s, rest)
    ensures RecordAll(cfg, s, b).Ok? <==> RecordAll(cfg, s, rest).Ok?
    ensures RecordAll(cfg, s, b).Ok? ==> Twins(RecordAll(cfg, s, b).value.0, RecordAll(cfg, s, rest).value.0)
  {
    if b == [] {
      assert rest == [];
      RecordAllNone(cfg, s);
      TwinOfItself(s);
    } else {
      RereadInit(b, rest);
      StampedInit(s, b);
      StampedInit(s, rest);
      var k := |b| - 1;
      var init, again, e, f := b[..k], rest[..k], b[k], rest[k];
      assert b == init + [e] && rest == again + [f];
      hide *;
      RecordAllSnoc(cfg, s, init, e);
      RecordAllSnoc(cfg, s, again, f);
      BatchTwins(cfg, s, init, again);
      if RecordAll(cfg, s, init).Ok? {
        var u, v := RecordAll(cfg, s, init).value.0, RecordAll(cfg, s, again).value.0;
        BatchFrom(cfg, s, init);
        BatchFrom(cfg, s, again);
        LastInBatch(u.events, s.events, init, e);
        LastInBatch(v.events, s.events, again, f);
        StepTwins(cfg, u, v, e, f);
      }
    }
  }

  /** A confirmation of an accepted batch `a + b`, cut off after `a` and resumed after a restart with the whole
      file read again. If both times the fills of `b` were stamped behind everything of their date, it
      completes the batch exactly when the sells already recorded find their shares a second time, and
      then every date is answered as if it had never been cut off. */
  lemma InterruptedConfirmationIff(
    cfg: Config, s: Ledger, a: seq<Fill>, b: seq<Fill>, reloaded: Ledger, again: seq<Fill>, rest: seq<Fill>, day: int)
    requires RecordAll(cfg, s, a).Ok? && RecordAll(cfg, s, a + b).Ok?
    requires Essence(reloaded) == Essence(RecordAll(cfg, s, a).value.0) && Reread(a, again) && Reread(b, rest)
    requires StampedLast(RecordAll(cfg, s, a).value.0, b) && StampedLast(RecordAll(cfg, s, a).value.0, rest)
    ensures RecordAll(cfg, reloaded, again + rest).Ok? <==> SellsCovered(cfg, RecordAll(cfg, s, a).value.0, again)
    ensures RecordAll(cfg, reloaded, again + rest).Ok? ==>
      SnapshotAt(cfg, RecordAll(cfg, reloaded, again + rest).value.0, day) ==
      SnapshotAt(cfg, RecordAll(cfg, s, a + b).value.0, day)
  {
    hide *;
    var part := RecordAll(cfg, s, a).value.0;
    ResumeIff(cfg, s, a, reloaded, again, rest);
    RepeatableIffSellsCovered(cfg, s, a, again);
    RecordAllConcat(cfg, s, a, b);
    RecordAllConcat(cfg, s, a, rest);
    BatchTwins(cfg, part, b, rest);
    if RecordAll(cfg, reloaded, again + rest).Ok? {
      var resumed, straight := RecordAll(cfg, reloaded, again + rest).value.0, RecordAll(cfg, s, a + rest).value.0;
      SameEssenceSnapshot(cfg, resumed, straight, day);
      TwinSnapshot(cfg, RecordAll(cfg, s, a + b).value.0, straight, day);
    }
  }

  lemma SameEssenceSnapshot(cfg: Config, s: Ledger, t: Ledger, day: int)
    requires Essence(s) == Essence(t)
    ensures SnapshotAt(cfg, s, day) == SnapshotAt(cfg, t, day)
  {
    SameEffective(s, t);
    hide Effective, Upto, ReplayFills, SnapshotOf;
  }

  lemma TwinSnapshot(cfg: Config, s: Ledger, t: Ledger, day: int)
    requires Twins(s, t)
    ensures SnapshotAt(cfg, s, day) == SnapshotAt(cfg, t, day)
  {
    SnapshotReread(cfg, s, t, day);
  }

  // --------------------------------------------------------- stamps that do not come last

  /** A buy on the day of the sell that pays for it. */
  ghost predicate BuyBack(cfg: Config, buy: Fill, sell: Fill, e: Fill) {
    && Pair(cfg, buy, sell) && sell.quantity <= buy.quantity
    && e.side.Buy? && e.tradeDate == sell.tradeDate && e.id != buy.id && e.id != sell.id
    && e.name != "" && e.quantity % 100 == 0 && Notional(e) > 0
    && cfg.initialCash - Outlay(cfg, buy) < Outlay(cfg, e) <= cfg.initialCash - Outlay(cfg, buy) + Proceeds(cfg, sell)
  }

  function Grown(buy: Fill, sell: Fill, e: Fill): Ledger {
    TwoFillLedger(buy, sell).(events := [buy, sell] + [e])
  }

  lemma Lists<T>(a: T, b: T, c: T)
    ensures [] + [a] == [a] && [a] + [b] == [a, b] && [a, b] + [c] == [a, b, c]
  {
  }

  lemma EarlierFirst(a: Fill, b: Fill)
    requires a.tradeDate < b.tradeDate
    ensures KeyLe(a, b)
  {
  }

  lemma ThreeSorted(buy: Fill, sell: Fill, e: Fill)
    requires buy.tradeDate < sell.tradeDate == e.tradeDate
    ensures Sort([buy, sell, e]) == if KeyLe(sell, e) then [buy, sell, e] else [buy, e, sell]
  {
    hide *;
    EarlierFirst(buy, sell);
    EarlierFirst(buy, e);
    Lists(buy, sell, e);
    Lists(buy, e, sell);
    SortPair(buy, sell);
    SortPair(buy, e);
    SortSnoc([buy, sell], e);
    SortSnoc([buy], e);
    InsertSnoc([buy], sell, e);
  }

  lemma GrownKept(buy: Fill, sell: Fill, e: Fill)
    ensures Effective(Grown(buy, sell, e)) == Sort([buy, sell, e])
  {
    hide Kept, Sort;
    KeptTwo(buy, sell);
    KeptAppend([buy, sell], e, {});
    assert [buy, sell] + [e] == [buy, sell, e];
  }

  lemma GrownOrder(buy: Fill, sell: Fill, e: Fill)
    requires buy.tradeDate < sell.tradeDate == e.tradeDate
    ensures Upto(Effective(Grown(buy, sell, e)), e.tradeDate) ==
            if KeyLe(sell, e) then [buy, sell, e] else [buy, e, sell]
  {
    hide Effective, Upto, Sort, KeyLe;
    ThreeSorted(buy, sell, e);
    GrownKept(buy, sell, e);
    UptoAll(Effective(Grown(buy, sell, e)), e.tradeDate);
  }

  lemma BuyBackCash(cfg: Config, buy: Fill, sell: Fill)
    requires Pair(cfg, buy, sell)
    ensures CashOf(cfg, [buy]) == cfg.initialCash - Outlay(cfg, buy)
    ensures CashOf(cfg, [buy, sell]) == cfg.initialCash - Outlay(cfg, buy) + Proceeds(cfg, sell)
  {
    hide Notional, Outlay, Proceeds, CashOf;
    Lists(buy, sell, sell);
    FillSums(cfg, [], buy, buy.symbol, 0);
    FillSums(cfg, [buy], sell, buy.symbol, 0);
    NoCashMoved(cfg);
  }

  lemma PaidBySell(cfg: Config, buy: Fill, sell: Fill, e: Fill)
    requires BuyBack(cfg, buy, sell, e)
    ensures ReplayFills(cfg, [buy, sell, e]).Ok? && ReplayFills(cfg, [buy, e, sell]).Err?
  {
    hide Notional, Outlay, Proceeds, ReplayFills, CashOf, Feasible, Sold, Settled;
    PairCash(cfg, buy, sell);
    BuyBackCash(cfg, buy, sell);
    Lists(buy, sell, e);
    Lists(buy, e, sell);
    ReplayIffFeasible(cfg, [buy, sell]);
    ReplayIffFeasible(cfg, [buy, sell, e]);
    ReplayIffFeasible(cfg, [buy, e, sell]);
    FeasibleSplit(cfg, [buy, sell], e);
    FeasibleSplit(cfg, [buy, e], sell);
    FeasibleSplit(cfg, [buy], e);
  }

  lemma GrownAnswers(cfg: Config, buy: Fill, sell: Fill, e: Fill)
    requires BuyBack(cfg, buy, sell, e)
    ensures SnapshotAt(cfg, Grown(buy, sell, e), e.tradeDate).Ok? <==> KeyLe(sell, e)
  {
    hide Notional, Outlay, Proceeds, Effective, Upto, ReplayFills, SnapshotOf, KeyLe, Grown;
    GrownOrder(buy, sell, e);
    PaidBySell(cfg, buy, sell, e);
  }

  lemma BuyBackIsNew(cfg: Config, buy: Fill, sell: Fill, e: Fill)
    requires BuyBack(cfg, buy, sell, e)
    ensures var s := TwoFillLedger(buy, sell);
      && Precheck(cfg, s, e).None? && e.id !in s.byId && !BeforeLatest(s, e)
      && s.(events := s.events + [e]) == Grown(buy, sell, e)
  {
    hide Notional, Outlay, Proceeds, SnapshotAt;
  }

  /** The third fill is accepted exactly if it sorts behind the sell. */
  lemma BuyBackIff(cfg: Config, buy: Fill, sell: Fill, e: Fill)
    requires BuyBack(cfg, buy, sell, e)
    ensures RecordFill(cfg, TwoFillLedger(buy, sell), e).1.Ok? <==> KeyLe(sell, e)
  {
    hide BuyBack, ReceiptFor, SnapshotAt, KeyLe, Grown, TwoFillLedger, Precheck, BeforeLatest;
    BuyBackIsNew(cfg, buy, sell, e);
    GrownAnswers(cfg, buy, sell, e);
    ReceiptIsSnapshot(cfg, Grown(buy, sell, e), e, false);
  }

  /** One yuan. A lot bought for it, sold on day 3 and bought back the same day. The confirmation is cut off before
      the sell; read again, both fills of day 3 carry the same time, the buy sorts first by its id, and the
      batch that was accepted is refused. */
  lemma EqualStampsCanRefuse()
    ensures var cfg := Demo(100, 0);
      var s := Run(cfg, [Fills(Trade("a", Buy, 100, 100, 1))]);
      var sell, back := Trade("s", Sell, 100, 100, 3), Trade("b", Buy, 100, 100, 3);
      && Reread([sell, back.(recordedAt := 4)], [sell, back])
      && RecordAll(cfg, s, [sell, back.(recordedAt := 4)]).Ok? && RecordAll(cfg, s, [sell, back]).Err?
  {
    var cfg := Demo(100, 0);
    var buy, sell, back := Trade("a", Buy, 100, 100, 1), Trade("s", Sell, 100, 100, 3), Trade("b", Buy, 100, 100, 3);
    var first: Fill := back.(recordedAt := 4);
    SameDayOrder(sell, first, back);
    DemoBuyBack(buy, sell, back);
    DemoBuyBack(buy, sell, first);
    hide *;
    PairConfirmed(cfg, buy, sell, first);
    PairConfirmed(cfg, buy, sell, back);
    RereadPair(sell, first, back);
  }

  lemma SameDayOrder(sell: Fill, first: Fill, back: Fill)
    requires sell.tradeDate == first.tradeDate == back.tradeDate &&
        sell.recordedAt == back.recordedAt < first.recordedAt
    requires sell.id == "s" && back.id == "b"
    ensures KeyLe(sell, first) && !KeyLe(sell, back)
  {
    assert "b"[0] == 'b' && "s"[0] == 's';
  }

  lemma DemoBuyBack(buy: Fill, sell: Fill, e: Fill)
    requires buy == Trade("a", Buy, 100, 100, 1) && sell == Trade("s", Sell, 100, 100, 3)
    requires exists at :: e == Trade("b", Buy, 100, 100, 3).(recordedAt := at)
    ensures BuyBack(Demo(100, 0), buy, sell, e)
  {
    assert "a"[0] == 'a' && "b"[0] == 'b' && "s"[0] == 's';
    DemoPair(100, 0, buy, sell);
    DemoAmounts(100, 0, buy);
    DemoAmounts(100, 0, sell);
    DemoAmounts(100, 0, e);
    hide Notional, Fees, Pair;
  }

  lemma RereadPair(sell: Fill, first: Fill, back: Fill)
    requires first.id == back.id && SameEvent(first, back)
    ensures Reread([sell, first], [sell, back])
  {
  }

  lemma TwoAreMore(buy: Fill, sell: Fill)
    ensures OneFill(buy) != TwoFillLedger(buy, sell)
  {
    assert |OneFill(buy).events| != |TwoFillLedger(buy, sell).events|;
  }

  lemma PairConfirmed(cfg: Config, buy: Fill, sell: Fill, e: Fill)
    requires BuyBack(cfg, buy, sell, e)
    ensures RecordAll(cfg, Run(cfg, [Fills(buy)]), [sell, e]).Ok? <==> KeyLe(sell, e)
  {
    hide Notional, Outlay, Proceeds, RecordFill, RecordAll, Run, Pair, TwoFillLedger, KeyLe;
    assert [] + [Fills(buy)] == [Fills(buy)] && [] + [sell] == [sell] && [sell] + [e] == [sell, e];
    RunSnoc(cfg, [], Fills(buy));
    BuyAccepted(cfg, buy, sell);
    SellAccepted(cfg, buy, sell);
    RaisingChangesNothing(cfg, OneFill(buy), Fills(sell));
    TwoAreMore(buy, sell);
    RecordAllNone(cfg, OneFill(buy));
    RecordAllSnoc(cfg, OneFill(buy), [], sell);
    RecordAllSnoc(cfg, OneFill(buy), [sell], e);
    BuyBackIff(cfg, buy, sell, e);
  }
}
