/** The ledger's state and its operations as functions; `AccountLedger` is proved against them. */
module LedgerModel {
  import opened Rounding
  import opened Wrappers
  import opened Contracts
  import opened Ordering
  import opened Replay

  datatype Position = Position(
    symbol: string, name: string, total: int, available: int, frozen: int, averageCost: int)

  datatype Snapshot = Snapshot(asOf: int, cash: int, pnl: int, positions: map<string, Position>)

  datatype Receipt = Receipt(event: Fill, cashAfter: int, position: Position, pnl: int, idempotent: bool)

  datatype Ledger = Ledger(
    events: seq<Fill>, byId: map<string, Fill>, corrections: seq<Correction>,
    voided: set<string>, records: seq<Record>)

  const EMPTY := Ledger([], map[], [], {}, [])

  /** The fills not voided by a correction, in recording order. */
  function Kept(events: seq<Fill>, voided: set<string>): seq<Fill> {
    if events == [] then []
    else
      var r := Kept(events[..|events| - 1], voided);
      if events[|events| - 1].id in voided then r else r + [events[|events| - 1]]
  }

  lemma {:induction false} KeptMembers(events: seq<Fill>, voided: set<string>, x: Fill)
    ensures x in Kept(events, voided) <==> x in events && x.id !in voided
  {
    if events != [] {
      assert events == events[..|events| - 1] + [events[|events| - 1]];
      KeptMembers(events[..|events| - 1], voided, x);
    }
  }

  function Effective(s: Ledger): seq<Fill> {
    Sort(Kept(s.events, s.voided))
  }

  /** Cents per share, as an amount of 1/10000 yuan. */
  function AverageCost(total: int, cost: int): int {
    if total == 0 then 0 else HalfEven(cost as real * 100.0 / total as real)
  }

  function PositionOf(book: Book, symbol: string, asOf: int): Position {
    var lots := LotsOf(book, symbol);
    var total := Held(lots);
    var available := AvailableOn(lots, asOf);
    Position(symbol, if symbol in book.names then book.names[symbol] else "",
             total, available, total - available,
             AverageCost(total, CostOf(lots)))
  }

  function SnapshotOf(book: Book, asOf: int): Snapshot {
    Snapshot(asOf, book.cash, book.pnl, map s | s in book.lots :: PositionOf(book, s, asOf))
  }

  function SnapshotAt(cfg: Config, s: Ledger, asOf: int): Result<Snapshot, LedgerError> {
    var book := ReplayFills(cfg, Upto(Effective(s), asOf));
    if book.Err? then Err(book.error) else Ok(SnapshotOf(book.value, asOf))
  }

  /** `snapshot()` without a date looks at the date of the event recorded last. */
  function DefaultDate(s: Ledger, today: int): int {
    if s.events == [] then today else s.events[|s.events| - 1].tradeDate
  }

  function ReceiptFor(cfg: Config, s: Ledger, e: Fill, idempotent: bool): Result<Receipt, LedgerError> {
    var snapshot := SnapshotAt(cfg, s, e.tradeDate);
    if snapshot.Err? then Err(snapshot.error)
    else
      var v := snapshot.value;
      var position := if e.symbol in v.positions then v.positions[e.symbol]
                      else Position(e.symbol, e.name, 0, 0, 0, 0);
      Ok(Receipt(e, v.cash, position, v.pnl, idempotent))
  }

  predicate SameEvent(a: Fill, b: Fill) {
    a.side == b.side && a.symbol == b.symbol && a.quantity == b.quantity && a.price == b.price &&
    a.tradeDate == b.tradeDate && a.name == b.name && a.source == b.source
  }

  predicate BeforeLatest(s: Ledger, e: Fill) {
    exists i :: 0 <= i < |s.events| && e.tradeDate < s.events[i].tradeDate
  }

  function Append(cfg: Config, s: Ledger, e: Fill): (Ledger, Result<Receipt, LedgerError>) {
    if e.id in s.byId then
      if SameEvent(s.byId[e.id], e) then (s, ReceiptFor(cfg, s, s.byId[e.id], true))
      else (s, Err(IdReused))
    else if BeforeLatest(s, e) then (s, Err(DateBeforeLatest))
    else
      var receipt := ReceiptFor(cfg, s.(events := s.events + [e]), e, false);
      if receipt.Err? then (s, receipt)
      else (s.(events := s.events + [e], byId := s.byId[e.id := e], records := s.records + [FillRow(e)]), receipt)
  }

  function CheckName(cfg: Config, e: Fill): Option<LedgerError> {
    if e.name == "" then Some(NameRequired)
    else if e.symbol in cfg.known && cfg.known[e.symbol] != e.name then Some(NameMismatch)
    else None
  }

  /** The checks `record_fill` makes before appending. */
  function Precheck(cfg: Config, s: Ledger, e: Fill): Option<LedgerError> {
    if e.side.Buy? then
      var name := CheckName(cfg, e);
      if name.Some? then name
      else if cfg.lotSize > 0 && e.quantity % cfg.lotSize != 0 then Some(NotWholeLots)
      else None
    else
      var snapshot := SnapshotAt(cfg, s, e.tradeDate);
      if snapshot.Err? then Some(snapshot.error)
      else if e.symbol in snapshot.value.positions &&
              snapshot.value.positions[e.symbol].available >= e.quantity then None
      else Some(InsufficientShares)
  }

  function RecordFill(cfg: Config, s: Ledger, e: Fill): (Ledger, Result<Receipt, LedgerError>) {
    var refused := Precheck(cfg, s, e);
    if refused.Some? then (s, Err(refused.value)) else Append(cfg, s, e)
  }

  function Corrected(s: Ledger, c: Correction): Ledger {
    Ledger(s.events + [c.replacement], s.byId[c.replacement.id := c.replacement],
           s.corrections + [c], s.voided + {c.originalId}, s.records + [CorrectionRow(c)])
  }

  function CorrectionRefused(s: Ledger, c: Correction): Option<LedgerError> {
    if c.originalId !in s.byId then Some(OriginalMissing)
    else if c.originalId in s.voided then Some(OriginalCorrected)
    else if c.replacement.id in s.byId then Some(ReplacementIdReused)
    else
      var original := s.byId[c.originalId];
      if c.replacement.side != original.side || c.replacement.symbol != original.symbol then Some(SideOrSymbolChanged)
      else if c.replacement.tradeDate != original.tradeDate then Some(DateChanged)
      else if c.id == "" then Some(CorrectionIdRequired)
      else None
  }

  function AppendCorrection(cfg: Config, s: Ledger, c: Correction): (Ledger, Result<Receipt, LedgerError>) {
    var refused := CorrectionRefused(s, c);
    if refused.Some? then (s, Err(refused.value))
    else
      var after := Corrected(s, c);
      var receipt := ReceiptFor(cfg, after, c.replacement, false);
      var check := SnapshotAt(cfg, after, DefaultDate(after, 0));
      if receipt.Err? then (s, receipt)
      else if check.Err? then (s, Err(check.error))
      else (after, receipt)
  }

  // ----------------------------------------------------------------- runs

  datatype Call = Fills(e: Fill) | Corrects(c: Correction)

  function Step(cfg: Config, s: Ledger, call: Call): (Ledger, Result<Receipt, LedgerError>) {
    match call
    case Fills(e) => RecordFill(cfg, s, e)
    case Corrects(c) => AppendCorrection(cfg, s, c)
  }

  function Run(cfg: Config, calls: seq<Call>): Ledger {
    if calls == [] then EMPTY
    else Step(cfg, Run(cfg, calls[..|calls| - 1]), calls[|calls| - 1]).0
  }

  /** The index agrees with the event list, and only recorded ids are voided. */
  ghost predicate Indexed(s: Ledger) {
    && (forall e :: e in s.events ==> e.id in s.byId && s.byId[e.id] == e)
    && (forall id :: id in s.byId ==> s.byId[id] in s.events && s.byId[id].id == id)
    && (forall id :: id in s.voided ==> id in s.byId)
  }

  lemma ExtendIndexed(s: Ledger, after: Ledger, e: Fill)
    requires Indexed(s) && e.id !in s.byId
    requires after.events == s.events + [e] && after.byId == s.byId[e.id := e]
    requires forall id :: id in after.voided ==> id in s.byId
    ensures Indexed(after)
  {
    forall x | x in after.events ensures x.id in after.byId && after.byId[x.id] == x {
      if x != e { assert x in s.events; }
    }
    forall id | id in after.byId ensures after.byId[id] in after.events && after.byId[id].id == id {
      if id != e.id { assert s.byId[id] in s.events; }
    }
  }

  lemma AppendIndexed(cfg: Config, s: Ledger, e: Fill)
    requires Indexed(s)
    ensures Indexed(Append(cfg, s, e).0)
  {
    assert forall id :: id in s.voided ==> id in s.byId;
    hide ReceiptFor, Indexed, BeforeLatest, SameEvent;
    if Append(cfg, s, e).0 != s { ExtendIndexed(s, Append(cfg, s, e).0, e); }
  }

  lemma CorrectionIndexed(cfg: Config, s: Ledger, c: Correction)
    requires Indexed(s)
    ensures Indexed(AppendCorrection(cfg, s, c).0)
  {
    assert forall id :: id in s.voided ==> id in s.byId;
    hide ReceiptFor, SnapshotAt, Indexed;
    if AppendCorrection(cfg, s, c).0 != s { ExtendIndexed(s, Corrected(s, c), c.replacement); }
  }

  lemma StepIndexed(cfg: Config, s: Ledger, call: Call)
    requires Indexed(s)
    ensures Indexed(Step(cfg, s, call).0)
  {
    hide Indexed, Append, AppendCorrection, Precheck;
    match call {
      case Fills(e) => AppendIndexed(cfg, s, e);
      case Corrects(c) => CorrectionIndexed(cfg, s, c);
    }
  }

  lemma {:induction false} RunIndexed(cfg: Config, calls: seq<Call>)
    ensures Indexed(Run(cfg, calls))
  {
    if calls != [] {
      RunIndexed(cfg, calls[..|calls| - 1]);
      StepIndexed(cfg, Run(cfg, calls[..|calls| - 1]), calls[|calls| - 1]);
    }
  }

  /** A call that raises leaves the whole ledger as it was, and so does an idempotent one. */
  lemma RaisingChangesNothing(cfg: Config, s: Ledger, call: Call)
    ensures var (after, result) := Step(cfg, s, call);
      && (result.Err? ==> after == s)
      && (result.Ok? ==> (result.value.idempotent <==> after == s))
  {
    hide SnapshotAt, CheckName;
    var (after, result) := Step(cfg, s, call);
    if after != s { assert |after.records| == |s.records| + 1; }
  }

  // ------------------------------------------------------ replayable at every date

  lemma KeptAppend(events: seq<Fill>, e: Fill, voided: set<string>)
    ensures Kept(events + [e], voided) == if e.id in voided then Kept(events, voided) else Kept(events, voided) + [e]
  {
    assert (events + [e])[..|events|] == events;
  }

  lemma EffectiveMembers(s: Ledger)
    ensures DateSorted(Effective(s))
    ensures forall x :: x in Effective(s) <==> x in s.events && x.id !in s.voided
  {
    SortDateSorted(Kept(s.events, s.voided));
    forall x ensures x in Effective(s) <==> x in s.events && x.id !in s.voided {
      KeptMembers(s.events, s.voided, x);
    }
  }

  /** If the account replays up to one day it replays up to every earlier day. */
  lemma SnapshotEarlier(cfg: Config, s: Ledger, day: int, earlier: int)
    requires SnapshotAt(cfg, s, day).Ok? && earlier <= day
    ensures SnapshotAt(cfg, s, earlier).Ok?
  {
    var all := Effective(s);
    EffectiveMembers(s);
    UptoIsPrefix(all, day);
    UptoIsPrefix(all, earlier);
    var a, b := Upto(all, earlier), Upto(all, day);
    if |a| <= |b| {
      assert a == b[..|a|];
      ReplayPrefix(cfg, b, |a|);
    } else {
      UptoCounts(all, earlier, day);
    }
  }

  lemma {:induction false} UptoCounts(s: seq<Fill>, a: int, b: int)
    requires a <= b
    ensures |Upto(s, a)| <= |Upto(s, b)|
  {
    if s != [] { UptoCounts(s[..|s| - 1], a, b); }
  }

  /** Every date is answered exactly when the whole effective list replays. */
  lemma ReplayableIff(cfg: Config, s: Ledger)
    ensures (forall day :: SnapshotAt(cfg, s, day).Ok?) <==> ReplayFills(cfg, Effective(s)).Ok?
  {
    hide Effective, Upto, ReplayFills, SnapshotOf;
    var all := Effective(s);
    EffectiveMembers(s);
    var last := if all == [] then 0 else all[|all| - 1].tradeDate;
    UptoAll(all, last);
    forall day | ReplayFills(cfg, all).Ok? ensures SnapshotAt(cfg, s, day).Ok? {
      UptoIsPrefix(all, day);
      var part := Upto(all, day);
      assert part == all[..|part|];
      ReplayPrefix(cfg, all, |part|);
    }
    if forall day :: SnapshotAt(cfg, s, day).Ok? {
      assert SnapshotAt(cfg, s, last).Ok?;
    }
  }

  ghost predicate Accepted(cfg: Config, s: Ledger, e: Fill) {
    e.id !in s.byId && RecordFill(cfg, s, e).1.Ok?
  }

  /** Whatever corrections came before, an accepted new fill leaves a ledger that answers every date. */
  lemma AcceptedFillIsReplayable(cfg: Config, s: Ledger, e: Fill, day: int)
    requires Accepted(cfg, s, e)
    ensures SnapshotAt(cfg, RecordFill(cfg, s, e).0, day).Ok?
  {
    hide Upto, ReplayFills, SnapshotOf, Precheck, Sort, Kept;
    var after := RecordFill(cfg, s, e).0;
    var all := Effective(after);
    EffectiveMembers(after);
    forall x | x in all ensures x.tradeDate <= e.tradeDate {
      if x != e { assert x in s.events; }
    }
    UptoAll(all, e.tradeDate);
    ReplayableIff(cfg, after);
    var grown := s.(events := s.events + [e]);
    assert Effective(grown) == all;
  }

  /** A new fill does not rewrite any earlier day. */
  lemma FillLeavesPast(cfg: Config, s: Ledger, e: Fill, day: int)
    requires Indexed(s) && Accepted(cfg, s, e) && day < e.tradeDate
    ensures SnapshotAt(cfg, RecordFill(cfg, s, e).0, day) == SnapshotAt(cfg, s, day)
  {
    hide Upto, ReplayFills, SnapshotOf, Precheck, Sort, Kept, ReceiptFor;
    var kept := Kept(s.events, s.voided);
    KeptAppend(s.events, e, s.voided);
    SortSnoc(kept, e);
    UptoInsert(Sort(kept), e, day);
  }

  /** A ledger that cannot answer some day refuses every new fill dated after it. */
  lemma BrokenLedgerRefusesFills(cfg: Config, s: Ledger, e: Fill, day: int)
    requires Indexed(s) && SnapshotAt(cfg, s, day).Err? && day < e.tradeDate && e.id !in s.byId
    ensures RecordFill(cfg, s, e).1.Err?
  {
    if Accepted(cfg, s, e) {
      AcceptedFillIsReplayable(cfg, s, e, day);
      FillLeavesPast(cfg, s, e, day);
      assert false;
    }
  }

  ghost predicate NoCorrections(calls: seq<Call>) {
    forall i :: 0 <= i < |calls| ==> calls[i].Fills?
  }

  /** Without corrections every date is answered after every run. */
  lemma FillKeepsReplayable(cfg: Config, s: Ledger, e: Fill, day: int)
    requires SnapshotAt(cfg, s, day).Ok?
    ensures SnapshotAt(cfg, RecordFill(cfg, s, e).0, day).Ok?
  {
    hide SnapshotAt, ReceiptFor, Precheck;
    if Accepted(cfg, s, e) {
      AcceptedFillIsReplayable(cfg, s, e, day);
    }
  }

  lemma EmptyReplays(cfg: Config, day: int)
    ensures SnapshotAt(cfg, EMPTY, day).Ok?
  {
    assert Upto(Effective(EMPTY), day) == [];
  }

  /** Without corrections every date is answered after every run. */
  lemma {:induction false} AlwaysReplayable(cfg: Config, calls: seq<Call>, day: int)
    requires NoCorrections(calls)
    ensures SnapshotAt(cfg, Run(cfg, calls), day).Ok?
  {
    if calls == [] {
      EmptyReplays(cfg, day);
    } else {
      hide SnapshotAt, RecordFill;
      AlwaysReplayable(cfg, calls[..|calls| - 1], day);
      FillKeepsReplayable(cfg, Run(cfg, calls[..|calls| - 1]), calls[|calls| - 1].e, day);
    }
  }

  // ------------------------------------------------------------- corrections

  lemma {:induction false} UptoKept(events: seq<Fill>, voided: set<string>, id: string, day: int)
    requires forall i :: 0 <= i < |events| && events[i].id == id ==> events[i].tradeDate > day
    ensures Upto(Kept(events, voided + {id}), day) == Upto(Kept(events, voided), day)
  {
    if events != [] {
      hide Upto, Kept;
      var init, last := events[..|events| - 1], events[|events| - 1];
      assert events == init + [last];
      UptoKept(init, voided, id, day);
      KeptAppend(init, last, voided);
      KeptAppend(init, last, voided + {id});
      UptoSnoc(Kept(init, voided), last, day);
      UptoSnoc(Kept(init, voided + {id}), last, day);
    }
  }

  lemma CorrectedEffective(s: Ledger, c: Correction)
    requires Indexed(s) && CorrectionRefused(s, c).None?
    ensures Effective(Corrected(s, c)) == Insert(Sort(Kept(s.events, s.voided + {c.originalId})), c.replacement)
    ensures forall i :: 0 <= i < |s.events| && s.events[i].id == c.originalId ==>
        s.events[i].tradeDate == c.replacement.tradeDate
  {
    hide Sort, Kept, Insert;
    var voided := s.voided + {c.originalId};
    assert c.replacement.id !in voided;
    KeptAppend(s.events, c.replacement, voided);
    SortSnoc(Kept(s.events, voided), c.replacement);
  }

  lemma CorrectionPast(s: Ledger, c: Correction, day: int)
    requires Indexed(s) && CorrectionRefused(s, c).None? && day < c.replacement.tradeDate
    ensures Upto(Effective(Corrected(s, c)), day) == Upto(Effective(s), day)
  {
    hide Upto, Sort, Kept, Insert, Corrected, Indexed, CorrectionRefused;
    CorrectedEffective(s, c);
    var kept := Kept(s.events, s.voided + {c.originalId});
    UptoInsert(Sort(kept), c.replacement, day);
    UptoSort(kept, day);
    UptoSort(Kept(s.events, s.voided), day);
    UptoKept(s.events, s.voided, c.originalId, day);
  }

  /** An accepted correction leaves every earlier day untouched and every day up to its own answered. */
  lemma CorrectionGuarantee(cfg: Config, s: Ledger, c: Correction, day: int)
    requires Indexed(s) && AppendCorrection(cfg, s, c).1.Ok?
    ensures var after := AppendCorrection(cfg, s, c).0;
      && (day < c.replacement.tradeDate ==> SnapshotAt(cfg, after, day) == SnapshotAt(cfg, s, day))
      && (day <= c.replacement.tradeDate ==> SnapshotAt(cfg, after, day).Ok?)
  {
    hide Upto, ReplayFills, SnapshotOf, Effective, CorrectionRefused, Corrected;
    var after := Corrected(s, c);
    if day <= c.replacement.tradeDate {
      SnapshotEarlier(cfg, after, c.replacement.tradeDate, day);
    }
    if day < c.replacement.tradeDate {
      CorrectionPast(s, c, day);
    }
  }

  /** Exactly when an accepted correction leaves every date answered: plain counting over the
      corrected fills, which a caller can do beforehand, finds no fill short of cash or shares. */
  lemma CorrectionReplayableIff(cfg: Config, s: Ledger, c: Correction)
    requires AppendCorrection(cfg, s, c).1.Ok?
    ensures (forall day :: SnapshotAt(cfg, AppendCorrection(cfg, s, c).0, day).Ok?) <==>
            Feasible(cfg, Effective(Corrected(s, c)))
  {
    ReplayableIff(cfg, Corrected(s, c));
    EffectiveMembers(Corrected(s, c));
    ReplayIffFeasible(cfg, Effective(Corrected(s, c)));
  }

  /** In particular a correction of the latest date is always safe. */
  lemma LatestCorrectionIsReplayable(cfg: Config, s: Ledger, c: Correction, day: int)
    requires AppendCorrection(cfg, s, c).1.Ok?
    requires forall e :: e in s.events && e.id !in s.voided ==> e.tradeDate <= c.replacement.tradeDate
    ensures SnapshotAt(cfg, AppendCorrection(cfg, s, c).0, day).Ok?
  {
    var after := Corrected(s, c);
    EffectiveMembers(after);
    UptoAll(Effective(after), c.replacement.tradeDate);
    ReplayableIff(cfg, after);
  }

  // ------------------------------------------------------------- resubmission

  /** What a fill with a known id must pass to count as a duplicate: its details, but not its recording
      time, match the recorded ones; the checks made before the duplicate test still pass; its own date
      is still answered. */
  ghost predicate Repeats(cfg: Config, s: Ledger, e: Fill) {
    && e.id in s.byId && SameEvent(s.byId[e.id], e) && SnapshotAt(cfg, s, e.tradeDate).Ok?
    && if e.side.Buy? then CheckName(cfg, e).None? && (cfg.lotSize > 0 ==> e.quantity % cfg.lotSize == 0)
       else
         var positions := SnapshotAt(cfg, s, e.tradeDate).value.positions;
         e.symbol in positions && positions[e.symbol].available >= e.quantity
  }

  /** A fill with a known id changes nothing, and is accepted, with the recorded fill in its receipt,
      exactly when it repeats that fill. */
  lemma ResubmissionIff(cfg: Config, s: Ledger, e: Fill)
    requires e.id in s.byId
    ensures RecordFill(cfg, s, e).0 == s
    ensures RecordFill(cfg, s, e).1.Ok? <==> Repeats(cfg, s, e)
    ensures RecordFill(cfg, s, e).1.Ok? ==>
      RecordFill(cfg, s, e).1.value.idempotent && RecordFill(cfg, s, e).1.value.event == s.byId[e.id]
  {
    hide SnapshotAt;
  }

  // -------------------------------------------------------- replay equivalence

  /** A correction without the time it was recorded at. */
  function Erase(c: Correction): Correction { c.(recordedAt := 0) }

  function EraseRecord(r: Record): Record {
    if r.CorrectionRow? then CorrectionRow(Erase(r.correction)) else r
  }

  function EraseCorrections(cs: seq<Correction>): (r: seq<Correction>)
    ensures |r| == |cs|
  {
    if cs == [] then [] else EraseCorrections(cs[..|cs| - 1]) + [Erase(cs[|cs| - 1])]
  }

  function EraseRecords(rs: seq<Record>): (r: seq<Record>)
    ensures |r| == |rs|
  {
    if rs == [] then [] else EraseRecords(rs[..|rs| - 1]) + [EraseRecord(rs[|rs| - 1])]
  }

  /** The ledger up to the recording times of its corrections. */
  function Essence(s: Ledger): Ledger {
    s.(corrections := EraseCorrections(s.corrections), records := EraseRecords(s.records))
  }

  lemma EraseAppend(cs: seq<Correction>, c: Correction, rs: seq<Record>, r: Record)
    ensures EraseCorrections(cs + [c]) == EraseCorrections(cs) + [Erase(c)]
    ensures EraseRecords(rs + [r]) == EraseRecords(rs) + [EraseRecord(r)]
  {
    assert (cs + [c])[..|cs|] == cs && (rs + [r])[..|rs|] == rs;
  }

  lemma SameSnapshot(cfg: Config, a: Ledger, b: Ledger, e: Fill, idempotent: bool, day: int)
    requires a.events == b.events && a.voided == b.voided
    ensures SnapshotAt(cfg, a, day) == SnapshotAt(cfg, b, day)
    ensures ReceiptFor(cfg, a, e, idempotent) == ReceiptFor(cfg, b, e, idempotent)
  {
    hide Upto, ReplayFills, SnapshotOf, Sort, Kept;
  }

  lemma SameAppend(cfg: Config, a: Ledger, b: Ledger, e: Fill)
    requires Essence(a) == Essence(b)
    ensures Append(cfg, a, e).1 == Append(cfg, b, e).1
    ensures Essence(Append(cfg, a, e).0) == Essence(Append(cfg, b, e).0)
  {
    hide SnapshotAt, ReceiptFor, SameEvent;
    if e.id in a.byId {
      SameSnapshot(cfg, a, b, a.byId[e.id], true, 0);
    } else {
      SameSnapshot(cfg, a.(events := a.events + [e]), b.(events := b.events + [e]), e, false, 0);
      assert (a.records + [FillRow(e)])[..|a.records|] == a.records;
      assert (b.records + [FillRow(e)])[..|b.records|] == b.records;
      assert BeforeLatest(a, e) <==> BeforeLatest(b, e);
    }
  }

  lemma SameCorrection(cfg: Config, a: Ledger, b: Ledger, c: Correction, d: Correction)
    requires Essence(a) == Essence(b) && Erase(c) == Erase(d)
    ensures AppendCorrection(cfg, a, c).1 == AppendCorrection(cfg, b, d).1
    ensures Essence(AppendCorrection(cfg, a, c).0) == Essence(AppendCorrection(cfg, b, d).0)
  {
    hide SnapshotAt, ReceiptFor, Essence, Erase, Corrected, CorrectionRefused;
    var x, y := Corrected(a, c), Corrected(b, d);
    SameCorrected(a, b, c, d);
    SameSnapshot(cfg, x, y, c.replacement, false, DefaultDate(x, 0));
  }

  lemma SameCorrected(a: Ledger, b: Ledger, c: Correction, d: Correction)
    requires Essence(a) == Essence(b) && Erase(c) == Erase(d)
    ensures c.replacement == d.replacement
    ensures Corrected(a, c).events == Corrected(b, d).events && Corrected(a, c).voided == Corrected(b, d).voided
    ensures Essence(Corrected(a, c)) == Essence(Corrected(b, d))
    ensures CorrectionRefused(a, c) == CorrectionRefused(b, d)
  {
    assert c.replacement == Erase(c).replacement == d.replacement;
    assert c.originalId == Erase(c).originalId == d.originalId && c.id == Erase(c).id == d.id;
    EraseAppend(a.corrections, c, a.records, CorrectionRow(c));
    EraseAppend(b.corrections, d, b.records, CorrectionRow(d));
    hide EraseCorrections, EraseRecords;
  }

  /** Ledgers with the same essence answer every question and every call alike. */
  lemma SameVerdicts(cfg: Config, a: Ledger, b: Ledger, call: Call, day: int)
    requires Essence(a) == Essence(b)
    ensures SnapshotAt(cfg, a, day) == SnapshotAt(cfg, b, day)
    ensures Step(cfg, a, call).1 == Step(cfg, b, call).1
    ensures Essence(Step(cfg, a, call).0) == Essence(Step(cfg, b, call).0)
  {
    hide SnapshotAt, ReceiptFor, CheckName, Append, AppendCorrection;
    match call {
      case Fills(e) =>
        SameSnapshot(cfg, a, b, e, false, day);
        SameSnapshot(cfg, a, b, e, false, e.tradeDate);
        SameAppend(cfg, a, b, e);
      case Corrects(c) =>
        SameSnapshot(cfg, a, b, c.replacement, false, day);
        SameCorrection(cfg, a, b, c, c);
    }
  }

  /** `from_records`: fills go straight to `Append`, corrections get a new recording time. */
  function Rebuild(cfg: Config, records: seq<Record>, clock: nat -> int): Result<Ledger, LedgerError> {
    if records == [] then Ok(EMPTY)
    else
      var k := |records| - 1;
      var before := Rebuild(cfg, records[..k], clock);
      if before.Err? then before
      else
        var (after, result) := RebuildOne(cfg, before.value, records[k], clock(k));
        if result.Err? then Err(result.error) else Ok(after)
  }

  function RebuildOne(cfg: Config, s: Ledger, r: Record, now: int): (Ledger, Result<Receipt, LedgerError>) {
    match r
    case FillRow(e) => Append(cfg, s, e)
    case CorrectionRow(c) => AppendCorrection(cfg, s, c.(recordedAt := now))
  }

  lemma SameRebuildStep(cfg: Config, a: Ledger, b: Ledger, r: Record, q: Record, now: int, later: int)
    requires Essence(a) == Essence(b) && EraseRecord(r) == EraseRecord(q)
    ensures RebuildOne(cfg, a, r, now).1 == RebuildOne(cfg, b, q, later).1
    ensures Essence(RebuildOne(cfg, a, r, now).0) == Essence(RebuildOne(cfg, b, q, later).0)
  {
    hide Append, AppendCorrection, Essence;
    match r {
      case FillRow(e) => SameAppend(cfg, a, b, e);
      case CorrectionRow(c) =>
        var d := q.correction;
        assert Erase(c) == Erase(d);
        SameCorrection(cfg, a, b, c.(recordedAt := now), d.(recordedAt := later));
    }
  }

  /** Rebuilding sees nothing of the recording times in its input. */
  lemma {:induction false} SameRebuild(cfg: Config, rs: seq<Record>, qs: seq<Record>, c1: nat -> int, c2: nat -> int)
    requires EraseRecords(rs) == EraseRecords(qs)
    ensures Rebuild(cfg, rs, c1).Ok? <==> Rebuild(cfg, qs, c2).Ok?
    ensures Rebuild(cfg, rs, c1).Ok? ==> Essence(Rebuild(cfg, rs, c1).value) == Essence(Rebuild(cfg, qs, c2).value)
  {
    if rs == [] {
      assert |EraseRecords(rs)| == |EraseRecords(qs)|;
    } else {
      assert |EraseRecords(rs)| == |EraseRecords(qs)|;
      var k := |rs| - 1;
      assert EraseRecords(rs)[..k] == EraseRecords(rs[..k]) && EraseRecords(qs)[..k] == EraseRecords(qs[..k]);
      assert EraseRecord(rs[k]) == EraseRecords(rs)[k] == EraseRecord(qs[k]);
      SameRebuild(cfg, rs[..k], qs[..k], c1, c2);
      if Rebuild(cfg, rs[..k], c1).Ok? {
        SameRebuildStep(cfg, Rebuild(cfg, rs[..k], c1).value, Rebuild(cfg, qs[..k], c2).value, rs[k], qs[k], c1(k),
            c2(k));
      }
    }
  }

  /** Its own records lead back to the ledger. */
  ghost predicate Reloads(cfg: Config, s: Ledger) {
    forall clock: nat -> int :: Rebuild(cfg, s.records, clock).Ok? &&
      Essence(Rebuild(cfg, s.records, clock).value) == Essence(s)
  }

  /** One more record on top of a reloading ledger. */
  lemma ReloadStep(cfg: Config, s: Ledger, after: Ledger, r: Record, now: int)
    requires Reloads(cfg, s) && after.records == s.records + [r]
    requires RebuildOne(cfg, s, r, now).1.Ok? && Essence(RebuildOne(cfg, s, r, now).0) == Essence(after)
    ensures Reloads(cfg, after)
  {
    forall clock: nat -> int
      ensures Rebuild(cfg, after.records, clock).Ok? &&
          Essence(Rebuild(cfg, after.records, clock).value) == Essence(after)
    {
      var k := |s.records|;
      assert after.records[..k] == s.records;
      var t := Rebuild(cfg, s.records, clock).value;
      SameRebuildStep(cfg, t, s, r, r, clock(k), now);
    }
  }

  lemma StepReloads(cfg: Config, s: Ledger, call: Call)
    requires Reloads(cfg, s)
    ensures Reloads(cfg, Step(cfg, s, call).0)
  {
    RaisingChangesNothing(cfg, s, call);
    var (after, result) := Step(cfg, s, call);
    if after != s {
      match call {
        case Fills(e) => ReloadStep(cfg, s, after, FillRow(e), 0);
        case Corrects(c) =>
          assert c.(recordedAt := c.recordedAt) == c;
          ReloadStep(cfg, s, after, CorrectionRow(c), c.recordedAt);
      }
    }
  }

  /** After any run of accepted, refused and repeated calls, rebuilding from the audit records
      succeeds and gives the same ledger up to the recording times of corrections. */
  lemma {:induction false} ReplayEquivalence(cfg: Config, calls: seq<Call>)
    ensures Reloads(cfg, Run(cfg, calls))
  {
    if calls == [] {
    } else {
      ReplayEquivalence(cfg, calls[..|calls| - 1]);
      StepReloads(cfg, Run(cfg, calls[..|calls| - 1]), calls[|calls| - 1]);
    }
  }
}
