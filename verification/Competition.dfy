/** The prospective competition over its shared append-only ledger file. Several processes may
    append; each checks against the view it loaded last and again, under the lock, against the
    whole file. Timestamps are seconds, dates are days of 86,400 of them. */
module Competition {
  import opened Wrappers
  import opened Basics
  import T = TradingCalendar

  function Day(at: int): int { at / 86400 }

  datatype PredictionRecord = PredictionRecord(
    id: string, model: string, bundle: string, symbol: string, predictionAt: int, asOf: int, horizon: int,
    score: real, probability: Option<real>, calibrated: bool, maturity: int, details: string, explicit: bool)

  ghost predicate ValidPrediction(p: PredictionRecord) {
    && p.asOf <= Day(p.predictionAt) && p.horizon in {5, 10, 20}
    && (p.probability.Some? ==> 0.0 <= p.probability.value <= 1.0)
    && (p.calibrated ==> p.probability.Some?)
    && p.asOf < p.maturity && Day(p.predictionAt) < p.maturity
  }

  /** What the constructor of a prediction lets through. */
  type Prediction = p: PredictionRecord | ValidPrediction(p)
    witness PredictionRecord("", "", "", "", 0, 0, 5, 0.0, None, false, 7, "", false)

  datatype Quality = Fine | Missing | Suspended | Stale | Conflict

  datatype Outcome = Outcome(
    predictionId: string, symbol: string, maturity: int, outcomeAt: int, price: Option<real>, realized: Option<real>,
    status: Quality, isFresh: bool, complete: bool, aligned: bool, corporateOk: bool, details: string)

  datatype Reason =
    | NotDue | ReasonMissing | ReasonSuspended | ReasonStale | ReasonConflict
    | Incomplete | SessionMismatch | CorporateActionConflict

  /** Whether the explicit-maturity mark differs is not part of a prediction's equality. */
  function Same(a: Prediction, b: Prediction): bool {
    a.(explicit := true) == b.(explicit := true)
  }

  datatype Record = PredictionRow(p: Prediction) | SettlementRow(o: Outcome) | PendingRow(o: Outcome, reason: Reason)

  datatype Store = Store(
    predictions: map<string, Prediction>, settlements: map<string, Outcome>, pending: set<(Outcome, Reason)>)

  datatype Problem =
    | Integrity | Unknown | SymbolMismatch | MaturityMismatch | AlreadySettled | IdReused | FutureTimestamp
    | NeedsCalendar | PastCutoff | NotASession | TooFewSessions | HorizonMismatch
    | ContestNotStarted | ContestMismatch | BeforeContest | QualityTooLow | TooEarly

  // ------------------------------------------------------------------ the ledger file

  predicate Usable(o: Outcome) {
    o.status.Fine? && o.isFresh && o.complete && o.aligned && o.corporateOk && o.price.Some? && o.realized.Some?
  }

  predicate Matches(s: Store, o: Outcome) {
    o.predictionId in s.predictions && s.predictions[o.predictionId].symbol == o.symbol &&
    s.predictions[o.predictionId].maturity == o.maturity
  }

  function Settled(s: Store, o: Outcome): Store {
    s.(settlements := s.settlements[o.predictionId := o],
       pending := set q | q in s.pending && q.0.predictionId != o.predictionId)
  }

  /** One line read back; a line that contradicts the earlier ones rejects the file. */
  function LoadOne(s: Store, r: Record): Result<Store, Problem> {
    match r
    case PredictionRow(p) =>
      if p.id in s.predictions && !Same(s.predictions[p.id], p) then Err(Integrity)
      else Ok(s.(predictions := s.predictions[p.id := p]))
    case SettlementRow(o) =>
      if !Matches(s, o) || Day(o.outcomeAt) < o.maturity || !Usable(o) ||
         (o.predictionId in s.settlements && s.settlements[o.predictionId] != o) then Err(Integrity)
      else Ok(Settled(s, o))
    case PendingRow(o, reason) =>
      if !Matches(s, o) then Err(Integrity)
      else if o.predictionId in s.settlements then Ok(s)
      else Ok(s.(pending := s.pending + {(o, reason)}))
  }

  const EMPTY := Store(map[], map[], {})

  function Load(file: seq<Record>): Result<Store, Problem> {
    if file == [] then Ok(EMPTY)
    else
      var before := Load(file[..|file| - 1]);
      if before.Err? then before else LoadOne(before.value, file[|file| - 1])
  }

  // -------------------------------------------------------------------- the checks

  datatype Registration = Registration(started: bool, model: string, bundle: Option<string>, startedAt: int)

  /** The supplied sessions after a day, in order. */
  function After(sessions: seq<int>, day: int): seq<int> {
    if sessions == [] then []
    else
      var r := After(sessions[..|sessions| - 1], day);
      if sessions[|sessions| - 1] > day then r + [sessions[|sessions| - 1]] else r
  }

  function CheckCalendar(p: Prediction, sessions: seq<int>): Option<Problem> {
    var future := After(sessions, p.asOf);
    if p.maturity !in sessions then Some(NotASession)
    else if |future| < p.horizon then Some(TooFewSessions)
    else if future[p.horizon - 1] != p.maturity then Some(HorizonMismatch)
    else None
  }

  function CheckContest(p: Prediction, contest: Registration): Option<Problem> {
    if !contest.started then Some(ContestNotStarted)
    else if p.model != contest.model || (contest.bundle.Some? && p.bundle != contest.bundle.value)
        then Some(ContestMismatch)
    else if p.predictionAt < contest.startedAt then Some(BeforeContest)
    else None
  }

  function CheckPrediction(p: Prediction, now: int, sessions: Option<seq<int>>,
      contest: Option<Registration>): Option<Problem> {
    if sessions.None? && p.explicit then Some(NeedsCalendar)
    else if p.predictionAt > now then Some(FutureTimestamp)
    else if p.maturity <= Day(now) then Some(PastCutoff)
    else if sessions.Some? && CheckCalendar(p, sessions.value).Some? then CheckCalendar(p, sessions.value)
    else if contest.Some? then CheckContest(p, contest.value)
    else None
  }

  function DelayReason(p: Prediction, o: Outcome): Option<Reason> {
    if Day(o.outcomeAt) < p.maturity then Some(NotDue)
    else if !o.status.Fine? then
      Some(match o.status case Missing => ReasonMissing case Suspended => ReasonSuspended
           case Stale => ReasonStale case _ => ReasonConflict)
    else if !o.isFresh then Some(ReasonStale)
    else if !o.complete then Some(Incomplete)
    else if !o.aligned then Some(SessionMismatch)
    else if !o.corporateOk then Some(CorporateActionConflict)
    else if o.price.None? || o.realized.None? then Some(ReasonMissing)
    else None
  }

  // --------------------------------------------------------- appends under the lock

  function StorePrediction(file: seq<Record>, p: Prediction): (seq<Record>, Result<Prediction, Problem>) {
    var s := Load(file);
    if s.Err? then (file, Err(s.error))
    else if p.id in s.value.predictions then
      var existing := s.value.predictions[p.id];
      (file, if Same(existing, p) then Ok(existing) else Err(IdReused))
    else (file + [PredictionRow(p)], Ok(p))
  }

  function StoreSettlement(file: seq<Record>, o: Outcome): (seq<Record>, Result<Outcome, Problem>) {
    var s := Load(file);
    if s.Err? then (file, Err(s.error))
    else if o.predictionId !in s.value.predictions then (file, Err(Unknown))
    else if s.value.predictions[o.predictionId].symbol != o.symbol then (file, Err(SymbolMismatch))
    else if s.value.predictions[o.predictionId].maturity != o.maturity then (file, Err(MaturityMismatch))
    else if Day(o.outcomeAt) < o.maturity then (file, Err(TooEarly))
    else if !Usable(o) then (file, Err(QualityTooLow))
    else if o.predictionId in s.value.settlements then
      (file, if s.value.settlements[o.predictionId] == o then Ok(o) else Err(AlreadySettled))
    else (file + [SettlementRow(o)], Ok(o))
  }

  function StorePending(file: seq<Record>, o: Outcome, reason: Reason): (seq<Record>, Result<Outcome, Problem>) {
    var s := Load(file);
    if s.Err? then (file, Err(s.error))
    else if o.predictionId !in s.value.predictions then (file, Err(Unknown))
    else if s.value.predictions[o.predictionId].symbol != o.symbol then (file, Err(SymbolMismatch))
    else if s.value.predictions[o.predictionId].maturity != o.maturity then (file, Err(MaturityMismatch))
    else if o.predictionId in s.value.settlements then (file, Err(AlreadySettled))
    else if (o, reason) in s.value.pending then (file, Ok(o))
    else (file + [PendingRow(o, reason)], Ok(o))
  }

  // ------------------------------------------------------------------ the operations

  datatype Settlement = Settlement(matured: bool, outcome: Option<Outcome>, delay: Option<Reason>, idempotent: bool)

  function AppendPrediction(file: seq<Record>, p: Prediction, now: int, sessions: Option<seq<int>>,
      contest: Option<Registration>)
    : (seq<Record>, Result<Prediction, Problem>)
  {
    var problem := CheckPrediction(p, now, sessions, contest);
    if problem.Some? then (file, Err(problem.value)) else StorePrediction(file, p)
  }

  /** `settle_due` by a process whose view of the ledger may be older than the file. */
  function SettleDue(file: seq<Record>, view: Store, o: Outcome, now: int): (seq<Record>, Result<Settlement, Problem>) {
    if o.outcomeAt > now then (file, Err(FutureTimestamp))
    else if o.predictionId !in view.predictions then (file, Err(Unknown))
    else
      var p := view.predictions[o.predictionId];
      if p.symbol != o.symbol then (file, Err(SymbolMismatch))
      else if o.predictionId in view.settlements then
        (file, if view.settlements[o.predictionId] == o then Ok(Settlement(true, Some(o), None, true))
            else Err(AlreadySettled))
      else if o.maturity != p.maturity then (file, Err(MaturityMismatch))
      else
        var reason := DelayReason(p, o);
        if reason.Some? then
          var (after, r) := StorePending(file, o, reason.value);
          (after, if r.Err? then Err(r.error) else Ok(Settlement(false, None, reason, false)))
        else
          var (after, r) := StoreSettlement(file, o);
          (after, if r.Err? then Err(r.error) else Ok(Settlement(true, Some(o), None, false)))
  }

  datatype Call =
    | Predict(p: Prediction, now: int, sessions: Option<seq<int>>, contest: Option<Registration>)
    | Settle(seen: nat, o: Outcome, now: int)

  /** The view a process has that read the file when it was `seen` lines long. */
  function View(file: seq<Record>, seen: nat): Store {
    var prefix := if seen <= |file| then file[..seen] else file;
    if Load(prefix).Ok? then Load(prefix).value else EMPTY
  }

  function Step(file: seq<Record>, call: Call): seq<Record> {
    match call
    case Predict(p, now, sessions, contest) => AppendPrediction(file, p, now, sessions, contest).0
    case Settle(seen, o, now) => SettleDue(file, View(file, seen), o, now).0
  }

  function Run(calls: seq<Call>): seq<Record> {
    if calls == [] then [] else Step(Run(calls[..|calls| - 1]), calls[|calls| - 1])
  }

  // ----------------------------------------------------------------- run invariants

  /** Each settlement answers a prediction of its own id, symbol and maturity, is dated on or after
      that maturity, strictly after the prediction was made, and is usable: it carries a return. */
  ghost predicate Safe(s: Store) {
    && (forall id :: id in s.predictions ==> s.predictions[id].id == id)
    && (forall id :: id in s.settlements ==>
          && id in s.predictions && s.settlements[id].predictionId == id
          && s.settlements[id].symbol == s.predictions[id].symbol
          && s.settlements[id].maturity == s.predictions[id].maturity
          && s.settlements[id].maturity <= Day(s.settlements[id].outcomeAt)
          && s.predictions[id].predictionAt < s.settlements[id].outcomeAt
          && Usable(s.settlements[id]))
  }

  /** The later store keeps every prediction and every settlement. */
  ghost predicate Extends(before: Store, after: Store) {
    && (forall id :: id in before.predictions ==>
        id in after.predictions && Same(before.predictions[id], after.predictions[id]))
    && (forall id :: id in before.settlements ==>
        id in after.settlements && before.settlements[id] == after.settlements[id])
  }

  lemma DayMonotone(a: int, b: int)
    requires Day(a) < Day(b)
    ensures a < b
  {
  }

  lemma SameFields(a: Prediction, b: Prediction)
    requires Same(a, b)
    ensures a.id == b.id && a.symbol == b.symbol && a.maturity == b.maturity && a.predictionAt == b.predictionAt
  {
    var x, y := a.(explicit := true), b.(explicit := true);
    assert x.id == a.id && x.symbol == a.symbol && x.maturity == a.maturity && x.predictionAt == a.predictionAt;
    assert y.id == b.id && y.symbol == b.symbol && y.maturity == b.maturity && y.predictionAt == b.predictionAt;
  }

  lemma PredictionLoads(s: Store, p: Prediction)
    requires Safe(s) && LoadOne(s, PredictionRow(p)).Ok?
    ensures Safe(LoadOne(s, PredictionRow(p)).value) && Extends(s, LoadOne(s, PredictionRow(p)).value)
  {
    if p.id in s.predictions { SameFields(s.predictions[p.id], p); }
    var after := LoadOne(s, PredictionRow(p)).value;
    assert after.predictions == s.predictions[p.id := p] && after.settlements == s.settlements;
    forall id | id in s.predictions ensures Same(s.predictions[id], after.predictions[id]) {}
    hide Day, Usable, LoadOne, Same;
  }

  lemma SettlementLoads(s: Store, o: Outcome)
    requires Safe(s) && LoadOne(s, SettlementRow(o)).Ok?
    ensures Safe(LoadOne(s, SettlementRow(o)).value) && Extends(s, LoadOne(s, SettlementRow(o)).value)
  {
    DayMonotone(s.predictions[o.predictionId].predictionAt, o.outcomeAt);
    hide Day, Usable;
  }

  lemma LoadOneSafe(s: Store, r: Record)
    requires Safe(s) && LoadOne(s, r).Ok?
    ensures Safe(LoadOne(s, r).value) && Extends(s, LoadOne(s, r).value)
  {
    match r {
      case PredictionRow(p) =>
        hide LoadOne, Safe, Extends;
        PredictionLoads(s, p);
      case SettlementRow(o) =>
        hide LoadOne, Safe, Extends;
        SettlementLoads(s, o);
      case PendingRow(o, reason) =>
        hide Day, Usable, Matches;
    }
  }

  lemma {:induction false} LoadSafe(file: seq<Record>)
    requires Load(file).Ok?
    ensures Safe(Load(file).value)
  {
    if file != [] {
      LoadSafe(file[..|file| - 1]);
      LoadOneSafe(Load(file[..|file| - 1]).value, file[|file| - 1]);
    }
  }

  lemma SameTransitive(a: Prediction, b: Prediction, c: Prediction)
    requires Same(a, b) && Same(b, c)
    ensures Same(a, c)
  {
  }

  /** A settlement, once loaded from a file, is in every longer file and never changes. */
  lemma {:induction false} LoadExtends(file: seq<Record>, k: nat)
    requires k <= |file| && Load(file).Ok?
    ensures Load(file[..k]).Ok? && Extends(Load(file[..k]).value, Load(file).value)
  {
    if k < |file| {
      var init := file[..|file| - 1];
      assert init[..k] == file[..k];
      LoadExtends(init, k);
      LoadSafe(init);
      LoadOneSafe(Load(init).value, file[|file| - 1]);
      hide Safe, Same, LoadOne;
      ExtendsTransitive(Load(file[..k]).value, Load(init).value, Load(file).value);
    } else {
      assert file[..k] == file;
    }
  }

  lemma ExtendsTransitive(a: Store, b: Store, c: Store)
    requires Extends(a, b) && Extends(b, c)
    ensures Extends(a, c)
  {
    forall id | id in a.predictions ensures id in c.predictions && Same(a.predictions[id], c.predictions[id]) {
      SameTransitive(a.predictions[id], b.predictions[id], c.predictions[id]);
    }
  }

  lemma LoadSnoc(file: seq<Record>, r: Record)
    requires Load(file).Ok?
    ensures Load(file + [r]) == LoadOne(Load(file).value, r)
  {
    assert (file + [r])[..|file|] == file;
  }

  lemma StepLoads(file: seq<Record>, call: Call)
    requires Load(file).Ok?
    ensures Load(Step(file, call)).Ok? && file <= Step(file, call) && |Step(file, call)| <= |file| + 1
  {
    hide View, CheckPrediction, DelayReason, Day, Same;
    var after := Step(file, call);
    if after != file {
      LoadSnoc(file, after[|file|]);
      assert after == file + [after[|file|]];
    }
  }

  /** Every file any mix of processes produces loads, only ever grows, and is safe. */
  lemma {:induction false} RunLoads(calls: seq<Call>)
    ensures Load(Run(calls)).Ok? && Safe(Load(Run(calls)).value)
  {
    if calls == [] {
      assert Run(calls) == [];
    } else {
      RunLoads(calls[..|calls| - 1]);
      StepLoads(Run(calls[..|calls| - 1]), calls[|calls| - 1]);
      LoadSafe(Run(calls));
    }
  }

  /** What was settled stays settled, with the same outcome, through every later call. */
  lemma SettlementIsFinal(calls: seq<Call>, call: Call, id: string)
    requires Load(Run(calls)).Ok? && id in Load(Run(calls)).value.settlements
    ensures Load(Run(calls + [call])).Ok?
    ensures id in Load(Run(calls + [call])).value.settlements
    ensures Load(Run(calls + [call])).value.settlements[id] == Load(Run(calls)).value.settlements[id]
  {
    assert (calls + [call])[..|calls|] == calls;
    var file, after := Run(calls), Run(calls + [call]);
    StepLoads(file, call);
    LoadExtends(after, |file|);
    assert after[..|file|] == file;
  }

  /** At most one settlement a prediction: never more settlements than predictions. */
  lemma SettledWithinPredictions(calls: seq<Call>)
    ensures Load(Run(calls)).Ok?
    ensures |Load(Run(calls)).value.settlements| <= |Load(Run(calls)).value.predictions|
  {
    RunLoads(calls);
    var s := Load(Run(calls)).value;
    assert s.settlements.Keys <= s.predictions.Keys;
    SubsetSize(s.settlements.Keys, s.predictions.Keys);
  }

  /** Once a prediction is settled nothing more is written about it, from however old a view. Sending the
      settled outcome again is accepted by every process that knows the prediction by now; any other
      outcome is refused. */
  lemma ResettlingChangesNothing(calls: seq<Call>, seen: nat, o: Outcome, now: int)
    requires Load(Run(calls)).Ok? && o.predictionId in Load(Run(calls)).value.settlements
    ensures var file := Run(calls);
      var result := SettleDue(file, View(file, seen), o, now);
      && result.0 == file
      && (result.1.Ok? <==>
            o.outcomeAt <= now && o.predictionId in View(file, seen).predictions &&
            o == Load(file).value.settlements[o.predictionId])
      && (result.1.Ok? ==> result.1.value.matured && result.1.value.outcome == Some(o))
  {
    var file := Run(calls);
    RunLoads(calls);
    hide Run, Safe, Extends, Load;
    ViewBefore(file, seen);
    if o.outcomeAt <= now && o.predictionId in View(file, seen).predictions {
      hide SettleDue;
      ResettleFrom(file, View(file, seen), o, now);
    }
    hide StoreSettlement, StorePending, DelayReason, Day, Usable;
  }

  /** An older view is safe, and the file extends it. */
  lemma ViewBefore(file: seq<Record>, seen: nat)
    requires Load(file).Ok?
    ensures Safe(View(file, seen)) && Extends(View(file, seen), Load(file).value)
  {
    var prefix := if seen <= |file| then file[..seen] else file;
    assert prefix == file[..|prefix|];
    LoadExtends(file, |prefix|);
    LoadSafe(prefix);
    hide Load, Safe, Extends;
  }

  /** An outcome that is not delayed is due and usable. */
  lemma NotDelayed(p: Prediction, o: Outcome)
    ensures DelayReason(p, o).None? <==> p.maturity <= Day(o.outcomeAt) && Usable(o)
  {
    hide Day;
  }

  lemma ResettleFrom(file: seq<Record>, view: Store, o: Outcome, now: int)
    requires Load(file).Ok? && Safe(Load(file).value) && Extends(view, Load(file).value)
    requires o.predictionId in Load(file).value.settlements && o.predictionId in view.predictions && o.outcomeAt <= now
    ensures var result := SettleDue(file, view, o, now);
      && result.0 == file
      && (result.1.Ok? <==> o == Load(file).value.settlements[o.predictionId])
      && (result.1.Ok? ==> result.1.value.matured && result.1.value.outcome == Some(o))
  {
    var s := Load(file).value;
    SameFields(view.predictions[o.predictionId], s.predictions[o.predictionId]);
    NotDelayed(view.predictions[o.predictionId], o);
    hide Day, Load, DelayReason, Usable, Same;
  }

  /** A call that settles looks at a result observed by then, at least a day after the prediction. */
  lemma SettlesOnlyThePast(file: seq<Record>, seen: nat, o: Outcome, now: int)
    requires Load(file).Ok? && SettleDue(file, View(file, seen), o, now).0 != file
    requires SettleDue(file, View(file, seen), o, now).1.Ok?
    requires SettleDue(file, View(file, seen), o, now).1.value.matured
    ensures o.outcomeAt <= now && Usable(o) && o.maturity <= Day(o.outcomeAt)
    ensures Load(file).value.predictions[o.predictionId].predictionAt < o.outcomeAt
  {
    var p := Load(file).value.predictions[o.predictionId];
    NotDelayed(View(file, seen).predictions[o.predictionId], o);
    DayMonotone(p.predictionAt, o.outcomeAt);
    hide Day, DelayReason, Usable, Load;
  }

  /** An accepted prediction was made by then, and nobody can know its result yet. */
  lemma PredictsOnlyTheFuture(file: seq<Record>, p: Prediction, now: int, sessions: Option<seq<int>>,
      contest: Option<Registration>)
    requires AppendPrediction(file, p, now, sessions, contest).1.Ok?
    ensures p.predictionAt <= now && Day(now) < p.maturity
    ensures sessions.Some? ==>
      && p.maturity in sessions.value && |After(sessions.value, p.asOf)| >= p.horizon
      && After(sessions.value, p.asOf)[p.horizon - 1] == p.maturity
  {
    hide Day, After;
  }

  /** The `k`-th call made this prediction: it passed every check, before its result could be known. */
  ghost predicate MadeBy(calls: seq<Call>, k: nat, p: Prediction) {
    && k < |calls| && calls[k].Predict? && calls[k].p == p
    && p.predictionAt <= calls[k].now && Day(calls[k].now) < p.maturity
    && CheckPrediction(p, calls[k].now, calls[k].sessions, calls[k].contest).None?
  }

  lemma StepPredictions(file: seq<Record>, call: Call, id: string)
    requires Load(file).Ok? && Load(Step(file, call)).Ok? && id in Load(Step(file, call)).value.predictions
    ensures var p := Load(Step(file, call)).value.predictions[id];
      || (id in Load(file).value.predictions && Load(file).value.predictions[id] == p)
      || (call.Predict? && call.p == p && CheckPrediction(p, call.now, call.sessions, call.contest).None?)
  {
    hide View, CheckPrediction, DelayReason, Day, Same, Usable, Matches;
    var after := Step(file, call);
    if after != file { LoadSnoc(file, after[|file|]); }
  }

  lemma CheckedIsEarly(p: Prediction, now: int, sessions: Option<seq<int>>, contest: Option<Registration>)
    requires CheckPrediction(p, now, sessions, contest).None?
    ensures p.predictionAt <= now && Day(now) < p.maturity
  {
    hide Day;
  }

  /** Every prediction any run has stored was made, by one of its calls, before its result could be known. */
  lemma {:induction false} PredictionsWereEarly(calls: seq<Call>, id: string)
    requires Load(Run(calls)).Ok? && id in Load(Run(calls)).value.predictions
    ensures exists k: nat :: MadeBy(calls, k, Load(Run(calls)).value.predictions[id])
  {
    if calls != [] {
      var init, n := calls[..|calls| - 1], |calls| - 1;
      RunLoads(init);
      StepPredictions(Run(init), calls[n], id);
      var p := Load(Run(calls)).value.predictions[id];
      if calls[n].Predict? && calls[n].p == p &&
          CheckPrediction(p, calls[n].now, calls[n].sessions, calls[n].contest).None? {
        CheckedIsEarly(p, calls[n].now, calls[n].sessions, calls[n].contest);
        assert MadeBy(calls, n, p);
      } else {
        PredictionsWereEarly(init, id);
        hide Run, Load, CheckPrediction, Day;
        var k: nat :| MadeBy(init, k, p);
        assert MadeBy(calls, k, p);
      }
    }
  }

  // --------------------------------------------------------------- default maturities

  lemma {:induction false} AfterMembers(sessions: seq<int>, day: int, d: int)
    ensures d in After(sessions, day) <==> d in sessions && d > day
  {
    if sessions != [] {
      assert sessions == sessions[..|sessions| - 1] + [sessions[|sessions| - 1]];
      AfterMembers(sessions[..|sessions| - 1], day, d);
    }
  }

  lemma {:induction false} AfterIncreasing(sessions: seq<int>, day: int, top: int)
    requires Increasing(sessions) && (forall i :: 0 <= i < |sessions| ==> sessions[i] < top)
    ensures Increasing(After(sessions, day))
    ensures forall i :: 0 <= i < |After(sessions, day)| ==> After(sessions, day)[i] < top
  {
    if sessions != [] {
      var init := sessions[..|sessions| - 1];
      assert forall i :: 0 <= i < |init| ==> init[i] == sessions[i];
      AfterIncreasing(init, day, sessions[|sessions| - 1]);
    }
  }

  function DaySet(sessions: seq<int>): set<int> { set d | d in sessions }

  /** The default maturity of a prediction passes the calendar check of every supplied calendar that
      is right up to it; and no other date does. */
  lemma DefaultMaturityPassesIff(c: T.Calendar, p: Prediction, sessions: seq<int>)
    requires Increasing(sessions)
    requires T.Agrees(c, DaySet(sessions), p.asOf, p.maturity)
    ensures CheckCalendar(p, sessions).None? <==> T.Stepped(c, p.asOf, p.horizon, p.maturity)
  {
    forall d ensures d in After(sessions, p.asOf) <==> d in DaySet(sessions) && d > p.asOf {
      AfterMembers(sessions, p.asOf, d);
    }
    AfterIncreasing(sessions, p.asOf, if sessions == [] then 0 else sessions[|sessions| - 1] + 1);
    assert p.maturity in DaySet(sessions) <==> p.maturity in sessions;
    T.MaturityCheckIff(c, DaySet(sessions), After(sessions, p.asOf), p.asOf, p.horizon, p.maturity);
  }

  // ------------------------------------------------------------------------ the object

  class ProspectiveCompetition {
    var file: seq<Record>
    var view: Store
    const sessions: Option<seq<int>>
    const contest: Option<Registration>

    /** Opening the ledger loads it. */
    constructor (file: seq<Record>, sessions: Option<seq<int>>, contest: Option<Registration>)
      requires Load(file).Ok?
      ensures this.file == file && view == Load(file).value && this.sessions == sessions && this.contest == contest
    {
      this.file, view, this.sessions, this.contest := file, Load(file).value, sessions, contest;
    }

    method Append(p: Prediction, now: int) returns (r: Result<Prediction, Problem>)
      requires Load(file).Ok?
      modifies this
      ensures (file, r) == AppendPrediction(old(file), p, now, sessions, contest)
      ensures r.Ok? ==> Load(file) == Ok(view)
    {
      hide LoadOne, CheckPrediction;
      var problem := CheckPrediction(p, now, sessions, contest);
      if problem.Some? { return Err(problem.value); }
      view := Load(file).value;
      if p.id in view.predictions {
        var existing := view.predictions[p.id];
        if Same(existing, p) { return Ok(existing); }
        return Err(IdReused);
      }
      LoadSnoc(file, PredictionRow(p));
      file := file + [PredictionRow(p)];
      view := view.(predictions := view.predictions[p.id := p]);
      NewPrediction(Load(old(file)).value, p);
      r := Ok(p);
    }

    /** Re-reads the file under the lock, checks again, and appends the result. */
    method WriteSettlement(o: Outcome) returns (r: Result<Outcome, Problem>)
      requires Load(file).Ok?
      modifies this
      ensures (file, r) == StoreSettlement(old(file), o)
      ensures Load(file) == Ok(view)
    {
      hide LoadOne, Day, Usable;
      view := Load(file).value;
      if o.predictionId !in view.predictions { return Err(Unknown); }
      if view.predictions[o.predictionId].symbol != o.symbol { return Err(SymbolMismatch); }
      if view.predictions[o.predictionId].maturity != o.maturity { return Err(MaturityMismatch); }
      if Day(o.outcomeAt) < o.maturity { return Err(TooEarly); }
      if !Usable(o) { return Err(QualityTooLow); }
      if o.predictionId in view.settlements {
        return if view.settlements[o.predictionId] == o then Ok(o) else Err(AlreadySettled);
      }
      LoadSnoc(file, SettlementRow(o));
      NewSettlement(view, o);
      file := file + [SettlementRow(o)];
      view := Settled(view, o);
      r := Ok(o);
    }

    method WritePending(o: Outcome, reason: Reason) returns (r: Result<Outcome, Problem>)
      requires Load(file).Ok?
      modifies this
      ensures (file, r) == StorePending(old(file), o, reason)
      ensures Load(file) == Ok(view)
    {
      view := Load(file).value;
      if o.predictionId !in view.predictions { return Err(Unknown); }
      if view.predictions[o.predictionId].symbol != o.symbol { return Err(SymbolMismatch); }
      if view.predictions[o.predictionId].maturity != o.maturity { return Err(MaturityMismatch); }
      if o.predictionId in view.settlements { return Err(AlreadySettled); }
      if (o, reason) !in view.pending {
        LoadSnoc(file, PendingRow(o, reason));
        file := file + [PendingRow(o, reason)];
        view := view.(pending := view.pending + {(o, reason)});
      }
      r := Ok(o);
    }

    /** `settle_due`, against this process's view first and the file afterwards. */
    method Settle(o: Outcome, now: int) returns (r: Result<Settlement, Problem>)
      requires Load(file).Ok?
      modifies this
      ensures (file, r) == SettleDue(old(file), old(view), o, now)
      ensures Load(file).Ok?
    {
      hide Load, DelayReason, Day, Usable, StorePending, StoreSettlement;
      if o.outcomeAt > now { return Err(FutureTimestamp); }
      if o.predictionId !in view.predictions { return Err(Unknown); }
      var p := view.predictions[o.predictionId];
      if p.symbol != o.symbol { return Err(SymbolMismatch); }
      if o.predictionId in view.settlements {
        if view.settlements[o.predictionId] == o { return Ok(Settlement(true, Some(o), None, true)); }
        return Err(AlreadySettled);
      }
      if o.maturity != p.maturity { return Err(MaturityMismatch); }
      var reason := DelayReason(p, o);
      if reason.Some? {
        var written := WritePending(o, reason.value);
        if written.Err? { return Err(written.error); }
        return Ok(Settlement(false, None, reason, false));
      }
      var written := WriteSettlement(o);
      if written.Err? { return Err(written.error); }
      r := Ok(Settlement(true, Some(o), None, false));
    }
  }

  lemma NewSettlement(s: Store, o: Outcome)
    requires Matches(s, o) && o.maturity <= Day(o.outcomeAt) && Usable(o) && o.predictionId !in s.settlements
    ensures LoadOne(s, SettlementRow(o)) == Ok(Settled(s, o))
  {
  }

  lemma NewPrediction(s: Store, p: Prediction)
    requires p.id !in s.predictions
    ensures LoadOne(s, PredictionRow(p)) == Ok(s.(predictions := s.predictions[p.id := p]))
  {
  }
}
