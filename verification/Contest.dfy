/** The contest: a frozen registration, counters of future evidence, and the status they earn. Several
    calls change fields before they raise, so each result is a new state and perhaps a problem. */
module Contest {
  import opened Wrappers
  import opened CompetitionMetrics

  datatype Version = Version(model: string, version: string, config: string, snapshot: string)

  datatype Terms = Terms(version: Version, bundle: Option<string>, primaryMetric: string, tieBreak: seq<string>)

  datatype Status = NotStarted | Collecting | Provisional | AwaitingApproval

  datatype State = State(
    terms: Option<Terms>, startedAt: Option<int>, sessions: int, matured: int, gatesPass: bool,
    status: Status, metrics: Option<Metrics>)

  datatype Problem =
    | FieldsRequired | TieBreakRequired | BadDigest | StartInFuture | RegistrationFrozen
    | HasNotStarted | VersionFieldsRequired | ModelRequired
    | NegativeCounter | CounterBackwards | MetricsRequired

  datatype Op =
    | Start(terms: Terms, at: int)
    | RegisterVersion(version: string, config: string, snapshot: string, model: Option<string>)
    | RecordObservations(sessions: int, matured: int, claimed: bool, historical: int, metrics: Option<Metrics>)
    | RecordSession(newlyMatured: int, sessionClaimed: bool, sessionMetrics: Option<Metrics>)

  const FRESH := State(None, None, 0, 0, false, NotStarted, None)

  // ---------------------------------------------------------------------- one call

  predicate IsDigest(d: string) {
    |d| == 64 && forall i :: 0 <= i < |d| ==> '0' <= d[i] <= '9' || 'a' <= d[i] <= 'f'
  }

  function TermsProblem(t: Terms, at: int, now: int): Option<Problem> {
    if t.version.model == "" || t.version.version == "" || t.version.config == "" || t.version.snapshot == "" ||
       t.primaryMetric == "" then Some(FieldsRequired)
    else if t.tieBreak == [] || (exists i :: 0 <= i < |t.tieBreak| && t.tieBreak[i] == "") then Some(TieBreakRequired)
    else if t.bundle.Some? && !IsDigest(t.bundle.value) then Some(BadDigest)
    else if at > now then Some(StartInFuture)
    else None
  }

  function Started(s: State, now: int, t: Terms, at: int): (State, Option<Problem>) {
    if TermsProblem(t, at, now).Some? then (s, TermsProblem(t, at, now))
    else if s.terms.Some? then (s, if s.terms == Some(t) then None else Some(RegistrationFrozen))
    else (s.(terms := Some(t), startedAt := Some(at), status := Collecting), None)
  }

  /** A blank model name is noticed only after the other three fields were replaced. */
  function Reregistered(s: State, version: string, config: string, snapshot: string, model: Option<string>)
    : (State, Option<Problem>)
  {
    if s.terms.None? then (s, Some(HasNotStarted))
    else if version == "" || config == "" || snapshot == "" then (s, Some(VersionFieldsRequired))
    else
      var known := s.terms.value;
      var renamed := Version(known.version.model, version, config, snapshot);
      if model == Some("") then (s.(terms := Some(known.(version := renamed))), Some(ModelRequired))
      else
        var v := if model.Some? then renamed.(model := model.value) else renamed;
        (State(Some(known.(version := v)), s.startedAt, 0, 0, false, Collecting, None), None)
  }

  function StatusOf(sessions: int, matured: int, gatesPass: bool): Status {
    if sessions >= 60 && matured >= 200 && gatesPass then AwaitingApproval
    else if gatesPass && sessions >= 20 && matured >= 100 then Provisional
    else Collecting
  }

  function CounterProblem(s: State, sessions: int, matured: int, historical: int): Option<Problem> {
    if s.terms.None? then Some(HasNotStarted)
    else if sessions < 0 || matured < 0 || historical < 0 then Some(NegativeCounter)
    else if sessions < s.sessions || matured < s.matured then Some(CounterBackwards)
    else None
  }

  /** Claimed gates without metrics are noticed only after the counters were replaced. */
  function Recorded(s: State, sessions: int, matured: int, claimed: bool, historical: int, metrics: Option<Metrics>)
    : (State, Option<Problem>)
  {
    var problem := CounterProblem(s, sessions, matured, historical);
    if problem.Some? then (s, problem)
    else if metrics.None? && claimed then (s.(sessions := sessions, matured := matured), Some(MetricsRequired))
    else
      var gates := metrics.Some? && Passes(metrics.value);
      (s.(sessions := sessions, matured := matured, gatesPass := gates, metrics := metrics,
          status := StatusOf(sessions, matured, gates)), None)
  }

  function SessionRecorded(s: State, newlyMatured: int, claimed: bool, metrics: Option<Metrics>)
    : (State, Option<Problem>)
  {
    if s.terms.None? then (s, Some(HasNotStarted))
    else if newlyMatured < 0 then (s, Some(NegativeCounter))
    else Recorded(s, s.sessions + 1, s.matured + newlyMatured, claimed, 0, metrics)
  }

  function Apply(s: State, now: int, op: Op): (State, Option<Problem>) {
    match op
    case Start(t, at) => Started(s, now, t, at)
    case RegisterVersion(version, config, snapshot, model) => Reregistered(s, version, config, snapshot, model)
    case RecordObservations(sessions, matured, claimed, historical, metrics) =>
      Recorded(s, sessions, matured, claimed, historical, metrics)
    case RecordSession(newlyMatured, claimed, metrics) => SessionRecorded(s, newlyMatured, claimed, metrics)
  }

  function Run(now: int, ops: seq<Op>): State {
    if ops == [] then FRESH else Apply(Run(now, ops[..|ops| - 1]), now, ops[|ops| - 1]).0
  }

  // ------------------------------------------------------------------- never too high

  function Level(status: Status): nat {
    match status case NotStarted => 0 case Collecting => 1 case Provisional => 2 case AwaitingApproval => 3
  }

  /** The gates are those of the recorded metrics, and the status never exceeds what they and the counters earn. */
  ghost predicate Sound(s: State) {
    && s.sessions >= 0 && s.matured >= 0
    && (s.gatesPass <==> s.metrics.Some? && Passes(s.metrics.value))
    && (s.terms.None? ==> s == FRESH)
    && (s.terms.Some? ==>
          && s.startedAt.Some? && s.status != NotStarted
          && Level(s.status) <= Level(StatusOf(s.sessions, s.matured, s.gatesPass)))
  }

  lemma StatusMonotone(sessions: int, matured: int, gatesPass: bool, moreSessions: int, moreMatured: int)
    requires sessions <= moreSessions && matured <= moreMatured
    ensures Level(StatusOf(sessions, matured, gatesPass)) <= Level(StatusOf(moreSessions, moreMatured, gatesPass))
  {
  }

  lemma StepSound(s: State, now: int, op: Op)
    requires Sound(s)
    ensures Sound(Apply(s, now, op).0)
  {
    hide TermsProblem, Passes;
    var after := Apply(s, now, op).0;
    if s.sessions <= after.sessions && s.matured <= after.matured {
      StatusMonotone(s.sessions, s.matured, s.gatesPass, after.sessions, after.matured);
    }
    hide StatusOf;
  }

  lemma {:induction false} RunSound(now: int, ops: seq<Op>)
    ensures Sound(Run(now, ops))
  {
    if ops != [] {
      RunSound(now, ops[..|ops| - 1]);
      StepSound(Run(now, ops[..|ops| - 1]), now, ops[|ops| - 1]);
    }
  }

  /** No run asks for approval on less than 60 sessions, 200 settled predictions and passing metrics. */
  lemma ApprovalNeedsEvidence(now: int, ops: seq<Op>)
    requires Run(now, ops).status == AwaitingApproval
    ensures var s := Run(now, ops);
      s.terms.Some? && s.sessions >= 60 && s.matured >= 200 && s.metrics.Some? && Passes(s.metrics.value)
  {
    RunSound(now, ops);
    hide Passes, Run;
  }

  function MetricsOfCall(op: Op): Option<Metrics> {
    match op
    case RecordObservations(_, _, _, _, m) => m
    case RecordSession(_, _, m) => m
    case _ => None
  }

  /** From the `k`-th call on, which brought passing metrics, the run has been waiting for approval. */
  ghost predicate EarnedBy(now: int, ops: seq<Op>, k: nat) {
    && k < |ops| && MetricsOfCall(ops[k]).Some? && Passes(MetricsOfCall(ops[k]).value)
    && forall j :: k < j <= |ops| ==> Run(now, ops[..j]).status == AwaitingApproval
  }

  lemma StepToApproval(s: State, now: int, op: Op)
    requires Sound(s) && Apply(s, now, op).0.status == AwaitingApproval
    ensures s.status == AwaitingApproval || (MetricsOfCall(op).Some? && Passes(MetricsOfCall(op).value))
  {
    hide TermsProblem, Passes;
  }

  /** Approval is only ever asked for because one call brought passing metrics. */
  lemma {:induction false} ApprovalIsEarned(now: int, ops: seq<Op>)
    requires Run(now, ops).status == AwaitingApproval
    ensures exists k: nat :: EarnedBy(now, ops, k)
  {
    var init, n := ops[..|ops| - 1], |ops| - 1;
    RunSound(now, init);
    StepToApproval(Run(now, init), now, ops[n]);
    assert ops[..|ops|] == ops;
    if MetricsOfCall(ops[n]).Some? && Passes(MetricsOfCall(ops[n]).value) {
      assert EarnedBy(now, ops, n);
    } else {
      ApprovalIsEarned(now, init);
      var k: nat :| EarnedBy(now, init, k);
      hide Run, Passes;
      forall j | k < j <= |ops| ensures Run(now, ops[..j]).status == AwaitingApproval {
        if j <= n { assert init[..j] == ops[..j]; }
      }
      assert EarnedBy(now, ops, k);
    }
  }

  /** The calls differ at most in the caller's claim about the gates, where metrics decide them, and in the
      number of historical observations. */
  ghost predicate SameEvidence(a: Op, b: Op) {
    match a
    case RecordObservations(sessions, matured, claimed, historical, metrics) =>
      && b.RecordObservations? && b.sessions == sessions && b.matured == matured && b.metrics == metrics
      && (metrics.None? ==> b.claimed == claimed) && (historical < 0 <==> b.historical < 0)
    case RecordSession(newlyMatured, claimed, metrics) =>
      && b.RecordSession? && b.newlyMatured == newlyMatured && b.sessionMetrics == metrics
      && (metrics.None? ==> b.sessionClaimed == claimed)
    case _ => a == b
  }

  lemma SameEvidenceStep(s: State, now: int, a: Op, b: Op)
    requires SameEvidence(a, b)
    ensures Apply(s, now, a) == Apply(s, now, b)
  {
    hide TermsProblem, Passes;
  }

  /** Two runs of the same evidence end alike: neither claims nor history decide anything. */
  lemma {:induction false} ClaimsChangeNothing(now: int, a: seq<Op>, b: seq<Op>)
    requires |a| == |b| && forall i :: 0 <= i < |a| ==> SameEvidence(a[i], b[i])
    ensures Run(now, a) == Run(now, b)
  {
    if a != [] {
      hide Apply, SameEvidence;
      var k := |a| - 1;
      ClaimsChangeNothing(now, a[..k], b[..k]);
      SameEvidenceStep(Run(now, a[..k]), now, a[k], b[k]);
    }
  }

  // ------------------------------------------------------------------ sometimes too low

  ghost predicate UpToDate(s: State) {
    s.terms.Some? ==> s.status == StatusOf(s.sessions, s.matured, s.gatesPass)
  }

  /** A call that claims the gates without metrics while the counters it brings would lift the status. */
  predicate LeavesStale(s: State, op: Op) {
    match op
    case RecordObservations(sessions, matured, claimed, historical, metrics) =>
      claimed && metrics.None? && s.gatesPass && CounterProblem(s, sessions, matured, historical).None? &&
      StatusOf(sessions, matured, true) != StatusOf(s.sessions, s.matured, true)
    case RecordSession(newlyMatured, claimed, metrics) =>
      claimed && metrics.None? && s.gatesPass && s.terms.Some? && newlyMatured >= 0 &&
      StatusOf(s.sessions + 1, s.matured + newlyMatured, true) != StatusOf(s.sessions, s.matured, true)
    case _ => false
  }

  /** The status follows every call except exactly those. */
  lemma StatusFollowsUnless(s: State, now: int, op: Op)
    requires Sound(s) && UpToDate(s)
    ensures UpToDate(Apply(s, now, op).0) <==> !LeavesStale(s, op)
    ensures LeavesStale(s, op) ==> Apply(s, now, op).1 == Some(MetricsRequired)
  {
    hide TermsProblem, Passes;
  }

  /** An accepted recording or registration: the calls that set the status anew. */
  predicate Refreshes(s: State, now: int, op: Op) {
    (op.RecordObservations? || op.RecordSession? || op.RegisterVersion?) && Apply(s, now, op).1.None?
  }

  /** A status that is behind catches up exactly with those calls. */
  lemma StaysBehindUnless(s: State, now: int, op: Op)
    requires Sound(s) && !UpToDate(s)
    ensures UpToDate(Apply(s, now, op).0) <==> Refreshes(s, now, op)
  {
    hide TermsProblem, Passes;
    var after := Apply(s, now, op).0;
    if s.sessions <= after.sessions && s.matured <= after.matured {
      StatusMonotone(s.sessions, s.matured, s.gatesPass, after.sessions, after.matured);
    }
  }

  /** The `k`-th call left the status behind and none since has set it anew. */
  ghost predicate BehindSince(now: int, ops: seq<Op>, k: nat) {
    && k < |ops| && LeavesStale(Run(now, ops[..k]), ops[k])
    && forall j :: k < j < |ops| ==> !Refreshes(Run(now, ops[..j]), now, ops[j])
  }

  ghost predicate LeftBehind(now: int, ops: seq<Op>) { exists k: nat :: BehindSince(now, ops, k) }

  lemma BehindSinceInit(now: int, init: seq<Op>, last: Op, k: nat)
    requires k < |init|
    ensures BehindSince(now, init + [last], k) <==>
      BehindSince(now, init, k) && !Refreshes(Run(now, init), now, last)
  {
    hide Run, Refreshes, LeavesStale;
    var ops := init + [last];
    forall j | 0 <= j <= |init| ensures ops[..j] == init[..j] {}
    assert init[..|init|] == init;
    if BehindSince(now, ops, k) {
      assert ops[|init|] == last;
      forall j | k < j < |init| ensures !Refreshes(Run(now, init[..j]), now, init[j]) { assert ops[j] == init[j]; }
    }
  }

  /** The last call leaves the status behind, or an earlier one did and the last does not set it anew. */
  lemma LeftBehindSnoc(now: int, init: seq<Op>, last: Op)
    ensures LeftBehind(now, init + [last]) <==>
      LeavesStale(Run(now, init), last) || (LeftBehind(now, init) && !Refreshes(Run(now, init), now, last))
  {
    hide Run, Refreshes, LeavesStale;
    var ops, n := init + [last], |init|;
    assert ops[..n] == init && ops[n] == last;
    assert BehindSince(now, ops, n) <==> LeavesStale(Run(now, init), last);
    if LeftBehind(now, ops) {
      var k: nat :| BehindSince(now, ops, k);
      if k < n { BehindSinceInit(now, init, last, k); }
    }
    if LeftBehind(now, init) {
      var k: nat :| BehindSince(now, init, k);
      BehindSinceInit(now, init, last, k);
    }
  }

  /** After any run the status is behind what the counters earn exactly if some call left it behind and no
      recording or registration was accepted since. */
  lemma {:induction false} StatusBehindIff(now: int, ops: seq<Op>)
    ensures !UpToDate(Run(now, ops)) <==> LeftBehind(now, ops)
  {
    if ops != [] {
      hide Run, Apply, LeavesStale, Refreshes, UpToDate, LeftBehind, Sound;
      var init, last := ops[..|ops| - 1], ops[|ops| - 1];
      assert ops == init + [last];
      var s := Run(now, init);
      StatusBehindIff(now, init);
      RunSound(now, init);
      LastStep(now, ops);
      LeftBehindSnoc(now, init, last);
      if LeavesStale(s, last) { StaleIsNoRefresh(s, now, last); }
      if UpToDate(s) { StatusFollowsUnless(s, now, last); } else { StaysBehindUnless(s, now, last); }
    }
  }

  lemma LastStep(now: int, ops: seq<Op>)
    requires ops != []
    ensures Run(now, ops) == Apply(Run(now, ops[..|ops| - 1]), now, ops[|ops| - 1]).0
  {
  }

  lemma StaleIsNoRefresh(s: State, now: int, op: Op)
    requires LeavesStale(s, op)
    ensures !Refreshes(s, now, op)
  {
    hide Passes;
  }

  const GOOD := Metrics(None, None, None, None, Some(0.1), Some(0.1), None, Some(1.0), Some(0.0))

  const TERMS := Terms(Version("m", "1", "c", "s"), None, "net_cost_return", ["brier"])

  /** Sixty sessions and two hundred settlements are recorded by a call that raises; the status stays behind. */
  lemma StatusLagsAfterARaise(now: int)
    ensures var ops := [Start(TERMS, now), RecordObservations(20, 100, true, 0, Some(GOOD)),
        RecordObservations(60, 200, true, 0, None)];
      var s := Run(now, ops);
      && s.status == Provisional && s.sessions == 60 && s.matured == 200 && s.gatesPass
      && Apply(Run(now, ops[..2]), now, ops[2]).1 == Some(MetricsRequired)
  {
    var a, b, c := Start(TERMS, now), RecordObservations(20, 100, true, 0, Some(GOOD)),
        RecordObservations(60, 200, true, 0, None);
    assert [a, b, c][..2] == [a, b] && [a, b][..1] == [a] && [a][..0] == [];
    assert Run(now, [a]) == State(Some(TERMS), Some(now), 0, 0, false, Collecting, None);
    assert Run(now, [a, b]) == State(Some(TERMS), Some(now), 20, 100, true, Provisional, Some(GOOD));
  }

  // --------------------------------------------------------------- frozen registration

  /** Everything registered except the version, which only `register_version` moves. */
  ghost predicate Frozen(before: State, after: State) {
    before.terms.Some? ==>
      && after.terms.Some? && after.startedAt == before.startedAt
      && after.terms.value.(version := before.terms.value.version) == before.terms.value
  }

  lemma StepFrozen(s: State, now: int, op: Op)
    ensures Frozen(s, Apply(s, now, op).0)
    ensures !op.RegisterVersion? && s.terms.Some? ==> Apply(s, now, op).0.terms == s.terms
  {
    hide TermsProblem, Passes;
  }

  lemma {:induction false} RunFrozen(now: int, ops: seq<Op>, k: nat)
    requires k <= |ops|
    ensures Frozen(Run(now, ops[..k]), Run(now, ops))
  {
    if k == |ops| {
      assert ops[..k] == ops;
    } else {
      var init := ops[..|ops| - 1];
      assert init[..k] == ops[..k];
      RunFrozen(now, init, k);
      StepFrozen(Run(now, init), now, ops[|ops| - 1]);
    }
  }

  lemma {:induction false} TermsStay(now: int, ops: seq<Op>, k: nat)
    requires k <= |ops| && Run(now, ops[..k]).terms.Some?
    requires forall i :: k <= i < |ops| ==> !ops[i].RegisterVersion?
    ensures Run(now, ops).terms == Run(now, ops[..k]).terms
  {
    if k == |ops| {
      assert ops[..k] == ops;
    } else {
      var init := ops[..|ops| - 1];
      assert init[..k] == ops[..k];
      hide Apply;
      TermsStay(now, init, k);
      StepFrozen(Run(now, init), now, ops[|ops| - 1]);
    }
  }

  /** The registration the contest was started with can be sent again at any later point: it
      is accepted, and changes nothing, exactly as long as its version is the current one. Nothing but a
      `register_version` ends that. */
  lemma RestartIff(now: int, ops: seq<Op>, k: nat, t: Terms, first: int, at: int)
    requires k < |ops| && ops[k] == Start(t, first)
    requires Run(now, ops[..k]).terms.None? && Apply(Run(now, ops[..k]), now, ops[k]).1.None?
    ensures var s := Run(now, ops);
      && s.terms.Some? && s.startedAt == Some(first)
      && Apply(s, now, Start(t, at)).0 == s
      && (Apply(s, now, Start(t, at)).1.None? <==> at <= now && s.terms.value.version == t.version)
      && ((forall i :: k < i < |ops| ==> !ops[i].RegisterVersion?) ==> s.terms.value.version == t.version)
  {
    var s := Run(now, ops);
    assert ops[..k + 1][..k] == ops[..k];
    assert Run(now, ops[..k + 1]).terms == Some(t);
    RunFrozen(now, ops, k + 1);
    if forall i :: k < i < |ops| ==> !ops[i].RegisterVersion? { TermsStay(now, ops, k + 1); }
    hide Run;
    assert s.terms.value.(version := t.version) == t;
    assert s.terms.value.version == t.version ==> s.terms.value == t;
  }

  lemma RunSnoc(now: int, ops: seq<Op>, op: Op)
    ensures Run(now, ops + [op]) == Apply(Run(now, ops), now, op).0
  {
    assert (ops + [op])[..|ops|] == ops;
  }

  /** Every start after the first that was accepted can be left out of a run. */
  lemma {:induction false} LaterStartsDropOut(now: int, before: seq<Op>, start: Op, after: seq<Op>)
    requires start.Start? && Run(now, before).terms.Some?
    ensures Run(now, before + [start] + after) == Run(now, before + after)
  {
    if after == [] {
      RunSnoc(now, before, start);
      assert before + [start] + after == before + [start] && before + after == before;
    } else {
      hide *;
      var init, last := after[..|after| - 1], after[|after| - 1];
      assert before + [start] + after == (before + [start] + init) + [last] &&
          before + after == (before + init) + [last];
      LaterStartsDropOut(now, before, start, init);
      RunSnoc(now, before + [start] + init, last);
      RunSnoc(now, before + init, last);
    }
  }

  lemma StepCounters(s: State, now: int, op: Op)
    requires Sound(s)
    ensures var r := Apply(s, now, op);
      (r.0.sessions >= s.sessions && r.0.matured >= s.matured) || (op.RegisterVersion? && r.1.None?)
  {
    hide TermsProblem, Passes;
  }

  /** Between two points of a run the counters only go up, unless a new version was accepted in between. */
  lemma {:induction false} CountersNeverGoBack(now: int, ops: seq<Op>, k: nat)
    requires k <= |ops|
    requires forall i :: k <= i < |ops| && ops[i].RegisterVersion? ==> Apply(Run(now, ops[..i]), now, ops[i]).1.Some?
    ensures Run(now, ops[..k]).sessions <= Run(now, ops).sessions
    ensures Run(now, ops[..k]).matured <= Run(now, ops).matured
  {
    if k == |ops| {
      assert ops[..k] == ops;
    } else {
      var n := |ops| - 1;
      var init := ops[..n];
      assert init[..k] == ops[..k];
      hide Apply, Sound;
      forall i | k <= i < n ensures init[..i] == ops[..i] {}
      CountersNeverGoBack(now, init, k);
      RunSound(now, init);
      StepCounters(Run(now, init), now, ops[n]);
    }
  }

  // ------------------------------------------------------- evidence of another version

  ghost predicate NoEvidence(s: State) {
    s.sessions == 0 && s.matured == 0 && !s.gatesPass && s.status == Collecting && s.metrics.None?
  }

  /** A new version starts without evidence unless the call named a blank model: then the old
      version's evidence, if there was any, is kept for the new one. */
  lemma NewVersionStartsOverUnless(s: State, now: int, op: Op)
    requires s.terms.Some? && Apply(s, now, op).0.terms != s.terms
    ensures op.RegisterVersion?
    ensures NoEvidence(Apply(s, now, op).0) <==> op.model != Some("") || NoEvidence(s)
    ensures op.model == Some("") <==> Apply(s, now, op).1 == Some(ModelRequired)
  {
    StepFrozen(s, now, op);
  }

  /** A version nobody observed waits for approval. */
  lemma ApprovalCarriesOver(now: int)
    ensures var ops := [Start(TERMS, now), RecordObservations(60, 200, true, 0, Some(GOOD)),
        RegisterVersion("2", "d", "t", Some(""))];
      && Run(now, ops).status == AwaitingApproval
      && Run(now, ops).terms == Some(TERMS.(version := Version("m", "2", "d", "t")))
      && Apply(Run(now, ops[..2]), now, ops[2]).1 == Some(ModelRequired)
  {
    var a, b, c := Start(TERMS, now), RecordObservations(60, 200, true, 0, Some(GOOD)),
        RegisterVersion("2", "d", "t", Some(""));
    assert [a, b, c][..2] == [a, b] && [a, b][..1] == [a] && [a][..0] == [];
    assert Run(now, [a]) == State(Some(TERMS), Some(now), 0, 0, false, Collecting, None);
    assert Run(now, [a, b]) == State(Some(TERMS), Some(now), 60, 200, true, AwaitingApproval, Some(GOOD));
  }

  // ------------------------------------------------------------------------ the object

  class ProspectiveContest {
    const now: int
    var terms: Option<Terms>
    var startedAt: Option<int>
    var futureSessions: int
    var maturedPredictions: int
    var gatesPass: bool
    var status: Status
    var metrics: Option<Metrics>

    function Current(): State
      reads this
    {
      State(terms, startedAt, futureSessions, maturedPredictions, gatesPass, status, metrics)
    }

    constructor (now: int)
      ensures this.now == now && Current() == FRESH
    {
      this.now := now;
      terms, startedAt, futureSessions, maturedPredictions, gatesPass, status, metrics := None, None, 0, 0, false,
          NotStarted, None;
    }

    method Start(t: Terms, at: int) returns (problem: Option<Problem>)
      modifies this
      ensures (Current(), problem) == Started(old(Current()), now, t, at)
    {
      problem := TermsProblem(t, at, now);
      if problem.Some? { return; }
      if terms.Some? {
        return if terms == Some(t) then None else Some(RegistrationFrozen);
      }
      terms, startedAt, status := Some(t), Some(at), Collecting;
    }

    method RegisterVersion(version: string, config: string, snapshot: string, model: Option<string>)
      returns (problem: Option<Problem>)
      modifies this
      ensures (Current(), problem) == Reregistered(old(Current()), version, config, snapshot, model)
    {
      if terms.None? { return Some(HasNotStarted); }
      if version == "" || config == "" || snapshot == "" { return Some(VersionFieldsRequired); }
      terms := Some(terms.value.(version := Version(terms.value.version.model, version, config, snapshot)));
      if model.Some? {
        if model.value == "" { return Some(ModelRequired); }
        terms := Some(terms.value.(version := terms.value.version.(model := model.value)));
      }
      futureSessions, maturedPredictions, gatesPass, status, metrics := 0, 0, false, Collecting, None;
      problem := None;
    }

    method RecordObservations(sessions: int, matured: int, claimed: bool, historical: int, m: Option<Metrics>)
      returns (problem: Option<Problem>)
      modifies this
      ensures (Current(), problem) == Recorded(old(Current()), sessions, matured, claimed, historical, m)
    {
      problem := CounterProblem(Current(), sessions, matured, historical);
      if problem.Some? { return; }
      futureSessions, maturedPredictions := sessions, matured;
      if m.None? && claimed { return Some(MetricsRequired); }
      gatesPass := m.Some? && Passes(m.value);
      metrics := m;
      RefreshStatus();
    }

    method RefreshStatus()
      modifies this`status
      ensures status == StatusOf(futureSessions, maturedPredictions, gatesPass)
    {
      if futureSessions >= 60 && maturedPredictions >= 200 && gatesPass {
        status := AwaitingApproval;
      } else if gatesPass && futureSessions >= 20 && maturedPredictions >= 100 {
        status := Provisional;
      } else {
        status := Collecting;
      }
    }

    method RecordSession(newlyMatured: int, claimed: bool, m: Option<Metrics>) returns (problem: Option<Problem>)
      modifies this
      ensures (Current(), problem) == SessionRecorded(old(Current()), newlyMatured, claimed, m)
    {
      if terms.None? { return Some(HasNotStarted); }
      if newlyMatured < 0 { return Some(NegativeCounter); }
      problem := RecordObservations(futureSessions + 1, maturedPredictions + newlyMatured, claimed, 0, m);
    }
  }
}
