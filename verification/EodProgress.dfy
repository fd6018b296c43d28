/** What the end-of-day coordinator is sure to do: requested refreshes start, failed ones are tried again
    as soon as they are due and as often as allowed, and successes are kept. */
module EodProgress {
  import opened Wrappers
  import opened Basics
  import opened EodModel
  import opened EodSafety

  // --------------------------------------------------------------------------- delays

  /** The first retry waits the base delay; every later one twice as long as the one before, up to the maximum. */
  lemma DelaysDouble(l: Limits, attempt: nat)
    requires ValidLimits(l) && attempt >= 1
    ensures Delay(l, 1) == l.retryBase
    ensures Delay(l, attempt + 1) == Min(2.0 * Delay(l, attempt), l.retryMax)
  {
    var x := Pow2(attempt - 1);
    assert Pow2(0) == 1.0 && Pow2(attempt) == 2.0 * x;
    Pow2Grows(attempt - 1, attempt - 1);
    assert l.retryBase * (2.0 * x) == 2.0 * (l.retryBase * x);
    assert l.retryBase * x >= 0.0;
  }

  // ------------------------------------------------------------------------- requests

  /** Nothing holds the coordinator back, nor this day: no refresh in flight, not stopped, neither of the two
      pauses, no rejected checkpoint, and the day not blocked. */
  ghost predicate FreeFor(w: World, day: int) {
    && w.runs == map[] && !w.mem.stop && w.mem.blockedTarget != Some(day) && w.mem.error != Some(CheckpointRejected)
    && (w.mem.status == Blocked ==>
          w.mem.error != Some(PermissionDenied) && w.mem.error != Some(CheckpointWriteFailed))
  }

  /** In every run: a requested day is refreshed as soon as anybody looks, whatever was attempted before. */
  lemma RequestedRefreshStarts(l: Limits, events: seq<Event>, day: int, thread: nat, current: real, saved: bool)
    requires ValidLimits(l) && FreeFor(Run(l, events).world, day) && current <= Run(l, events).world.clock
    ensures var w := Run(l, events + [Request(day, true)]).world;
      && Starts(l, w, Begin(thread, day, current, saved))
      && (saved ==>
            var p := Next(l, w, Begin(thread, day, current, saved)).runs[thread]; p.Refreshing? && p.target == day)
  {
    RunKeeps(l, events);
    RunSnoc(l, events, Request(day, true));
    hide Run, Observe, Persisted;
  }

  // -------------------------------------------------------------------------- retries

  /** The day of a refresh in flight is neither completed nor blocked. */
  ghost predicate FlightOpen(w: World) {
    forall t :: t in w.runs && !w.runs[t].Aborting? ==>
      w.runs[t].target !in w.mem.completed && w.mem.blockedTarget != Some(w.runs[t].target)
  }

  lemma StepOpen(l: Limits, s: System, e: Event)
    requires Invariant(l, s) && FlightOpen(s.world)
    ensures FlightOpen(Next(l, s.world, e))
  {
    hide Persisted, Restored, Delay;
    assert SingleFlight(s.world);
    hide Invariant;
  }

  lemma {:induction false} RunOpen(l: Limits, events: seq<Event>)
    requires ValidLimits(l)
    ensures FlightOpen(Run(l, events).world)
  {
    if events != [] {
      RunOpen(l, events[..|events| - 1]);
      RunKeeps(l, events[..|events| - 1]);
      hide Invariant, FlightOpen, Next, Observe;
      StepOpen(l, Run(l, events[..|events| - 1]), events[|events| - 1]);
    }
  }

  /** A refresh is about to be recorded as failed, no request came since it began, attempts are left and the
      coordinator is not stopping. */
  ghost predicate MayRetry(l: Limits, s: System, thread: nat) {
    && thread in s.world.runs && s.world.runs[thread].Recording? && s.history.asked.None?
    && s.world.mem.attempts < l.maximumAttempts && !s.world.mem.stop
  }

  /** In every run: once a failure is saved, the refresh is tried again exactly from the due time on. */
  lemma RetryStartsWhenDue(l: Limits, events: seq<Event>, thread: nat, current: real, denied: bool, now: real,
      other: nat, later: real, saved: bool)
    requires ValidLimits(l) && MayRetry(l, Run(l, events), thread) && current <= Run(l, events).world.clock
    requires later <= Run(l, events + [RecordFailure(thread, current, true, denied)] + [Tick(now)]).world.clock
    ensures var p := Run(l, events).world.runs[thread];
      var w := Run(l, events + [RecordFailure(thread, current, true, denied)] + [Tick(now)]).world;
      Starts(l, w, Begin(other, p.target, later, saved)) <==> later >= current + Delay(l, p.attempt)
  {
    RunKeeps(l, events);
    RunOpen(l, events);
    RunSnoc(l, events, RecordFailure(thread, current, true, denied));
    RunSnoc(l, events + [RecordFailure(thread, current, true, denied)], Tick(now));
    hide Run, Observe, Persisted, Delay;
    FailureLeavesRetry(l, Run(l, events), thread, current, denied);
    var failed := Next(l, Run(l, events).world, RecordFailure(thread, current, true, denied));
    hide Invariant, MayRetry;
    assert Next(l, failed, Tick(now)).mem == failed.mem && Next(l, failed, Tick(now)).runs == failed.runs;
  }

  lemma FailureLeavesRetry(l: Limits, s: System, thread: nat, current: real, denied: bool)
    requires Invariant(l, s) && FlightOpen(s.world) && MayRetry(l, s, thread) && current <= s.world.clock
    ensures var p, w := s.world.runs[thread], Next(l, s.world, RecordFailure(thread, current, true, denied));
      && w.runs == map[] && !w.mem.runLock && !w.mem.stop && w.mem.status == Failed
      && w.mem.pending == Some(p.target) && w.mem.attempts < l.maximumAttempts
      && w.mem.nextRetry == Some(current + Delay(l, p.attempt))
      && p.target !in w.mem.completed && w.mem.blockedTarget != Some(p.target)
  {
    hide Persisted, Delay;
    assert InFlight(s.world.mem, s.history, s.world.runs[thread]);
    forall t | t in s.world.runs ensures t == thread {}
    assert s.world.runs - {thread} == map[];
  }

  // --------------------------------------------------------------- all attempts are used

  /** The time of the `k`-th attempt from `since` on, when every delay has passed. */
  function Later(l: Limits, since: real, k: nat): real { since + Times(k as real, l.retryMax) }

  /** One failing attempt at a day. */
  function Attempt(day: int, t: real): seq<Event> {
    [Tick(t), Begin(0, day, t, true), ReportFailure(0, Other("")), RecordFailure(0, t, true, false)]
  }

  /** The day is requested, then refreshed in vain `n` times. */
  function Attempts(l: Limits, events: seq<Event>, day: int, since: real, n: nat): seq<Event> {
    if n == 0 then events + [Request(day, true)]
    else Attempts(l, events, day, since, n - 1) + Attempt(day, Later(l, since, n - 1))
  }

  /** Ready for another attempt after `n` of them. */
  ghost predicate Tried(l: Limits, s: System, day: int, n: nat, until: real) {
    var m := s.world.mem;
    && s.world.runs == map[] && !m.runLock && !m.stop && m.status != Blocked && day !in m.completed
    && m.blockedTarget != Some(day) && m.pending == Some(day) && m.attempts == n && s.history.calls == n
    && s.world.clock <= until && (m.nextRetry.Some? ==> m.nextRetry.value <= until)
  }

  /** In the middle of the attempt after `n` of them. */
  ghost predicate Trying(s: System, day: int, n: nat, t: real) {
    var m := s.world.mem;
    && s.world.runs == map[0 := Refreshing(day, m.revision, n + 1)] && s.world.clock == t
    && m.runLock && !m.stop && m.status != Blocked && day !in m.completed && m.blockedTarget != Some(day)
    && m.pending == Some(day) && m.attempts == n + 1 && s.history.calls == n + 1 && s.history.asked.None?
  }

  ghost function Advance2(l: Limits, s: System, a: Event, b: Event): System { Advance(l, Advance(l, s, a), b) }

  /** The first two events of an attempt: the clock moves on, the refresh starts. */
  lemma AttemptBegins(l: Limits, s: System, day: int, n: nat, t: real)
    requires Tried(l, s, day, n, t) && n < l.maximumAttempts
    ensures Trying(Advance2(l, s, Tick(t), Begin(0, day, t, true)), day, n, t)
  {
    hide Persisted;
  }

  lemma AttemptFails(l: Limits, u: System, day: int, n: nat, t: real)
    requires Trying(u, day, n, t)
    requires 0.0 <= Delay(l, n + 1) <= l.retryMax
    ensures Tried(l, Advance2(l, u, ReportFailure(0, Other("")), RecordFailure(0, t, true, false)), day, n + 1,
        t + l.retryMax)
  {
    hide Persisted, Delay;
  }

  lemma RunFour(l: Limits, events: seq<Event>, a: Event, b: Event, c: Event, d: Event)
    ensures Run(l, events + [a, b, c, d]) == Advance2(l, Advance2(l, Run(l, events), a, b), c, d)
  {
    hide Run, Advance;
    RunSnoc(l, events, a);
    RunSnoc(l, events + [a], b);
    RunSnoc(l, events + [a] + [b], c);
    RunSnoc(l, events + [a] + [b] + [c], d);
    assert events + [a, b, c, d] == events + [a] + [b] + [c] + [d];
  }

  lemma RequestedReady(l: Limits, events: seq<Event>, day: int)
    requires ValidLimits(l) && FreeFor(Run(l, events).world, day)
    ensures Tried(l, Run(l, events + [Request(day, true)]), day, 0, Run(l, events).world.clock)
  {
    RunKeeps(l, events);
    assert SingleFlight(Run(l, events).world);
    RunSnoc(l, events, Request(day, true));
    hide Run, Persisted, Invariant;
  }

  lemma {:induction false} AttemptsTried(l: Limits, events: seq<Event>, day: int, n: nat)
    requires ValidLimits(l) && FreeFor(Run(l, events).world, day) && n <= l.maximumAttempts
    ensures var since := Run(l, events).world.clock;
      Tried(l, Run(l, Attempts(l, events, day, since, n)), day, n, Later(l, since, n))
  {
    var since := Run(l, events).world.clock;
    if n == 0 {
      RequestedReady(l, events, day);
      hide Run, Tried;
      assert Later(l, since, 0) == since;
    } else {
      AttemptsTried(l, events, day, n - 1);
      var t := Later(l, since, n - 1);
      hide Run, Tried, Trying, Advance2, Delay, Times;
      var before := Attempts(l, events, day, since, n - 1);
      RunFour(l, before, Tick(t), Begin(0, day, t, true), ReportFailure(0, Other("")),
          RecordFailure(0, t, true, false));
      AttemptBegins(l, Run(l, before), day, n - 1, t);
      DelayGrows(l, n, n);
      AttemptFails(l, Advance2(l, Run(l, before), Tick(t), Begin(0, day, t, true)), day, n - 1, t);
      OneMore(n - 1, l.retryMax);
    }
  }

  /** In every run: the budget can be used up. Once a day is requested, as many refreshes start as are allowed if
      each fails and the next is tried when every delay has passed; then no refresh of that day starts any more. */
  lemma BudgetIsUsed(l: Limits, events: seq<Event>, day: int, thread: nat, current: real, saved: bool)
    requires ValidLimits(l) && FreeFor(Run(l, events).world, day)
    ensures var s := Run(l, Attempts(l, events, day, Run(l, events).world.clock, l.maximumAttempts));
      s.history.calls == l.maximumAttempts && !Starts(l, s.world, Begin(thread, day, current, saved))
  {
    AttemptsTried(l, events, day, l.maximumAttempts);
    hide Run, Attempts;
  }

  // ------------------------------------------------------------------------ successes

  /** Of many completed days the latest are kept; of few, all. */
  lemma LatestAreLatest(days: set<int>, n: nat)
    ensures forall d, e :: d in Latest(days, n) && e in days - Latest(days, n) ==> e < d
    ensures |days| <= n ==> Latest(days, n) == days
  {
    forall d, e | d in Latest(days, n) && e in days - Latest(days, n) ensures e < d {
      if d < e { RankDrops(days, d, e); }
    }
    if |days| <= n {
      forall d | d in days ensures d in Latest(days, n) {
        var above := set e | e in days && e > d;
        SubsetSize(above + {d}, days);
      }
    }
  }

  /** In every run: a refresh that succeeds with no request since it began completes its day, in memory and, among
      the latest 64, on disk; nothing is pending any more, and the day is not refreshed again. */
  lemma SuccessCompletes(l: Limits, events: seq<Event>, thread: nat, other: nat, current: real, saved: bool)
    requires ValidLimits(l) && thread in Run(l, events).world.runs && Run(l, events).world.runs[thread].Refreshing?
    requires Run(l, events).history.asked.None?
    ensures var day, w := Run(l, events).world.runs[thread].target,
        Run(l, events + [ReportSuccess(thread, true)]).world;
      && w.runs == map[] && day in w.mem.completed && w.mem.pending.None? && w.mem.lastSuccessDay == Some(day)
      && w.disk.Some? && w.disk.value.completed == Latest(w.mem.completed, 64)
      && (|w.mem.completed| <= 64 ==> day in w.disk.value.completed)
      && !Starts(l, w, Begin(other, day, current, saved))
  {
    RunKeeps(l, events);
    RunSnoc(l, events, ReportSuccess(thread, true));
    hide Run, Observe, Latest;
    var w := Run(l, events).world;
    assert InFlight(w.mem, Run(l, events).history, w.runs[thread]);
    forall t | t in w.runs ensures t == thread {}
    assert w.runs - {thread} == map[];
    LatestAreLatest(Next(l, w, ReportSuccess(thread, true)).mem.completed, 64);
  }

  /** A restart forgets no completed day that is still accepted, and nothing else the checkpoint holds. */
  lemma RestartKeepsCompletions(l: Limits, events: seq<Event>, valid: set<int>)
    requires ValidLimits(l) && Run(l, events).world.disk.Some?
    ensures var c, w := Run(l, events).world.disk.value, Run(l, events + [Restart(valid)]).world;
      && w.mem.completed == c.completed * valid && w.mem.pending == c.pending &&
          w.mem.lastSuccessDay == c.lastSuccessDay
      && w.runs == map[] && (w.mem.status == if c.status == Running then Waiting else c.status)
  {
    RunKeeps(l, events);
    RunSnoc(l, events, Restart(valid));
    hide Run, Observe;
  }
}
