/** What every run of the end-of-day coordinator keeps. */
module EodSafety {
  import opened Wrappers
  import opened Basics
  import opened EodModel

  /** What an outside observer notes down; none of it is read by the coordinator. */
  datatype History = History(
    calls: nat,               // refreshes started since the last target change or granted request
    lastDelay: real,          // the last saved retry delay in the same span
    notBefore: Option<real>,  // the retry time last saved, while nothing has superseded it
    asked: Option<int>,       // the last day requested since the refresh in flight began
    owed: set<int>,           // days with a saved request and no refresh begun after it that succeeded
    owedNow: set<int>,        // the same for requests of this process, saved or not
    refreshed: set<int>)      // days whose refresh succeeded with no request since it began

  datatype System = System(world: World, history: History)

  const START := System(World(FRESH, map[], None, 0.0), History(0, 0.0, None, None, {}, {}, {}))

  function AfterRequest(m: Memory, h: History, target: int, saved: bool): History {
    h.(calls := if Paused(m) then h.calls else 0, lastDelay := if Paused(m) then h.lastDelay else 0.0,
       notBefore := None, asked := Some(target), owedNow := h.owedNow + {target},
       owed := if saved then h.owed + {target} else h.owed)
  }

  ghost function Observe(l: Limits, w: World, h: History, e: Event): History {
    match e
    case Request(target, saved) =>
      if w.mem.error == Some(CheckpointRejected) then h else AfterRequest(w.mem, h, target, saved)
    case Review(session, saved) =>
      if ReviewRefused(w.mem) || session.None? then h else AfterRequest(Unblocked(w.mem), h, session.value, saved)
    case Begin(thread, target, current, saved) =>
      if thread in w.runs || current > w.clock || !MayBegin(l, w.mem, target, current) then h
      else
        var same := w.mem.pending == Some(target);
        h.(calls := (if same then h.calls else 0) + (if saved then 1 else 0),
           lastDelay := if same then h.lastDelay else 0.0, notBefore := None, asked := None)
    case ReportSuccess(thread, saved) =>
      if thread !in w.runs || !w.runs[thread].Refreshing? || h.asked.Some? then h
      else
        var day := w.runs[thread].target;
        h.(refreshed := h.refreshed + {day}, owed := h.owed - {day}, owedNow := h.owedNow - {day})
    case RecordFailure(thread, current, saved, denied) =>
      if thread !in w.runs || !w.runs[thread].Recording? || current > w.clock || h.asked.Some? ||
         !saved || w.mem.attempts >= l.maximumAttempts then h
      else
        var delay := Delay(l, w.runs[thread].attempt);
        h.(notBefore := Some(current + delay), lastDelay := delay)
    case Restart(valid) => h.(owedNow := h.owed, asked := None)
    case _ => h
  }

  ghost function Advance(l: Limits, s: System, e: Event): System {
    System(Next(l, s.world, e), Observe(l, s.world, s.history, e))
  }

  ghost function Run(l: Limits, events: seq<Event>): System {
    if events == [] then START else Advance(l, Run(l, events[..|events| - 1]), events[|events| - 1])
  }

  // ------------------------------------------------------------------ invariants

  /** At most one thread is inside `_run_target`, exactly while the run lock is held. */
  ghost predicate SingleFlight(w: World) {
    && (w.mem.runLock <==> w.runs != map[])
    && (forall a, b :: a in w.runs && b in w.runs ==> a == b)
  }

  /** The revision says exactly whether a request came since the refresh in flight began; if not,
      its attempt and target are still the current ones, if so the request's day is pending. */
  ghost predicate InFlight(m: Memory, h: History, p: Phase) {
    !p.Aborting? ==>
      && p.revision <= m.revision && (p.revision == m.revision <==> h.asked.None?)
      && (h.asked.None? ==> m.attempts == p.attempt && m.pending == Some(p.target))
      && (h.asked.Some? ==> m.pending == h.asked && h.asked.value !in m.completed)
  }

  ghost predicate FlightKnown(w: World, h: History) {
    forall t :: t in w.runs ==> InFlight(w.mem, h, w.runs[t])
  }

  ghost predicate WithinBudget(l: Limits, w: World, h: History) {
    && h.calls <= w.mem.attempts <= l.maximumAttempts
    && (w.disk.Some? ==> h.calls <= w.disk.value.attempts <= l.maximumAttempts)
    && (w.disk.None? ==> h.calls == 0 && h.lastDelay == 0.0)
  }

  ghost predicate DelaysKnown(l: Limits, w: World, h: History) {
    0.0 <= h.lastDelay <= Delay(l, w.mem.attempts) &&
    (w.disk.Some? ==> h.lastDelay <= Delay(l, w.disk.value.attempts))
  }

  ghost predicate RetryTimeKept(w: World, h: History) {
    h.notBefore.Some? ==>
      w.runs == map[] && w.mem.nextRetry == h.notBefore && w.disk.Some? && w.disk.value.nextRetry == h.notBefore
  }

  ghost predicate CompletionsEarned(w: World, h: History) {
    && w.mem.completed <= h.refreshed && w.mem.completed !! h.owedNow && h.owed <= h.owedNow
    && (w.disk.Some? ==> w.disk.value.completed <= h.refreshed && w.disk.value.completed !! h.owed)
  }

  ghost predicate Restartable(l: Limits, w: World) {
    && (w.mem.lastAttempt.Some? ==> w.mem.lastAttempt.value <= w.clock)
    && (w.disk.Some? ==>
          |w.disk.value.completed| <= 64 &&
              (w.disk.value.lastAttempt.Some? ==> w.disk.value.lastAttempt.value <= w.clock))
  }

  ghost predicate Invariant(l: Limits, s: System) {
    && SingleFlight(s.world) && FlightKnown(s.world, s.history) && WithinBudget(l, s.world, s.history)
    && DelaysKnown(l, s.world, s.history) && RetryTimeKept(s.world, s.history)
    && CompletionsEarned(s.world, s.history) && Restartable(l, s.world)
  }

  // -------------------------------------------------------------- supporting facts

  /** A checkpoint never holds more completed days than it may be restored with. */
  lemma {:induction false} LatestSize(days: set<int>, n: nat)
    ensures Latest(days, n) <= days && |Latest(days, n)| <= n
  {
    if n == 0 {
      assert Latest(days, 0) == {};
    } else {
      LatestSize(days, n - 1);
      var fewer, more := Latest(days, n - 1), Latest(days, n);
      forall a, b | a in more - fewer && b in more - fewer ensures a == b {
        if a < b { RankDrops(days, a, b); } else if b < a { RankDrops(days, b, a); }
      }
      assert fewer <= more;
      AtMostOne(more - fewer);
      assert more == fewer + (more - fewer);
    }
  }

  lemma RankDrops(days: set<int>, a: int, b: int)
    requires a in days && b in days && a < b
    ensures |set e | e in days && e > b| < |set e | e in days && e > a|
  {
    var above, below := set e | e in days && e > b, set e | e in days && e > a;
    assert above + {b} <= below;
    SubsetSize(above + {b}, below);
  }

  lemma AtMostOne<T>(days: set<T>)
    requires forall a, b :: a in days && b in days ==> a == b
    ensures |days| <= 1
  {
    if days != {} {
      var x :| x in days;
      forall d | d in days ensures d == x {}
      SubsetSize(days, {x});
    }
  }

  lemma {:induction false} Pow2Grows(a: nat, b: nat)
    requires a <= b
    ensures 1.0 <= Pow2(a) <= Pow2(b)
  {
    if a < b { Pow2Grows(a, b - 1); }
    else if a > 0 { Pow2Grows(a - 1, a - 1); }
  }

  /** Later attempts never wait less. */
  lemma DelayGrows(l: Limits, a: nat, b: nat)
    requires ValidLimits(l) && a <= b
    ensures 0.0 <= Delay(l, a) <= Delay(l, b) <= l.retryMax
  {
    var x, y := if a == 0 then 0 else a - 1, if b == 0 then 0 else b - 1;
    Pow2Grows(x, y);
    assert l.retryBase * (Pow2(y) - Pow2(x)) >= 0.0 && l.retryBase * Pow2(x) >= 0.0;
  }

  // ------------------------------------------------------------------ every step

  /** A checkpoint written from sound memory is sound itself. */
  lemma WriteKeeps(l: Limits, w: World, h: History, m: Memory, saved: bool)
    requires h.calls <= m.attempts <= l.maximumAttempts && 0.0 <= h.lastDelay <= Delay(l, m.attempts)
    requires m.completed <= h.refreshed && m.completed !! h.owedNow && h.owed <= h.owedNow
    requires m.lastAttempt.Some? ==> m.lastAttempt.value <= w.clock
    requires !saved ==> WithinBudget(l, w.(mem := m), h) && DelaysKnown(l, w.(mem := m), h) &&
                        CompletionsEarned(w.(mem := m), h) && Restartable(l, w.(mem := m))
    ensures var after := Write(w, m, saved);
      WithinBudget(l, after, h) && DelaysKnown(l, after, h) && CompletionsEarned(after, h) && Restartable(l, after)
  {
    hide Delay, Latest;
    if saved { LatestSize(m.completed, 64); }
  }

  lemma RequestKeeps(l: Limits, s: System, m: Memory, target: int, saved: bool)
    requires ValidLimits(l) && Invariant(l, s)
    requires m == s.world.mem || (m == Unblocked(s.world.mem) && s.world.runs == map[])
    ensures Invariant(l, System(Write(s.world, Requested(m, target), saved), AfterRequest(m, s.history, target, saved)))
  {
    var w, h := s.world, s.history;
    var after := AfterRequest(m, h, target, saved);
    DelayGrows(l, 0, 0);
    if w.disk.Some? { DelayGrows(l, 0, w.disk.value.attempts); }
    hide Delay, Latest;
    WriteKeeps(l, w, after, Requested(m, target), saved);
  }

  lemma BeginKeeps(l: Limits, s: System, thread: nat, target: int, current: real, saved: bool)
    requires ValidLimits(l) && Invariant(l, s)
    ensures Invariant(l, Advance(l, s, Begin(thread, target, current, saved)))
  {
    var w, h, e := s.world, s.history, Begin(thread, target, current, saved);
    if thread !in w.runs && current <= w.clock && MayBegin(l, w.mem, target, current) {
      var m, after := Begun(w.mem, target, current), Observe(l, w, h, e);
      DelayGrows(l, w.mem.attempts, w.mem.attempts + 1);
      DelayGrows(l, 0, 1);
      if w.disk.Some? { DelayGrows(l, 0, w.disk.value.attempts); }
      hide Delay, Latest;
      WriteKeeps(l, w, after, m, saved);
    }
  }

  lemma SuccessKeeps(l: Limits, s: System, thread: nat, saved: bool)
    requires ValidLimits(l) && Invariant(l, s)
    ensures Invariant(l, Advance(l, s, ReportSuccess(thread, saved)))
  {
    var w, h, e := s.world, s.history, ReportSuccess(thread, saved);
    if thread in w.runs && w.runs[thread].Refreshing? {
      var p := w.runs[thread];
      hide Delay, Latest;
      WriteKeeps(l, w, Observe(l, w, h, e), Finished(w.mem, p.target, p.revision), saved);
    }
  }

  lemma ExceptionKeeps(l: Limits, s: System, thread: nat, name: Code, saved: bool)
    requires ValidLimits(l) && Invariant(l, s)
    ensures Invariant(l, Advance(l, s, HandleException(thread, name, saved)))
  {
    var w, h := s.world, s.history;
    if thread in w.runs && w.runs[thread].Caught? {
      hide Delay, Latest;
      WriteKeeps(l, w, h, Denied(w.mem, w.runs[thread].target), saved);
    }
  }

  lemma RecordKeeps(l: Limits, s: System, thread: nat, current: real, saved: bool, denied: bool)
    requires ValidLimits(l) && Invariant(l, s)
    ensures Invariant(l, Advance(l, s, RecordFailure(thread, current, saved, denied)))
  {
    var w, h, e := s.world, s.history, RecordFailure(thread, current, saved, denied);
    if thread in w.runs && w.runs[thread].Recording? && current <= w.clock {
      var p := w.runs[thread];
      DelayGrows(l, w.mem.attempts, w.mem.attempts);
      hide Delay, Latest;
      WriteKeeps(l, w, Observe(l, w, h, e), FailureRecorded(l, w.mem, p.revision, p.attempt, current), saved);
    }
  }

  lemma CalendarKeeps(l: Limits, s: System, saved: bool)
    requires ValidLimits(l) && Invariant(l, s)
    ensures Invariant(l, Advance(l, s, CalendarFailure(saved)))
  {
    if !s.world.mem.stop {
      hide Delay, Latest;
      WriteKeeps(l, s.world, s.history, CalendarFailed(s.world.mem, saved), saved);
    }
  }

  lemma RestartKeeps(l: Limits, s: System, valid: set<int>)
    requires ValidLimits(l) && Invariant(l, s)
    ensures Invariant(l, Advance(l, s, Restart(valid)))
  {
    DelayGrows(l, 0, 0);
    hide Delay, Latest;
  }

  /** Steps that write no checkpoint and finish no refresh. */
  lemma QuietKeeps(l: Limits, s: System, e: Event)
    requires ValidLimits(l) && Invariant(l, s)
    requires e.Tick? || e.ReportFailure? || e.Raise? || e.Abort? || e.Stop? || e.Start?
    ensures Invariant(l, Advance(l, s, e))
  {
    hide Delay, Latest;
  }

  lemma ReviewKeeps(l: Limits, s: System, session: Option<int>, saved: bool)
    requires ValidLimits(l) && Invariant(l, s)
    ensures Invariant(l, Advance(l, s, Review(session, saved)))
  {
    hide Delay, Latest;
    if session.Some? && !ReviewRefused(s.world.mem) {
      RequestKeeps(l, s, Unblocked(s.world.mem), session.value, saved);
    }
  }

  lemma StepKeeps(l: Limits, s: System, e: Event)
    requires ValidLimits(l) && Invariant(l, s)
    ensures Invariant(l, Advance(l, s, e))
  {
    match e {
      case Request(target, saved) => RequestKeeps(l, s, s.world.mem, target, saved);
      case _ =>
        hide Invariant, Advance;
        match e {
          case Review(session, saved) => ReviewKeeps(l, s, session, saved);
          case Begin(thread, target, current, saved) => BeginKeeps(l, s, thread, target, current, saved);
          case ReportSuccess(thread, saved) => SuccessKeeps(l, s, thread, saved);
          case HandleException(thread, name, saved) => ExceptionKeeps(l, s, thread, name, saved);
          case RecordFailure(thread, current, saved, denied) => RecordKeeps(l, s, thread, current, saved, denied);
          case CalendarFailure(saved) => CalendarKeeps(l, s, saved);
          case Restart(valid) => RestartKeeps(l, s, valid);
          case Request(target, saved) =>
          case _ => QuietKeeps(l, s, e);
        }
    }
  }

  /** Over any mix of requests, refreshes, failures, unsaved checkpoints, crashes and restarts. */
  lemma {:induction false} RunKeeps(l: Limits, events: seq<Event>)
    requires ValidLimits(l)
    ensures Invariant(l, Run(l, events))
  {
    if events == [] {
      DelayGrows(l, 0, 0);
    } else {
      RunKeeps(l, events[..|events| - 1]);
      StepKeeps(l, Run(l, events[..|events| - 1]), events[|events| - 1]);
    }
  }

  // --------------------------------------------------------------- main results

  /** This step starts a refresh (or at least takes the run lock to do so). */
  ghost predicate Starts(l: Limits, w: World, e: Event) {
    e.Begin? && e.thread !in w.runs && e.thread in Next(l, w, e).runs
  }

  /** Crash-safe retry budget: however failures, crashes and restarts fall, no more refreshes start
      for one request and target than the limit. */
  lemma RetryBudget(l: Limits, events: seq<Event>)
    requires ValidLimits(l)
    ensures Run(l, events).history.calls <= l.maximumAttempts
  {
    RunKeeps(l, events);
  }

  /** No refresh starts before the retry time that was last saved, across restarts too. */
  lemma NoEarlyRetry(l: Limits, events: seq<Event>, e: Event)
    requires ValidLimits(l) && Starts(l, Run(l, events).world, e)
    ensures var w, due := Run(l, events).world, Run(l, events).history.notBefore;
      due.Some? && w.mem.pending == Some(e.target) ==> due.value <= e.current <= w.clock
  {
    RunKeeps(l, events);
  }

  /** Delays saved one after another for one request and target never shrink. */
  lemma BackoffNeverShrinks(l: Limits, events: seq<Event>, e: Event)
    requires ValidLimits(l) && e.RecordFailure?
    ensures Run(l, events + [e]).history.lastDelay >= Run(l, events).history.lastDelay
  {
    assert (events + [e])[..|events|] == events;
    RunKeeps(l, events);
  }

  /** A completed day, in memory or on disk, had a refresh that succeeded with no request since it
      began, and none that was requested and saved afterwards. At most one refresh is in flight. */
  lemma NoFabricatedCompletion(l: Limits, events: seq<Event>, day: int)
    requires ValidLimits(l)
    ensures var w, h := Run(l, events).world, Run(l, events).history;
      && SingleFlight(w)
      && (day in w.mem.completed ==> day in h.refreshed && day !in h.owedNow)
      && (w.disk.Some? && day in w.disk.value.completed ==> day in h.refreshed && day !in h.owed)
  {
    RunKeeps(l, events);
  }

  /** The steps that end a refresh with its outcome saved. */
  ghost predicate EndsSaved(w: World, e: Event) {
    match e
    case ReportSuccess(thread, saved) => saved && thread in w.runs && w.runs[thread].Refreshing?
    case RecordFailure(thread, current, saved, denied) =>
      saved && thread in w.runs && w.runs[thread].Recording? && current <= w.clock
    case HandleException(thread, name, saved) =>
      saved && thread in w.runs && w.runs[thread].Caught? && w.runs[thread].denied
    case _ => false
  }

  /** A request that arrives during a refresh is still pending when the refresh ends, whatever its
      outcome, and its day is not completed, in memory or on disk. */
  lemma RequestOutlivesRefresh(l: Limits, events: seq<Event>, e: Event)
    requires ValidLimits(l)
    requires Run(l, events).history.asked.Some? && EndsSaved(Run(l, events).world, e)
    ensures var day, after := Run(l, events).history.asked.value, Next(l, Run(l, events).world, e);
      && after.runs == map[] && !after.mem.runLock
      && after.mem.pending == Some(day) && day !in after.mem.completed
      && after.disk.Some? && after.disk.value.pending == Some(day) && day !in after.disk.value.completed
  {
    RunKeeps(l, events);
    hide Delay;
  }

  /** A restart never rejects a checkpoint the coordinator itself wrote under the same limits. */
  lemma RestartIsAccepted(l: Limits, events: seq<Event>, valid: set<int>)
    requires ValidLimits(l)
    ensures var w := Run(l, events).world;
      var m := Restored(l, w.disk, valid, w.clock);
      && !m.stop
      && (w.disk.Some? ==>
            && m.pending == w.disk.value.pending && m.attempts == w.disk.value.attempts
            && m.nextRetry == w.disk.value.nextRetry && m.blockedTarget == w.disk.value.blockedTarget
            && m.error == w.disk.value.error && m.status != Running)
  {
    RunKeeps(l, events);
    hide Latest, Delay;
  }

  // ------------------------------------------------------------------ the pause

  /** Paused with no refresh in flight, and so is whatever a restart would find; the checkpoint will be accepted. */
  ghost predicate PausedForGood(l: Limits, w: World) {
    && Paused(w.mem) && w.runs == map[]
    && w.disk.Some? && PausedOnDisk(w.disk.value) && w.disk.value.attempts <= l.maximumAttempts
    && w.mem.attempts <= l.maximumAttempts && Restartable(l, w)
  }

  ghost predicate PausedOnDisk(c: Checkpoint) {
    c.status == Blocked && (c.error == Some(PermissionDenied) || c.error == Some(CheckpointWriteFailed))
  }

  /** The two ways out of a pause: a review that is granted, and a calendar failure that is saved. */
  predicate Lifts(m: Memory, e: Event) {
    match e
    case Review(session, saved) => !ReviewRefused(m)
    case CalendarFailure(saved) => saved && !m.stop
    case _ => false
  }

  /** Any one step keeps the pause, crashes and restarts included, exactly if it is not a way out; no step of
      a paused coordinator starts a refresh. */
  lemma PauseHoldsIff(l: Limits, w: World, e: Event)
    requires PausedForGood(l, w)
    ensures PausedForGood(l, Next(l, w, e)) <==> !Lifts(w.mem, e)
    ensures !Starts(l, w, e)
  {
    LatestSize(w.mem.completed, 64);
    match e {
      case Request(target, saved) => LatestSize(w.mem.completed - {target}, 64);
      case _ =>
    }
    hide Delay, Latest;
  }

  /** A pause that was not saved, after a failed checkpoint write, ends with the process as well: in every run,
      with no refresh in flight, it holds through exactly these steps. */
  lemma PauseHoldsUnless(l: Limits, events: seq<Event>, e: Event)
    requires ValidLimits(l) && Paused(Run(l, events).world.mem) && Run(l, events).world.runs == map[]
    ensures var w := Run(l, events).world;
      && (Paused(Next(l, w, e).mem) <==>
            !Lifts(w.mem, e) && (e.Restart? ==> w.disk.Some? && PausedOnDisk(w.disk.value)))
      && !Starts(l, w, e)
  {
    RunKeeps(l, events);
    hide Delay, Latest, Run;
  }

  /** The world after the further events. */
  ghost function After(l: Limits, w: World, events: seq<Event>): World {
    if events == [] then w else Next(l, After(l, w, events[..|events| - 1]), events[|events| - 1])
  }

  /** The first way out among the events, if there is one, comes at the `k`-th. */
  ghost predicate LiftedAt(l: Limits, w: World, events: seq<Event>, k: nat) {
    k < |events| && Lifts(After(l, w, events[..k]).mem, events[k])
  }

  /** From a saved pause on: as long as no review is granted and no calendar failure is saved, the coordinator
      stays paused and no refresh starts, over any mix of requests, ticks, crashes and restarts. */
  lemma {:induction false} PauseHoldsOverRuns(l: Limits, w: World, events: seq<Event>)
    requires PausedForGood(l, w) && forall k: nat :: !LiftedAt(l, w, events, k)
    ensures PausedForGood(l, After(l, w, events))
    ensures forall k :: 0 <= k < |events| ==> !Starts(l, After(l, w, events[..k]), events[k])
  {
    hide PausedForGood, Starts, Next, Lifts;
    if events != [] {
      var init, n := events[..|events| - 1], |events| - 1;
      forall k: nat ensures !LiftedAt(l, w, init, k) {
        if k < n {
          assert init[..k] == events[..k];
          assert !LiftedAt(l, w, events, k);
        }
      }
      PauseHoldsOverRuns(l, w, init);
      assert !LiftedAt(l, w, events, n);
      PauseHoldsIff(l, After(l, w, init), events[n]);
      forall k | 0 <= k < |events| ensures !Starts(l, After(l, w, events[..k]), events[k]) {
        if k < n { assert init[..k] == events[..k]; }
      }
    }
  }

  /** The coordinator is paused all along exactly if there is no way out among the events. */
  lemma PauseHoldsThroughoutIff(l: Limits, w: World, events: seq<Event>)
    requires PausedForGood(l, w)
    ensures (forall k :: 0 <= k <= |events| ==> PausedForGood(l, After(l, w, events[..k]))) <==>
            (forall k: nat :: !LiftedAt(l, w, events, k))
  {
    if forall k: nat :: !LiftedAt(l, w, events, k) {
      forall k | 0 <= k <= |events| ensures PausedForGood(l, After(l, w, events[..k])) {
        forall i: nat ensures !LiftedAt(l, w, events[..k], i) {
          if i < k {
            assert events[..k][..i] == events[..i];
            assert !LiftedAt(l, w, events, i);
          }
        }
        PauseHoldsOverRuns(l, w, events[..k]);
      }
    } else {
      hide PausedForGood, Lifts, Next;
      var k: nat :| LiftedAt(l, w, events, k);
      assert events[..k + 1][..k] == events[..k];
      assert After(l, w, events[..k + 1]) == Next(l, After(l, w, events[..k]), events[k]);
      if PausedForGood(l, After(l, w, events[..k])) { PauseHoldsIff(l, After(l, w, events[..k]), events[k]); }
    }
  }

  /** A permission denial that is saved is such a pause, in every run. */
  lemma SavedDenialPauses(l: Limits, events: seq<Event>, thread: nat, name: Code)
    requires ValidLimits(l)
    requires var w := Run(l, events).world; thread in w.runs && w.runs[thread].Caught? && w.runs[thread].denied
    ensures PausedForGood(l, Next(l, Run(l, events).world, HandleException(thread, name, true)))
  {
    RunKeeps(l, events);
    RunKeeps(l, events + [HandleException(thread, name, true)]);
    assert (events + [HandleException(thread, name, true)])[..|events|] == events;
    hide Delay, Latest, Run;
  }

  /** After a denial, saved at any point of any run, no refresh starts until a review is granted or a calendar
      failure is saved. */
  lemma NoStartAfterDenial(l: Limits, events: seq<Event>, thread: nat, name: Code, later: seq<Event>)
    requires ValidLimits(l)
    requires var w := Run(l, events).world; thread in w.runs && w.runs[thread].Caught? && w.runs[thread].denied
    requires forall k: nat :: !LiftedAt(l, Next(l, Run(l, events).world, HandleException(thread, name, true)), later, k)
    ensures var w := Next(l, Run(l, events).world, HandleException(thread, name, true));
      && Paused(After(l, w, later).mem)
      && forall k :: 0 <= k < |later| ==> !Starts(l, After(l, w, later[..k]), later[k])
  {
    hide Run, Next, Starts, After, LiftedAt;
    SavedDenialPauses(l, events, thread, name);
    PauseHoldsOverRuns(l, Next(l, Run(l, events).world, HandleException(thread, name, true)), later);
  }

  /** A saved calendar failure overwrites the code the pause rests on: any other day that is not
      completed and not the pending one may start at once. */
  lemma CalendarFailureLiftsPause(l: Limits, w: World, target: int, current: real)
    requires Paused(w.mem) && !w.mem.stop && !w.mem.runLock
    requires target !in w.mem.completed && w.mem.blockedTarget != Some(target) && w.mem.pending != Some(target)
    ensures !MayBegin(l, w.mem, target, current)
    ensures MayBegin(l, Next(l, w, CalendarFailure(true)).mem, target, current)
  {
  }

  lemma RunSnoc(l: Limits, events: seq<Event>, e: Event)
    ensures Run(l, events + [e]) == Advance(l, Run(l, events), e)
  {
    assert (events + [e])[..|events|] == events;
  }

  const DENIED_RUN := [Begin(0, 1, 0.0, true), Raise(0, true), HandleException(0, PermissionDenied, true)]

  lemma DeniedRun(l: Limits)
    requires ValidLimits(l)
    ensures Run(l, DENIED_RUN).world.mem == Denied(Begun(FRESH, 1, 0.0), 1).(runLock := false)
    ensures Run(l, DENIED_RUN).world.runs == map[]
  {
    var a, b, c := DENIED_RUN[0], DENIED_RUN[1], DENIED_RUN[2];
    assert DENIED_RUN == [a, b] + [c] && [a, b] == [a] + [b] && [a] == [] + [a];
    RunSnoc(l, [], a);
    RunSnoc(l, [a], b);
    RunSnoc(l, [a, b], c);
    hide Observe, Run, Persisted;
    assert Run(l, []) == START;
    assert Run(l, [a]).world == Enter(Write(START.world, Begun(FRESH, 1, 0.0), true), 0, Refreshing(1, 0, 1));
    assert Run(l, [a, b]).world == Enter(Run(l, [a]).world, 0, Caught(1, 0, 1, true));
  }

  /** A run in which nobody reviews anything: the refresh of day 1 is denied, the calendar fails, and the
      refresh of day 2 starts. */
  lemma RefreshStartsWithoutReview(l: Limits)
    requires ValidLimits(l)
    ensures Paused(Run(l, DENIED_RUN).world.mem)
    ensures Starts(l, Run(l, DENIED_RUN + [CalendarFailure(true)]).world, Begin(0, 2, 0.0, true))
  {
    DeniedRun(l);
    RunSnoc(l, DENIED_RUN, CalendarFailure(true));
    RunKeeps(l, DENIED_RUN);
    hide Observe, Run, Persisted, Invariant;
    ClockNotNegative(l, DENIED_RUN);
  }

  lemma {:induction false} ClockNotNegative(l: Limits, events: seq<Event>)
    ensures Run(l, events).world.clock >= 0.0
  {
    if events != [] {
      ClockNotNegative(l, events[..|events| - 1]);
      hide Observe, Persisted, Restored, Latest;
    }
  }
}
