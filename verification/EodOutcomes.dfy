/** What the end of a refresh leaves behind, in memory and in the checkpoint, and how long a day stays blocked. */
module EodOutcomes {
  import opened Wrappers
  import opened EodModel
  import opened EodSafety

  /** The checkpoint on disk says the same. */
  ghost predicate OnDisk(w: World) {
    && w.disk.Some? && w.disk.value.status == w.mem.status && w.disk.value.error == w.mem.error
    && w.disk.value.pending == w.mem.pending && w.disk.value.attempts == w.mem.attempts
    && w.disk.value.nextRetry == w.mem.nextRetry && w.disk.value.lastAttempt == w.mem.lastAttempt
    && w.disk.value.lastSuccessDay == w.mem.lastSuccessDay && w.disk.value.blockedTarget == w.mem.blockedTarget
  }

  ghost function World1(l: Limits, events: seq<Event>, e: Event): World { Run(l, events + [e]).world }

  /** In every run: a refresh that starts is counted and timed before it runs. */
  lemma StartIsCounted(l: Limits, events: seq<Event>, thread: nat, day: int, current: real)
    requires ValidLimits(l) && Starts(l, Run(l, events).world, Begin(thread, day, current, true))
    ensures var before, w := Run(l, events).world, World1(l, events, Begin(thread, day, current, true));
      && w.mem.status == Running && w.mem.pending == Some(day) && w.mem.lastAttempt == Some(current)
      && w.mem.attempts == (if before.mem.pending == Some(day) then before.mem.attempts + 1 else 1)
      && w.mem.attempts <= l.maximumAttempts && OnDisk(w)
  {
    RunKeeps(l, events);
    RunSnoc(l, events, Begin(thread, day, current, true));
    hide Run, Observe, Latest;
  }

  /** A success clears the error and the retry time; the coordinator then rests, or waits for the request that came
      meanwhile. */
  lemma SuccessTells(l: Limits, events: seq<Event>, thread: nat)
    requires ValidLimits(l) && thread in Run(l, events).world.runs && Run(l, events).world.runs[thread].Refreshing?
    ensures var before, w := Run(l, events), World1(l, events, ReportSuccess(thread, true));
      && w.mem.error.None? && w.mem.nextRetry.None? && OnDisk(w)
      && w.mem.lastSuccessDay == Some(before.world.runs[thread].target)
      && w.mem.status == (if before.history.asked.None? then Succeeded else Waiting)
  {
    RunKeeps(l, events);
    RunSnoc(l, events, ReportSuccess(thread, true));
    hide Run, Observe, Latest;
  }

  /** A failure leaves its code; the coordinator then waits for the request that came meanwhile, tries again at a set
      time, or has used up its attempts. */
  lemma FailureTells(l: Limits, events: seq<Event>, thread: nat, current: real, denied: bool)
    requires ValidLimits(l) && thread in Run(l, events).world.runs && Run(l, events).world.runs[thread].Recording?
    requires current <= Run(l, events).world.clock
    ensures var before, w := Run(l, events), World1(l, events, RecordFailure(thread, current, true, denied));
      var last := before.world.mem.attempts == l.maximumAttempts;
      && w.mem.error == before.world.mem.error && OnDisk(w)
      && (before.history.asked.Some? ==> w.mem.status == Waiting && w.mem.pending == before.history.asked)
      && (before.history.asked.None? ==>
            && w.mem.status == (if last then RetryExhausted else Failed)
            && w.mem.nextRetry == (if last then None else Some(current + Delay(l, before.world.mem.attempts))))
  {
    RunKeeps(l, events);
    RunSnoc(l, events, RecordFailure(thread, current, true, denied));
    var before := Run(l, events);
    assert InFlight(before.world.mem, before.history, before.world.runs[thread]);
    assert before.world.mem.attempts <= l.maximumAttempts;
    hide Run, Observe, Invariant, Next, OnDisk, Delay, InFlight;
    FailedStep(l, before.world, before.history, thread, current, denied);
  }

  lemma FailedStep(l: Limits, w: World, h: History, thread: nat, current: real, denied: bool)
    requires thread in w.runs && w.runs[thread].Recording? && current <= w.clock
    requires InFlight(w.mem, h, w.runs[thread]) && w.mem.attempts <= l.maximumAttempts
    ensures var after := Next(l, w, RecordFailure(thread, current, true, denied));
      var last := w.mem.attempts == l.maximumAttempts;
      && after.mem.error == w.mem.error && OnDisk(after)
      && (h.asked.Some? ==> after.mem.status == Waiting && after.mem.pending == h.asked)
      && (h.asked.None? ==>
            && after.mem.status == (if last then RetryExhausted else Failed)
            && after.mem.nextRetry == (if last then None else Some(current + Delay(l, w.mem.attempts))))
  {
    hide Latest, Delay;
  }

  /** The code a refresh reports, or the name of what it raised, is the error that will be recorded. */
  lemma CodeIsKept(l: Limits, events: seq<Event>, thread: nat, code: Code)
    requires ValidLimits(l) && thread in Run(l, events).world.runs
    ensures Run(l, events).world.runs[thread].Refreshing? ==>
      World1(l, events, ReportFailure(thread, code)).mem.error == Some(code)
    ensures Run(l, events).world.runs[thread].Caught? && !Run(l, events).world.runs[thread].denied ==>
      World1(l, events, HandleException(thread, code, true)).mem.error == Some(code)
  {
    RunSnoc(l, events, ReportFailure(thread, code));
    RunSnoc(l, events, HandleException(thread, code, true));
    hide Run, Observe, Latest;
  }

  // ------------------------------------------------------------------------ blocked days

  /** Nobody is refreshing and the day is blocked. */
  ghost predicate Shut(w: World, day: int) {
    && w.runs == map[] && w.mem.status == Blocked && w.mem.blockedTarget == Some(day)
  }

  /** A saved denial shuts its day. */
  lemma DenialShuts(l: Limits, events: seq<Event>, thread: nat, name: Code)
    requires ValidLimits(l) && thread in Run(l, events).world.runs
    requires Run(l, events).world.runs[thread].Caught? && Run(l, events).world.runs[thread].denied
    ensures var w := World1(l, events, HandleException(thread, name, true));
      && Shut(w, Run(l, events).world.runs[thread].target) && OnDisk(w)
      && w.mem.error == Some(PermissionDenied) && w.mem.nextRetry.None?
  {
    RunKeeps(l, events);
    RunSnoc(l, events, HandleException(thread, name, true));
    hide Run, Observe, Latest;
    OneLeaves(Run(l, events).world, thread);
  }

  /** A refresh given up because its checkpoint could not be written leaves its day pending and shut, even if it had
      succeeded. */
  lemma AbortShuts(l: Limits, events: seq<Event>, thread: nat)
    requires ValidLimits(l) && thread in Run(l, events).world.runs && Run(l, events).world.runs[thread].Aborting?
    ensures var day, w := Run(l, events).world.runs[thread].target, World1(l, events, Abort(thread));
      && Shut(w, day) && day !in w.mem.completed && w.mem.pending == Some(day)
      && w.mem.error == Some(CheckpointWriteFailed)
  {
    RunKeeps(l, events);
    RunSnoc(l, events, Abort(thread));
    hide Run, Observe, Latest;
    OneLeaves(Run(l, events).world, thread);
  }

  lemma OneLeaves(w: World, thread: nat)
    requires SingleFlight(w) && thread in w.runs
    ensures w.runs - {thread} == map[]
  {
    forall t | t in w.runs ensures t == thread {}
  }

  /** The day is blocked, in memory and on disk, and no refresh of it is in flight. */
  ghost predicate BlockedDay(w: World, day: int) {
    && w.mem.blockedTarget == Some(day) && w.disk.Some? && w.disk.value.blockedTarget == Some(day)
    && (forall t :: t in w.runs ==> w.runs[t].target != day)
  }

  /** The events that can move a block: a granted review, and a refresh that ends blocked itself. */
  ghost predicate MovesBlock(w: World, e: Event) {
    || (e.Review? && !ReviewRefused(w.mem))
    || (e.HandleException? && e.thread in w.runs && w.runs[e.thread].Caught? && w.runs[e.thread].denied)
    || (e.Abort? && e.thread in w.runs && w.runs[e.thread].Aborting?)
  }

  lemma StepBlocked(l: Limits, s: System, e: Event, day: int)
    requires Invariant(l, s) && BlockedDay(s.world, day) && !MovesBlock(s.world, e)
    ensures BlockedDay(Next(l, s.world, e), day) && (e.Begin? && e.target == day ==> !Starts(l, s.world, e))
  {
    hide Latest, Delay;
    assert Restartable(l, s.world);
    hide Invariant;
  }

  /** A blocked day stays blocked through requests, calendar failures, other refreshes, crashes and restarts, and is
      not refreshed, until a review is granted or another refresh ends blocked. */
  lemma {:induction false} BlockedDayStays(l: Limits, events: seq<Event>, later: seq<Event>, day: int)
    requires ValidLimits(l) && BlockedDay(Run(l, events).world, day)
    requires forall k :: 0 <= k < |later| ==> !MovesBlock(Run(l, events + later[..k]).world, later[k])
    ensures BlockedDay(Run(l, events + later).world, day)
    ensures forall k :: 0 <= k < |later| && later[k].Begin? && later[k].target == day ==>
      !Starts(l, Run(l, events + later[..k]).world, later[k])
  {
    hide Run, Next, Starts, BlockedDay, MovesBlock, Observe;
    if later == [] {
      assert events + later == events;
    } else {
      var n := |later| - 1;
      var init := later[..n];
      forall k | 0 <= k < n ensures init[..k] == later[..k] {}
      BlockedDayStays(l, events, init, day);
      assert events + later == (events + init) + [later[n]];
      RunSnoc(l, events + init, later[n]);
      RunKeeps(l, events + init);
      StepBlocked(l, Run(l, events + init), later[n], day);
      forall k | 0 <= k < |later| && later[k].Begin? && later[k].target == day
          ensures !Starts(l, Run(l, events + later[..k]).world, later[k]) {
        if k < n { assert init[k] == later[k]; }
      }
    }
  }

  // -------------------------------------------------------------------- reviews and stops

  /** In every run with no refresh in flight: once a review is granted with a session, that session is refreshed,
      whatever
      had paused or blocked it. */
  lemma ReviewedDayStarts(l: Limits, events: seq<Event>, day: int, thread: nat, current: real, saved: bool)
    requires ValidLimits(l) && Run(l, events).world.runs == map[] && !Run(l, events).world.mem.stop
    requires Run(l, events).world.mem.error != Some(CheckpointRejected) && current <= Run(l, events).world.clock
    ensures Starts(l, World1(l, events, Review(Some(day), true)), Begin(thread, day, current, saved))
  {
    RunKeeps(l, events);
    RunSnoc(l, events, Review(Some(day), true));
    assert SingleFlight(Run(l, events).world);
    hide Run, Observe, Invariant, Next, Starts;
    ReviewedStart(l, Run(l, events).world, day, thread, current, saved);
  }

  lemma ReviewedStart(l: Limits, w: World, day: int, thread: nat, current: real, saved: bool)
    requires ValidLimits(l) && w.runs == map[] && !w.mem.runLock && !w.mem.stop
    requires w.mem.error != Some(CheckpointRejected) && current <= w.clock
    ensures Starts(l, Next(l, w, Review(Some(day), true)), Begin(thread, day, current, saved))
  {
    hide Persisted;
  }

  /** Nothing starts after a stop; a start ends it unless the checkpoint was rejected. */
  lemma StopAndStart(l: Limits, events: seq<Event>, thread: nat, day: int, current: real, saved: bool)
    ensures !Starts(l, World1(l, events, Stop), Begin(thread, day, current, saved))
    ensures World1(l, events, Start).mem.stop <==> Run(l, events).world.mem.error == Some(CheckpointRejected)
    ensures World1(l, events, Start).mem.(stop := false) == Run(l, events).world.mem.(stop := false)
  {
    RunSnoc(l, events, Stop);
    RunSnoc(l, events, Start);
    hide Run, Observe;
  }
}
