/** The coordinator as an object: one method per locked section, each proved to do to the fields
    and the checkpoint file what `EodModel` says. `writable` tells whether a write would succeed. */
module EodCoordinatorClass {
  import opened Wrappers
  import opened EodModel

  class EodCoordinator {
    const limits: Limits
    var completed: set<int>
    var pendingTarget: Option<int>
    var attempts: nat
    var nextRetry: Option<real>
    var lastAttempt: Option<real>
    var lastSuccessDay: Option<int>
    var status: Status
    var errorCode: Option<Code>
    var blockedTarget: Option<int>
    var requestRevision: nat
    var stopped: bool
    var runLocked: bool
    var checkpoint: Option<Checkpoint>

    function Memory(): Memory
      reads this
    {
      EodModel.Memory(completed, pendingTarget, attempts, nextRetry, lastAttempt, lastSuccessDay, status,
                      errorCode, blockedTarget, requestRevision, stopped, runLocked)
    }

    /** A new process, restoring the checkpoint if there is one. */
    constructor (limits: Limits, file: Option<Checkpoint>, valid: set<int>, clock: real)
      ensures this.limits == limits && checkpoint == file
      ensures Memory() == Restored(limits, file, valid, clock)
    {
      this.limits := limits;
      completed, pendingTarget, attempts, nextRetry := {}, None, 0, None;
      lastAttempt, lastSuccessDay, status, errorCode := None, None, NotRun, None;
      blockedTarget, requestRevision, stopped, runLocked := None, 0, false, false;
      checkpoint := file;
      new;
      if file.Some? { Restore(valid, clock); }
    }

    /** `_restore`: a checkpoint the coordinator cannot have written is rejected and left alone. */
    method Restore(valid: set<int>, clock: real)
      requires Memory() == FRESH && checkpoint.Some?
      modifies this
      ensures Memory() == Restored(limits, checkpoint, valid, clock) && checkpoint == old(checkpoint)
    {
      var c := checkpoint.value;
      if |c.completed| > 64 || c.attempts > limits.maximumAttempts {
        Reject();
        return;
      }
      Load(c, valid);
      hide Loaded;
      if lastAttempt.Some? && clock < lastAttempt.value {
        Reject();
        return;
      }
      status, errorCode := c.status, c.error;
      if status == Running { status := Waiting; }
    }

    method Load(c: Checkpoint, valid: set<int>)
      modifies this
      ensures Memory() == Loaded(old(Memory()), c, valid) && lastAttempt == c.lastAttempt
      ensures checkpoint == old(checkpoint)
    {
      completed := c.completed * valid;
      pendingTarget, blockedTarget, attempts := c.pending, c.blockedTarget, c.attempts;
      nextRetry, lastAttempt, lastSuccessDay := c.nextRetry, c.lastAttempt, c.lastSuccessDay;
    }

    method Reject()
      modifies this
      ensures Memory() == Rejected(old(Memory())) && checkpoint == old(checkpoint)
    {
      status, errorCode, stopped := Blocked, Some(CheckpointRejected), true;
    }

    /** `_persist`: the whole state or nothing. */
    method Persist(writable: bool) returns (ok: bool)
      modifies this`checkpoint
      ensures ok == writable
      ensures checkpoint == if writable then Some(Persisted(Memory())) else old(checkpoint)
    {
      if writable { checkpoint := Some(Persisted(Memory())); }
      ok := writable;
    }

    method RequestRefresh(target: int, writable: bool) returns (raised: bool)
      modifies this
      ensures old(errorCode) == Some(CheckpointRejected) ==>
        raised && Memory() == old(Memory()) && checkpoint == old(checkpoint)
      ensures old(errorCode) != Some(CheckpointRejected) ==>
        && raised == !writable && Memory() == Requested(old(Memory()), target)
        && checkpoint == if writable then Some(Persisted(Memory())) else old(checkpoint)
    {
      hide Persisted;
      if errorCode == Some(CheckpointRejected) { return true; }
      var paused := Paused(Memory());
      requestRevision := requestRevision + 1;
      completed := completed - {target};
      pendingTarget := Some(target);
      if !paused { attempts := 0; }
      nextRetry := None;
      if !paused { status := Waiting; }
      var ok := Persist(writable);
      raised := !ok;
    }

    method RetryAfterReview(session: Option<int>, writable: bool) returns (raised: bool)
      modifies this
      ensures ReviewRefused(old(Memory())) ==> raised && Memory() == old(Memory()) && checkpoint == old(checkpoint)
      ensures !ReviewRefused(old(Memory())) && session.None? ==>
        raised && Memory() == Unblocked(old(Memory())) && checkpoint == old(checkpoint)
      ensures !ReviewRefused(old(Memory())) && session.Some? ==>
        && raised == !writable && Memory() == Requested(Unblocked(old(Memory())), session.value)
        && checkpoint == if writable then Some(Persisted(Memory())) else old(checkpoint)
    {
      if ReviewRefused(Memory()) { return true; }
      blockedTarget, status, errorCode := None, Waiting, None;
      if session.None? { return true; }
      raised := RequestRefresh(session.value, writable);
    }

    /** A refresh of a day other than the pending one makes that day pending. */
    method Aim(target: int)
      modifies this
      ensures Memory() == Aimed(old(Memory()), target) && checkpoint == old(checkpoint)
    {
      if pendingTarget != Some(target) {
        pendingTarget, attempts, nextRetry := Some(target), 0, None;
      }
    }

    /** The first section of `_run_target`: nothing, a started refresh, or a refused checkpoint. */
    method Begin(target: int, current: real, writable: bool) returns (phase: Option<Phase>)
      requires limits.maximumAttempts >= 1
      modifies this
      ensures !MayBegin(limits, old(Memory()), target, current) ==>
        phase.None? && Memory() == old(Memory()) && checkpoint == old(checkpoint)
      ensures MayBegin(limits, old(Memory()), target, current) ==>
        && Memory() == Begun(old(Memory()), target, current)
        && phase == Some(if writable then Refreshing(target, requestRevision, attempts) else Aborting(target))
        && checkpoint == if writable then Some(Persisted(Memory())) else old(checkpoint)
    {
      hide Persisted;
      var paused := Paused(Memory());
      hide Paused;
      if runLocked { return None; }
      if target in completed || blockedTarget == Some(target) || paused || stopped { return None; }
      Aim(target);
      if attempts >= limits.maximumAttempts { return None; }
      if nextRetry.Some? && current < nextRetry.value { return None; }
      attempts := attempts + 1;
      lastAttempt, status, runLocked := Some(current), Running, true;
      var ok := Persist(writable);
      phase := Some(if ok then Refreshing(target, requestRevision, attempts) else Aborting(target));
    }

    method Succeed(run: Phase, writable: bool) returns (phase: Option<Phase>)
      requires run.Refreshing? && runLocked
      modifies this
      ensures var m := Finished(old(Memory()), run.target, run.revision);
        if writable then phase.None? && Memory() == m.(runLock := false) && checkpoint == Some(Persisted(m))
        else phase == Some(Aborting(run.target)) && Memory() == m && checkpoint == old(checkpoint)
    {
      hide Persisted;
      errorCode := None;
      if run.revision == requestRevision {
        completed := completed + {run.target};
        pendingTarget := None;
      }
      nextRetry := None;
      lastSuccessDay := Some(run.target);
      status := if pendingTarget.None? then Succeeded else Waiting;
      var ok := Persist(writable);
      if !ok { return Some(Aborting(run.target)); }
      runLocked := false;
      phase := None;
    }

    method Handle(run: Phase, name: Code, writable: bool) returns (phase: Option<Phase>)
      requires run.Caught? && runLocked
      modifies this
      ensures !run.denied ==>
        && phase == Some(Recording(run.target, run.revision, run.attempt, true))
        && Memory() == old(Memory()).(error := Some(name)) && checkpoint == old(checkpoint)
      ensures run.denied ==>
        var m := Denied(old(Memory()), run.target);
        if writable then phase.None? && Memory() == m.(runLock := false) && checkpoint == Some(Persisted(m))
        else phase == Some(Aborting(run.target)) && Memory() == m && checkpoint == old(checkpoint)
    {
      hide Persisted;
      if !run.denied {
        errorCode := Some(name);
        return Some(Recording(run.target, run.revision, run.attempt, true));
      }
      errorCode, blockedTarget, status, nextRetry := Some(PermissionDenied), Some(run.target), Blocked, None;
      var ok := Persist(writable);
      if !ok { return Some(Aborting(run.target)); }
      runLocked := false;
      phase := None;
    }

    method RecordFailure(run: Phase, current: real, writable: bool, denied: bool) returns (phase: Option<Phase>)
      requires run.Recording? && runLocked
      modifies this
      ensures var m := FailureRecorded(limits, old(Memory()), run.revision, run.attempt, current);
        if writable then phase.None? && Memory() == m.(runLock := false) && checkpoint == Some(Persisted(m))
        else
          && Memory() == m && checkpoint == old(checkpoint)
          && phase == Some(if run.afterException then Aborting(run.target)
                           else Caught(run.target, run.revision, run.attempt, denied))
    {
      if run.revision != requestRevision {
        status := Waiting;
      } else {
        var exhausted := attempts >= limits.maximumAttempts;
        status := if exhausted then RetryExhausted else Failed;
        nextRetry := if exhausted then None else Some(current + Delay(limits, run.attempt));
      }
      var ok := Persist(writable);
      if ok {
        runLocked := false;
        return None;
      }
      phase := Some(if run.afterException then Aborting(run.target)
                    else Caught(run.target, run.revision, run.attempt, denied));
    }

    /** The outer handler: nothing unsaved is left looking completed. */
    method Abort(run: Phase)
      requires run.Aborting? && runLocked
      modifies this
      ensures Memory() == Aborted(old(Memory()), run.target).(runLock := false) && checkpoint == old(checkpoint)
    {
      completed := completed - {run.target};
      pendingTarget, status, blockedTarget := Some(run.target), Blocked, Some(run.target);
      errorCode := Some(CheckpointWriteFailed);
      runLocked := false;
    }

    method CalendarFailure(writable: bool)
      modifies this
      ensures Memory() == CalendarFailed(old(Memory()), writable)
      ensures checkpoint == if writable then Some(Persisted(Memory())) else old(checkpoint)
    {
      errorCode, status := Some(CalendarUnavailable), Blocked;
      var ok := Persist(writable);
      if !ok { errorCode := Some(CheckpointWriteFailed); }
    }

    /** A session already closed comes first, otherwise whatever is pending. */
    method RunDue(session: Option<bool>, day: int, afterClose: bool, current: real, writable: bool)
      returns (phase: Option<Phase>)
      requires limits.maximumAttempts >= 1
      modifies this
      ensures old(stopped) ==> phase.None? && Memory() == old(Memory()) && checkpoint == old(checkpoint)
      ensures !old(stopped) && session.None? ==>
        && phase.None? && Memory() == CalendarFailed(old(Memory()), writable)
        && checkpoint == if writable then Some(Persisted(Memory())) else old(checkpoint)
      ensures !old(stopped) && session.Some? ==>
        var due := if session.value && afterClose then Some(day) else old(pendingTarget);
        if due.None? || !MayBegin(limits, old(Memory()), due.value, current) then
          phase.None? && Memory() == old(Memory()) && checkpoint == old(checkpoint)
        else
          && Memory() == Begun(old(Memory()), due.value, current)
          && phase == Some(if writable then Refreshing(due.value, requestRevision, attempts) else Aborting(due.value))
          && checkpoint == if writable then Some(Persisted(Memory())) else old(checkpoint)
    {
      if stopped { return None; }
      if session.None? {
        CalendarFailure(writable);
        return None;
      }
      var target := if session.value && afterClose then Some(day) else pendingTarget;
      if target.None? { return None; }
      phase := Begin(target.value, current, writable);
    }
  }
}
