/** The end-of-day coordinator as atomic steps: one per locked section, one per crash. The refresh
    itself runs between sections, so any other step may fall in between. Times are in seconds. */
module EodModel {
  import opened Wrappers

  datatype Status = NotRun | Waiting | Running | Succeeded | Failed | RetryExhausted | Blocked

  /** A refresh reports any code it likes, the coordinator's own ones included. */
  datatype Code =
    | PermissionDenied | CheckpointWriteFailed | CheckpointRejected | CalendarUnavailable | Other(text: string)

  datatype Limits = Limits(maximumAttempts: nat, retryBase: real, retryMax: real)

  ghost predicate ValidLimits(l: Limits) {
    l.maximumAttempts >= 1 && 0.0 <= l.retryBase <= l.retryMax
  }

  datatype Memory = Memory(
    completed: set<int>, pending: Option<int>, attempts: nat, nextRetry: Option<real>,
    lastAttempt: Option<real>, lastSuccessDay: Option<int>, status: Status, error: Option<Code>,
    blockedTarget: Option<int>, revision: nat, stop: bool, runLock: bool)

  datatype Checkpoint = Checkpoint(
    completed: set<int>, pending: Option<int>, attempts: nat, nextRetry: Option<real>,
    lastAttempt: Option<real>, lastSuccessDay: Option<int>, status: Status, error: Option<Code>,
    blockedTarget: Option<int>)

  /** What the thread inside `_run_target` is about to do. */
  datatype Phase =
    | Refreshing(target: int, revision: nat, attempt: nat)
    | Caught(target: int, revision: nat, attempt: nat, denied: bool)
    | Recording(target: int, revision: nat, attempt: nat, afterException: bool)
    | Aborting(target: int)

  const FRESH := Memory({}, None, 0, None, None, None, NotRun, None, None, 0, false, false)

  // ------------------------------------------------------------- locked sections

  /** The 64 latest completed days, which is all a checkpoint keeps. */
  function Latest(days: set<int>, n: nat): set<int> {
    set d | d in days && |set e | e in days && e > d| < n
  }

  function Persisted(m: Memory): Checkpoint {
    Checkpoint(Latest(m.completed, 64), m.pending, m.attempts, m.nextRetry, m.lastAttempt,
               m.lastSuccessDay, m.status, m.error, m.blockedTarget)
  }

  predicate Paused(m: Memory) {
    m.status == Blocked && (m.error == Some(PermissionDenied) || m.error == Some(CheckpointWriteFailed))
  }

  /** A request when the checkpoint was not rejected. */
  function Requested(m: Memory, target: int): Memory {
    m.(revision := m.revision + 1, completed := m.completed - {target}, pending := Some(target),
       attempts := if Paused(m) then m.attempts else 0, nextRetry := None,
       status := if Paused(m) then m.status else Waiting)
  }

  predicate ReviewRefused(m: Memory) {
    m.error == Some(CheckpointRejected) || m.stop || m.runLock
  }

  function Unblocked(m: Memory): Memory {
    m.(blockedTarget := None, status := Waiting, error := None)
  }

  predicate MayBegin(l: Limits, m: Memory, target: int, current: real) {
    && !m.runLock && target !in m.completed && m.blockedTarget != Some(target) && !Paused(m) && !m.stop
    && (m.pending == Some(target) ==>
          m.attempts < l.maximumAttempts && (m.nextRetry.Some? ==> current >= m.nextRetry.value))
  }

  /** A new target starts with no attempts. */
  function Aimed(m: Memory, target: int): Memory {
    if m.pending == Some(target) then m else m.(pending := Some(target), attempts := 0, nextRetry := None)
  }

  function Begun(m: Memory, target: int, current: real): Memory {
    var t := Aimed(m, target);
    t.(attempts := t.attempts + 1, lastAttempt := Some(current), status := Running, runLock := true)
  }

  function Finished(m: Memory, target: int, revision: nat): Memory {
    var t := if revision == m.revision then m.(completed := m.completed + {target}, pending := None) else m;
    t.(error := None, nextRetry := None, lastSuccessDay := Some(target),
       status := if t.pending.None? then Succeeded else Waiting)
  }

  function Denied(m: Memory, target: int): Memory {
    m.(error := Some(PermissionDenied), blockedTarget := Some(target), status := Blocked, nextRetry := None)
  }

  function Pow2(n: nat): real { if n == 0 then 1.0 else 2.0 * Pow2(n - 1) }

  /** Seconds to wait after the given attempt. */
  function Delay(l: Limits, attempt: nat): real {
    var delay := l.retryBase * Pow2(if attempt == 0 then 0 else attempt - 1);
    if delay <= l.retryMax then delay else l.retryMax
  }

  function FailureRecorded(l: Limits, m: Memory, revision: nat, attempt: nat, current: real): Memory {
    if revision != m.revision then m.(status := Waiting)
    else
      var exhausted := m.attempts >= l.maximumAttempts;
      m.(status := if exhausted then RetryExhausted else Failed,
         nextRetry := if exhausted then None else Some(current + Delay(l, attempt)))
  }

  function Aborted(m: Memory, target: int): Memory {
    m.(completed := m.completed - {target}, pending := Some(target), status := Blocked,
       blockedTarget := Some(target), error := Some(CheckpointWriteFailed))
  }

  /** The unknown calendar year: the code in force is overwritten. */
  function CalendarFailed(m: Memory, saved: bool): Memory {
    m.(status := Blocked, error := Some(if saved then CalendarUnavailable else CheckpointWriteFailed))
  }

  function Rejected(m: Memory): Memory {
    m.(status := Blocked, error := Some(CheckpointRejected), stop := true)
  }

  /** What a checkpoint holds, except status and error code. */
  function Loaded(m: Memory, c: Checkpoint, valid: set<int>): Memory {
    m.(completed := c.completed * valid, pending := c.pending, blockedTarget := c.blockedTarget, attempts := c.attempts,
       nextRetry := c.nextRetry, lastAttempt := c.lastAttempt, lastSuccessDay := c.lastSuccessDay)
  }

  /** A new process: only days the validity check still accepts stay completed. */
  function Restored(l: Limits, disk: Option<Checkpoint>, valid: set<int>, clock: real): Memory {
    if disk.None? then FRESH
    else
      var c := disk.value;
      if |c.completed| > 64 || c.attempts > l.maximumAttempts then Rejected(FRESH)
      else
        var m := Loaded(FRESH, c, valid);
        if c.lastAttempt.Some? && clock < c.lastAttempt.value then Rejected(m)
        else m.(status := if c.status == Running then Waiting else c.status, error := c.error)
  }

  // ----------------------------------------------------------------------- steps

  /** The process, its threads inside `_run_target`, the checkpoint file and the clock. */
  datatype World = World(mem: Memory, runs: map<nat, Phase>, disk: Option<Checkpoint>, clock: real)

  datatype Event =
    | Tick(now: real)
    | Request(target: int, saved: bool)
    | Review(session: Option<int>, saved: bool)
    | Begin(thread: nat, target: int, current: real, saved: bool)
    | ReportSuccess(thread: nat, saved: bool)
    | ReportFailure(thread: nat, code: Code)
    | Raise(thread: nat, denied: bool)
    | HandleException(thread: nat, name: Code, saved: bool)
    | RecordFailure(thread: nat, current: real, saved: bool, denied: bool)
    | Abort(thread: nat)
    | CalendarFailure(saved: bool)
    | Stop
    | Start
    | Restart(valid: set<int>)

  function Write(w: World, m: Memory, saved: bool): World {
    w.(mem := m, disk := if saved then Some(Persisted(m)) else w.disk)
  }

  function Enter(w: World, thread: nat, p: Phase): World {
    w.(runs := w.runs[thread := p])
  }

  /** The thread leaves `_run_target` and gives the run lock back. */
  function Leave(w: World, thread: nat): World {
    w.(runs := w.runs - {thread}, mem := w.mem.(runLock := false))
  }

  function BeginStep(l: Limits, w: World, thread: nat, target: int, current: real, saved: bool): World {
    if thread in w.runs || current > w.clock || !MayBegin(l, w.mem, target, current) then w
    else
      var m := Begun(w.mem, target, current);
      Enter(Write(w, m, saved), thread,
            if saved then Refreshing(target, m.revision, m.attempts) else Aborting(target))
  }

  function SuccessStep(w: World, thread: nat, saved: bool): World {
    if thread !in w.runs || !w.runs[thread].Refreshing? then w
    else
      var p := w.runs[thread];
      var m := Finished(w.mem, p.target, p.revision);
      if saved then Leave(Write(w, m, true), thread) else Enter(Write(w, m, false), thread, Aborting(p.target))
  }

  function ExceptionStep(w: World, thread: nat, name: Code, saved: bool): World {
    if thread !in w.runs || !w.runs[thread].Caught? then w
    else
      var p := w.runs[thread];
      if p.denied then
        var m := Denied(w.mem, p.target);
        if saved then Leave(Write(w, m, true), thread) else Enter(Write(w, m, false), thread, Aborting(p.target))
      else
        Enter(w.(mem := w.mem.(error := Some(name))), thread, Recording(p.target, p.revision, p.attempt, true))
  }

  function RecordStep(l: Limits, w: World, thread: nat, current: real, saved: bool, denied: bool): World {
    if thread !in w.runs || !w.runs[thread].Recording? || current > w.clock then w
    else
      var p := w.runs[thread];
      var m := FailureRecorded(l, w.mem, p.revision, p.attempt, current);
      if saved then Leave(Write(w, m, true), thread)
      else Enter(Write(w, m, false), thread,
                 if p.afterException then Aborting(p.target) else Caught(p.target, p.revision, p.attempt, denied))
  }

  function Next(l: Limits, w: World, e: Event): World {
    match e
    case Tick(now) => if now >= w.clock then w.(clock := now) else w
    case Request(target, saved) =>
      if w.mem.error == Some(CheckpointRejected) then w else Write(w, Requested(w.mem, target), saved)
    case Review(session, saved) =>
      if ReviewRefused(w.mem) then w
      else if session.None? then w.(mem := Unblocked(w.mem))  // the calendar gives no session to request
      else Write(w, Requested(Unblocked(w.mem), session.value), saved)
    case Begin(thread, target, current, saved) => BeginStep(l, w, thread, target, current, saved)
    case ReportSuccess(thread, saved) => SuccessStep(w, thread, saved)
    case ReportFailure(thread, code) =>
      if thread !in w.runs || !w.runs[thread].Refreshing? then w
      else
        var p := w.runs[thread];
        Enter(w.(mem := w.mem.(error := Some(code))), thread, Recording(p.target, p.revision, p.attempt, false))
    case Raise(thread, denied) =>
      if thread !in w.runs || !w.runs[thread].Refreshing? then w
      else Enter(w, thread, Caught(w.runs[thread].target, w.runs[thread].revision, w.runs[thread].attempt, denied))
    case HandleException(thread, name, saved) => ExceptionStep(w, thread, name, saved)
    case RecordFailure(thread, current, saved, denied) => RecordStep(l, w, thread, current, saved, denied)
    case Abort(thread) =>
      if thread !in w.runs || !w.runs[thread].Aborting? then w
      else Leave(w.(mem := Aborted(w.mem, w.runs[thread].target)), thread)
    case CalendarFailure(saved) =>
      if w.mem.stop then w
      else Write(w, CalendarFailed(w.mem, saved), saved)
    case Stop => w.(mem := w.mem.(stop := true))
    case Start => w.(mem := w.mem.(stop := w.mem.error == Some(CheckpointRejected)))
    case Restart(valid) => World(Restored(l, w.disk, valid, w.clock), map[], w.disk, w.clock)
  }
}
