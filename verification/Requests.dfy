/** One upload request: doServeHTTP and the answer of ServeHTTP, cut into the steps
    that other requests can observe. */
module Requests {
  import opened Sums
  import opened CeilingDivision
  import opened FileParts
  import opened Timeouts
  import opened Errors
  import opened Retry
  import opened TcpInfos
  import opened Ledger

  datatype Config = Config(
    slots: int,          // UploadMaxParallel
    bandwidth: int,      // UploadBwlimit, bits per second
    partsize: int,       // UploadPartsize
    tries: int,          // UploadTries
    timeout: nat,        // UploadTimeout
    factor: int,         // UploadTimeoutFactor
    queueTimeout: nat)   // QueueTimeout

  /** Positive slots and part size, a non-negative limit, and no ceiling division
      of the pacing code leaving 64 bits. The number of tries may be anything. */
  predicate ValidConfig(c: Config) {
    && 1 <= c.slots <= MAX_INT64 && 0 < c.partsize <= MAX_INT64
    && 0 <= c.bandwidth && c.bandwidth + 7 <= MAX_INT64
    && c.bandwidth <= 8 * (MAX_INT64 - c.slots + 1)
  }

  type Conf = c: Config | ValidConfig(c) witness Config(1, 0, 1, 1, 0, 1, 0)

  /** conf.UploadBwlimitBytes. */
  function LimitBytes(c: Conf): (b: nat)
    ensures b == Ceil(c.bandwidth, 8)
    ensures c.bandwidth <= 8 * b && b <= c.bandwidth
    ensures b + c.slots - 1 <= MAX_INT64
  {
    DivCeilExact(c.bandwidth, 8);
    CeilLeast(c.bandwidth, 8, c.bandwidth);
    CeilLeast(c.bandwidth, 8, MAX_INT64 - c.slots + 1);
    DivCeil(c.bandwidth, 8).value
  }

  /** The pace updatePacingRate is to set for a given slot count. */
  function PaceFor(c: Conf, count: nat): nat {
    if count == 0 then LimitBytes(c) else Ceil(LimitBytes(c), count)
  }

  // ----- the state

  /** Inside updatePacingRate. */
  datatype Repace =
    | Start               // before the first GetCount
    | SawBusy             // the first GetCount was not zero
    | Target(rate: nat)   // targetPace is computed
    | ToStore(rate: nat)  // it differs from PacingRate()
    | ToApply(rate: nat)  // uploadPace is stored

  /** Why the context of a queued request ended. */
  datatype QueueEnd = TimerFired | ParentCanceled | ParentDeadline

  datatype Phase =
    | Arrived
    | Valid                 // parsed and counted
    | Refused               // TryAcquire failed
    | Waiting               // counted as a waiter, blocked in the inner Acquire
    | Granted               // the inner Acquire took the slots
    | Denied(end: QueueEnd) // the inner Acquire gave up
    | Holding               // Acquire returned nil
    | Before(step: Repace)  // updatePacingRate, slots held
    | Opening
    | Attempting
    | Leaving               // uploadFileMultipart returned and Stop or StopNoUpload ran
    | After(step: Repace)   // the deferred updatePacingRate, slots released
    | Finished              // doServeHTTP returned
    | Answered(code: int)
    | BadPath               // parseRequest sliced an empty URI path and panicked
    | Crashed               // updatePacingRate divided by zero and panicked
    | Overdrawn             // Release found fewer slots taken and panicked

  /** How a request came to its result, apart from the error tree it carries. */
  datatype Ending =
    | ParseFailed | QueueExpired | QueueAborted | QueueFailed | OpenFailed
    | Skipped               // no try was configured
    | Judged(kind: Kind)

  function CodeOfEnding(e: Ending): int {
    match e
    case ParseFailed => 400
    case QueueExpired => 408
    case QueueAborted => 418
    case QueueFailed => 500
    case OpenFailed => 500
    case Skipped => 200
    case Judged(kind) => CodeOfKind(kind)
  }

  datatype Request = Request(
    phase: Phase,
    size: nat,
    parts: int,
    refused: bool,          // history: the fast path failed
    queued: bool,           // uploadQueued
    acquired: nat,          // history: slots taken, slots given back
    released: nat,
    attempts: int,          // UploadAttempts
    seen: seq<Attempt>,     // history: the attempts that have ended
    result: Option<Error>,
    ending: Option<Ending>,
    start: int,             // startTime
    queueStart: int,        // when the queue timer started
    began: Option<int>,     // transferStartTime
    attemptStart: int,
    end: int)               // endTime

  function NewRequest(now: int): Request {
    Request(Arrived, 0, 0, false, false, 0, 0, 0, [], None, None, now, now, None, now, now)
  }

  datatype Shared = Shared(
    count: int,             // slots taken
    waiters: uint32,
    tracker: Tracker,
    valid: nat,             // uploadValidRequestsTotal
    attempts: nat,          // uploadAttemptsTotal
    retries: nat,           // uploadRetriesTotal
    responses: map<int, nat>)

  function Responses(m: map<int, nat>, code: int): nat {
    if code in m then m[code] else 0
  }

  function Bump(m: map<int, nat>, code: int): map<int, nat> {
    m[code := Responses(m, code) + 1]
  }

  // ----- the steps

  datatype ParseOutcome = Accepted(size: nat) | Rejected(cause: Option<Error>) | EmptyPath

  datatype Action =
    | Parse(outcome: ParseOutcome)
    | Callback                      // logWait runs
    | Grant                         // the inner Acquire succeeds
    | GiveUp(end: QueueEnd)         // the inner Acquire returns the context's error
    | Apply(failed: set<nat>)       // SetPacingRate's loop; setsockopt fails on those connections
    | Open(err: Option<Error>)
    | EndAttempt(a: Attempt)
    | Go                            // the step the code determines alone

  datatype Move = Move(sh: Shared, r: Request)

  /** The step of a request from its phase; None when it cannot happen. */
  function Act(c: Conf, now: int, sh: Shared, r: Request, a: Action): Option<Move> {
    match r.phase
    case Arrived => if a.Parse? then Some(ActParse(c, now, sh, r, a.outcome)) else None
    case Valid => if a.Go? then Some(ActTry(c, sh, r)) else None
    case Refused =>
      if a.Go? then Some(Move(sh.(waiters := Add32(sh.waiters, 1)), r.(phase := Waiting))) else None
    case Waiting => ActWait(c, now, sh, r, a)
    case Granted => ActLeaveQueue(now, sh, r, a)
    case Denied(_) => ActLeaveQueue(now, sh, r, a)
    case Holding => if a.Go? then Some(Move(sh, r.(began := Some(now), phase := Before(Start)))) else None
    case Before(step) => ActPace(c, sh, r, a, step)
    case Opening => if a.Open? then ActOpen(c, now, sh, r, a.err) else None
    case Attempting => if a.EndAttempt? then ActAttempt(c, now, sh, r, a.a) else None
    case Leaving => if a.Go? then Some(ActRelease(sh, r)) else None
    case After(step) => ActPace(c, sh, r, a, step)
    case Finished => if a.Go? then Some(ActAnswer(sh, r)) else None
    case _ => None
  }

  function ActParse(c: Conf, now: int, sh: Shared, r: Request, o: ParseOutcome): Move {
    match o
    case Accepted(size) =>
      Move(sh.(valid := sh.valid + 1),
           r.(phase := Valid, size := size, parts := UploadParts(size, c.partsize), queueStart := now))
    case Rejected(cause) => Move(sh, Stopped(r, now, Some(BadRequest(cause)), ParseFailed).(phase := Finished))
    case EmptyPath => Move(sh, r.(phase := BadPath))
  }

  /** StopNoUpload or Stop, and the result that is returned. */
  function Stopped(r: Request, now: int, result: Option<Error>, ending: Ending): Request {
    r.(end := now, result := result, ending := Some(ending))
  }

  /** TryAcquire. */
  function ActTry(c: Conf, sh: Shared, r: Request): Move {
    if sh.count + r.parts <= c.slots then
      Move(sh.(count := sh.count + r.parts), r.(phase := Holding, acquired := r.acquired + 1))
    else Move(sh, r.(phase := Refused, refused := true))
  }

  function ActWait(c: Conf, now: int, sh: Shared, r: Request, a: Action): Option<Move> {
    match a
    case Callback => if r.queued then None else Some(Move(sh, r.(queued := true)))
    case Grant =>
      if sh.count + r.parts <= c.slots then
        Some(Move(sh.(count := sh.count + r.parts), r.(phase := Granted, acquired := r.acquired + 1)))
      else None
    case GiveUp(end) =>
      if end.TimerFired? && now < r.queueStart + c.queueTimeout then None
      else Some(Move(sh, r.(phase := Denied(end))))
    case _ => None
  }

  /** Waiting for the callback, then the deferred decrement and the return of Acquire. */
  function ActLeaveQueue(now: int, sh: Shared, r: Request, a: Action): Option<Move>
    requires r.phase.Granted? || r.phase.Denied?
  {
    if a.Callback? && !r.queued then Some(Move(sh, r.(queued := true)))
    else if a.Go? && r.queued then
      var sh' := sh.(waiters := Add32(sh.waiters, TWO_TO_32 - 1));
      if r.phase.Granted? then Some(Move(sh', r.(phase := Holding)))
      else Some(Move(sh', Stopped(r, now, Some(QueueError(r.phase.end)), QueueEnding(r.phase.end)).(phase := Finished)))
    else None
  }

  /** The context's own error, as the inner Acquire returns it. */
  function ContextError(end: QueueEnd): Error {
    if end.ParentCanceled? then Canceled else DeadlineExceeded
  }

  /** The error doServeHTTP returns when Acquire failed. */
  function QueueError(end: QueueEnd): Error {
    match end
    case TimerFired => Joined([QueueTimeout, DeadlineExceeded])
    case ParentCanceled => Joined([Aborted, Canceled])
    case ParentDeadline => Wrapped(DeadlineExceeded)
  }

  function QueueEnding(end: QueueEnd): Ending {
    match end
    case TimerFired => QueueExpired
    case ParentCanceled => QueueAborted
    case ParentDeadline => QueueFailed
  }

  /** One read or store of updatePacingRate. */
  function ActPace(c: Conf, sh: Shared, r: Request, a: Action, step: Repace): Option<Move>
    requires r.phase.Before? || r.phase.After?
  {
    match step
    case Start =>
      if !a.Go? then None
      else if LimitBytes(c) == 0 then Some(Move(sh, PaceDone(r)))
      else if sh.count == 0 then Some(Move(sh, PaceAt(r, Target(LimitBytes(c)))))
      else Some(Move(sh, PaceAt(r, SawBusy)))
    case SawBusy =>
      if !a.Go? then None
      else var q := DivCeil(LimitBytes(c), sh.count);
           if q.None? then Some(Move(sh, r.(phase := Crashed)))
           else Some(Move(sh, PaceAt(r, Target(q.value % TcpInfos.TWO_TO_64))))
    case Target(rate) =>
      if !a.Go? then None
      else if rate == sh.tracker.net.pace then Some(Move(sh, PaceDone(r)))
      else Some(Move(sh, PaceAt(r, ToStore(rate))))
    case ToStore(rate) =>
      if !a.Go? then None
      else Some(Move(sh.(tracker := NetStep(sh.tracker, StorePace(rate)).value), PaceAt(r, ToApply(rate))))
    case ToApply(rate) =>
      if !a.Apply? then None
      else Some(Move(sh.(tracker := NetStep(sh.tracker, ApplyPace(rate, a.failed)).value), PaceDone(r)))
  }

  function PaceAt(r: Request, step: Repace): Request {
    r.(phase := if r.phase.Before? then Before(step) else After(step))
  }

  function PaceDone(r: Request): Request {
    r.(phase := if r.phase.Before? then Opening else Finished)
  }

  function ActOpen(c: Conf, now: int, sh: Shared, r: Request, err: Option<Error>): Option<Move> {
    match err
    case Some(e) =>
      if !Foreign(e) || AsApi(e).Some? then None
      else Some(Move(sh, Stopped(r, now, Some(Wrapped(e)), OpenFailed).(phase := Leaving)))
    case None =>
      if c.tries < 1 then Some(Move(sh, Stopped(r, now, None, Skipped).(phase := Leaving, attempts := 1)))
      else Some(Move(sh.(attempts := sh.attempts + 1),
                     r.(phase := Attempting, attempts := 1, attemptStart := now)))
  }

  function ActAttempt(c: Conf, now: int, sh: Shared, r: Request, a: Attempt): Option<Move> {
    if !ForeignAttempt(a) then None
    else if a.timedOut && now < r.attemptStart + UploadTimeout(c.timeout, c.factor, r.attempts) then None
    else
      var r' := r.(seen := r.seen + [a]);
      match Judge(c.tries, r.attempts, a)
      case Return(res) => Some(Move(sh, Stopped(r', now, res, Judged(KindOf(a))).(phase := Leaving)))
      case Again =>
        Some(Move(sh.(attempts := sh.attempts + 1, retries := sh.retries + 1),
                  r'.(attempts := r.attempts + 1, attemptStart := now)))
  }

  function ActRelease(sh: Shared, r: Request): Move {
    if sh.count < r.parts then Move(sh, r.(phase := Overdrawn))
    else Move(sh.(count := sh.count - r.parts), r.(phase := After(Start), released := r.released + 1))
  }

  function ActAnswer(sh: Shared, r: Request): Move {
    var code := StatusCode(r.result);
    Move(sh.(responses := Bump(sh.responses, code)), r.(phase := Answered(code)))
  }
}
