/** What every request keeps at every step, and what a step moves between a
    request and the shared state. */
module Lifecycle {
  import opened Sums
  import opened FileParts
  import opened Timeouts
  import opened Errors
  import opened Retry
  import opened TcpInfos
  import opened Ledger
  import opened Requests

  // ----- what a request contributes to the shared counters

  /** The slots a request has taken and not yet given back. */
  function Held(r: Request): int {
    match r.phase
    case Granted => r.parts
    case Holding => r.parts
    case Before(_) => r.parts
    case Opening => r.parts
    case Attempting => r.parts
    case Leaving => r.parts
    case _ => 0
  }

  /** 1 inside the slow path of Acquire. */
  function InSlowPath(r: Request): int {
    if r.phase.Waiting? || r.phase.Granted? || r.phase.Denied? then 1 else 0
  }

  predicate Invalid(r: Request) {
    r.phase.Arrived? || r.phase.BadPath? || r.ending == Some(ParseFailed)
  }

  function Validated(r: Request): int {
    if Invalid(r) then 0 else 1
  }

  /** The attempts a request has started. */
  function Made(r: Request): int {
    |r.seen| + if r.phase.Attempting? then 1 else 0
  }

  function Retried(r: Request): int {
    if Made(r) > 0 then Made(r) - 1 else 0
  }

  function AnsweredWith(code: int): Request -> int {
    (r: Request) => if r.phase == Answered(code) then 1 else 0
  }

  // ----- the invariant of one request

  predicate HasParts(r: Request) {
    !Invalid(r)
  }

  /** The result is the one the attempts lead to, and its code is that of the ending. */
  predicate EndOk(c: Conf, r: Request) {
    && r.ending.Some?
    && StatusCode(r.result) == CodeOfEnding(r.ending.value)
    && match r.ending.value
       case ParseFailed => r.acquired == 0 && !r.refused && r.seen == [] && r.began.None? && r.attempts == 0
       case QueueExpired => DeniedOk(r)
       case QueueAborted => DeniedOk(r)
       case QueueFailed => DeniedOk(r)
       case OpenFailed => r.acquired == 1 && r.began.Some? && r.seen == [] && r.attempts == 0
       case Skipped =>
         c.tries < 1 && r.result.None? && r.acquired == 1 && r.began.Some? && r.seen == [] && r.attempts == 1
       case Judged(kind) => JudgedOk(c, r, kind)
  }

  predicate DeniedOk(r: Request) {
    r.acquired == 0 && r.refused && r.seen == [] && r.began.None? && r.attempts == 0
  }

  predicate JudgedOk(c: Conf, r: Request, kind: Kind) {
    && r.acquired == 1 && r.began.Some?
    && r.seen != [] && kind == KindOf(r.seen[|r.seen| - 1])
    && 1 <= r.attempts <= c.tries && |r.seen| == r.attempts
    && RunLoop(c.tries, 1, r.seen) == LoopState.Stopped(r.attempts, r.result)
  }

  predicate Untouched(r: Request) {
    r.acquired == 0 && r.released == 0 && r.began.None? && r.seen == [] && r.attempts == 0 && r.ending.None?
  }

  predicate Good(c: Conf, r: Request) {
    && (HasParts(r) ==> r.parts == UploadParts(r.size, c.partsize))
    && (r.acquired > 0 ==> r.parts <= c.slots)
    && (r.queued ==> r.refused)
    && match r.phase
       case Arrived => Untouched(r) && !r.refused
       case BadPath => Untouched(r) && !r.refused
       case Valid => Untouched(r) && !r.refused
       case Refused => Untouched(r) && r.refused && !r.queued
       case Waiting => Untouched(r) && r.refused
       case Denied(_) => Untouched(r) && r.refused
       case Granted => Untouched(r.(acquired := 0)) && r.acquired == 1 && r.refused
       case Holding => Untouched(r.(acquired := 0)) && r.acquired == 1 && r.queued == r.refused
       case Before(_) => Transferring(r) && r.seen == [] && r.attempts == 0
       case Opening => Transferring(r) && r.seen == [] && r.attempts == 0
       case Attempting =>
         && Transferring(r) && 1 <= r.attempts <= c.tries && |r.seen| == r.attempts - 1
         && RunLoop(c.tries, 1, r.seen) == Trying(r.attempts)
       case Leaving => EndOk(c, r) && r.acquired == 1 && r.released == 0 && r.queued == r.refused
       case After(_) => EndOk(c, r) && r.acquired == 1 && r.released == 1 && r.queued == r.refused
       case Finished => EndOk(c, r) && r.released == r.acquired && r.queued == r.refused
       case Answered(code) =>
         EndOk(c, r) && r.released == r.acquired && r.queued == r.refused && code == CodeOfEnding(r.ending.value)
       case Crashed => EndOk(c, r) && r.acquired == 1 && r.released == 1 && r.queued == r.refused
       case Overdrawn => false
  }

  predicate Transferring(r: Request) {
    r.acquired == 1 && r.released == 0 && r.began.Some? && r.ending.None? && r.queued == r.refused
  }

  lemma {:induction false} PartsPositive(c: Conf, r: Request)
    requires Good(c, r) && !Invalid(r)
    ensures r.parts >= 1
  {
  }

  lemma {:induction false} QueueErrorCode(end: QueueEnd)
    ensures StatusCode(Some(QueueError(end))) == CodeOfEnding(QueueEnding(end))
    ensures ContextError(end) in Nodes(QueueError(end))
  {
    JoinNodes(QueueTimeout, DeadlineExceeded);
    JoinNodes(Aborted, Canceled);
    NodeOfItself(DeadlineExceeded);
    assert Foreign(DeadlineExceeded) && Foreign(Canceled);
    match end
    case TimerFired => JoinCode(QueueTimeout, DeadlineExceeded);
    case ParentCanceled => JoinCode(Aborted, Canceled);
    case ParentDeadline =>
      WrapKeepsCode(DeadlineExceeded);
      ForeignCode(DeadlineExceeded);
  }

  lemma {:induction false} OpenErrorCode(e: Error)
    requires Foreign(e) && AsApi(e).None?
    ensures StatusCode(Some(Wrapped(e))) == CodeOfEnding(OpenFailed)
  {
    WrapKeepsCode(e);
    ForeignCode(e);
  }

  /** Every step keeps the invariant of the request that takes it, provided the
      slots it holds are among those counted. */
  lemma {:induction false} ActKeepsGood(c: Conf, now: int, sh: Shared, r: Request, a: Action)
    requires Good(c, r) && Held(r) <= sh.count
    requires Act(c, now, sh, r, a).Some?
    ensures Good(c, Act(c, now, sh, r, a).value.r)
  {
    hide Good, ActParse, ActTry, ActWait, ActLeaveQueue, ActPace, ActOpen, ActAttempt, ActRelease, ActAnswer;
    match r.phase
    case Arrived => ParseKeepsGood(c, now, sh, r, a.outcome);
    case Valid => TryKeepsGood(c, sh, r);
    case Refused => RefusedKeepsGood(c, r);
    case Waiting => WaitKeepsGood(c, now, sh, r, a);
    case Granted => LeaveQueueKeepsGood(c, now, sh, r, a);
    case Denied(end) => LeaveQueueKeepsGood(c, now, sh, r, a);
    case Holding => BeginKeepsGood(c, now, r);
    case Before(step) => PaceKeepsGood(c, sh, r, a, step);
    case Opening => OpenKeepsGood(c, now, sh, r, a.err);
    case Attempting => AttemptKeepsGood(c, now, sh, r, a.a);
    case Leaving => ReleaseKeepsGood(c, sh, r);
    case After(step) => PaceKeepsGood(c, sh, r, a, step);
    case Finished => AnswerKeepsGood(c, sh, r);
  }

  lemma {:induction false} RefusedKeepsGood(c: Conf, r: Request)
    requires Good(c, r) && r.phase.Refused?
    ensures Good(c, r.(phase := Waiting))
  {
  }

  lemma {:induction false} BeginKeepsGood(c: Conf, now: int, r: Request)
    requires Good(c, r) && r.phase.Holding?
    ensures Good(c, r.(began := Some(now), phase := Before(Start)))
  {
  }

  lemma {:induction false} AnswerKeepsGood(c: Conf, sh: Shared, r: Request)
    requires Good(c, r) && r.phase.Finished?
    ensures Good(c, ActAnswer(sh, r).r)
  {
    hide RunLoop, UploadParts, StatusCode, KindOf;
  }

  lemma {:induction false} ParseKeepsGood(c: Conf, now: int, sh: Shared, r: Request, o: ParseOutcome)
    requires Good(c, r) && r.phase.Arrived?
    ensures Good(c, ActParse(c, now, sh, r, o).r)
  {
    hide RunLoop, UploadParts;
  }

  lemma {:induction false} TryKeepsGood(c: Conf, sh: Shared, r: Request)
    requires Good(c, r) && r.phase.Valid? && 0 <= sh.count
    ensures Good(c, ActTry(c, sh, r).r)
  {
  }

  lemma {:induction false} WaitKeepsGood(c: Conf, now: int, sh: Shared, r: Request, a: Action)
    requires Good(c, r) && r.phase.Waiting? && 0 <= sh.count && ActWait(c, now, sh, r, a).Some?
    ensures Good(c, ActWait(c, now, sh, r, a).value.r)
  {
  }

  lemma {:induction false} LeaveQueueKeepsGood(c: Conf, now: int, sh: Shared, r: Request, a: Action)
    requires Good(c, r) && (r.phase.Granted? || r.phase.Denied?) && ActLeaveQueue(now, sh, r, a).Some?
    ensures Good(c, ActLeaveQueue(now, sh, r, a).value.r)
  {
    if r.phase.Denied? { QueueErrorCode(r.phase.end); }
  }

  lemma {:induction false} OpenKeepsGood(c: Conf, now: int, sh: Shared, r: Request, err: Option<Error>)
    requires Good(c, r) && r.phase.Opening? && ActOpen(c, now, sh, r, err).Some?
    ensures Good(c, ActOpen(c, now, sh, r, err).value.r)
  {
    if err.Some? { OpenErrorCode(err.value); }
  }

  lemma {:induction false} ReleaseKeepsGood(c: Conf, sh: Shared, r: Request)
    requires Good(c, r) && r.phase.Leaving? && Held(r) <= sh.count
    ensures Good(c, ActRelease(sh, r).r)
  {
    hide RunLoop, UploadParts, StatusCode, KindOf;
  }

  /** A step of updatePacingRate changes nothing of its request but the phase,
      nothing shared but the ledger, and panics only while no slot is taken. */
  lemma {:induction false} PaceStaysPut(c: Conf, sh: Shared, r: Request, a: Action, step: Repace)
    requires r.phase == Before(step) || r.phase == After(step)
    requires ActPace(c, sh, r, a, step).Some?
    ensures var m := ActPace(c, sh, r, a, step).value;
            && m.r == r.(phase := m.r.phase) && m.sh == sh.(tracker := m.sh.tracker)
            && (r.phase.Before? ==> m.r.phase.Before? || m.r.phase.Opening? || m.r.phase.Crashed?)
            && (r.phase.After? ==> m.r.phase.After? || m.r.phase.Finished? || m.r.phase.Crashed?)
            && (m.r.phase.Crashed? ==> sh.count == 0)
  {
  }

  lemma {:induction false} PaceKeepsGood(c: Conf, sh: Shared, r: Request, a: Action, step: Repace)
    requires Good(c, r) && Held(r) <= sh.count
    requires r.phase == Before(step) || r.phase == After(step)
    requires ActPace(c, sh, r, a, step).Some?
    ensures Good(c, ActPace(c, sh, r, a, step).value.r)
  {
    PaceStaysPut(c, sh, r, a, step);
    if r.phase.Before? { PartsPositive(c, r); }
    PhaseKeepsGood(c, r, ActPace(c, sh, r, a, step).value.r.phase);
    hide ActPace, Good;
  }

  lemma {:induction false} PhaseKeepsGood(c: Conf, r: Request, phase: Phase)
    requires Good(c, r) && (r.phase.Before? || r.phase.After?)
    requires r.phase.Before? ==> phase.Before? || phase.Opening?
    requires r.phase.After? ==> phase.After? || phase.Finished? || phase.Crashed?
    ensures Good(c, r.(phase := phase))
  {
    hide RunLoop, UploadParts, StatusCode, KindOf;
  }

  lemma {:induction false} AttemptKeepsGood(c: Conf, now: int, sh: Shared, r: Request, a: Attempt)
    requires Good(c, r) && r.phase.Attempting? && ActAttempt(c, now, sh, r, a).Some?
    ensures Good(c, ActAttempt(c, now, sh, r, a).value.r)
  {
    RunLoopExtend(c.tries, 1, r.seen, a);
    VerdictReturns(c.tries, r.attempts, a);
    VerdictCode(c.tries, r.attempts, a);
  }

  // ----- conservation

  /** What a step adds to each shared counter is what it adds to the request's
      contribution to it, and only an acquisition that fits raises the slot count. */
  ghost predicate Conserves(c: Conf, sh: Shared, r: Request, sh': Shared, r': Request) {
    && sh'.count - sh.count == Held(r') - Held(r)
    && (sh'.count <= sh.count || sh'.count <= c.slots)
    && sh'.valid - sh.valid == Validated(r') - Validated(r)
    && sh'.attempts - sh.attempts == Made(r') - Made(r)
    && sh'.retries - sh.retries == Retried(r') - Retried(r)
    && sh'.waiters == Gauge(sh.waiters, InSlowPath(r') - InSlowPath(r))
    && sh'.responses == (if r'.phase.Answered? && !r.phase.Answered?
                         then Bump(sh.responses, r'.phase.code) else sh.responses)
    && (r.phase.Answered? ==> r'.phase == r.phase)
  }

  /** The waiter gauge moved by d. */
  function Gauge(waiters: uint32, d: int): uint32 {
    (waiters + d) % TcpInfos.TWO_TO_32
  }

  lemma {:induction false} ActConserves(c: Conf, now: int, sh: Shared, r: Request, a: Action)
    requires Good(c, r) && Held(r) <= sh.count
    requires Act(c, now, sh, r, a).Some?
    ensures Conserves(c, sh, r, Act(c, now, sh, r, a).value.sh, Act(c, now, sh, r, a).value.r)
  {
    hide Good, Conserves, ActParse, ActTry, ActWait, ActLeaveQueue, ActPace, ActOpen, ActAttempt, ActRelease, ActAnswer;
    match r.phase
    case Arrived => ParseConserves(c, now, sh, r, a.outcome);
    case Valid => TryConserves(c, sh, r);
    case Refused => RefusedConserves(c, sh, r);
    case Waiting => WaitConserves(c, now, sh, r, a);
    case Granted => LeaveQueueConserves(c, now, sh, r, a);
    case Denied(end) => LeaveQueueConserves(c, now, sh, r, a);
    case Holding => BeginConserves(c, now, sh, r);
    case Before(step) => PaceConserves(c, sh, r, a, step);
    case Opening => OpenConserves(c, now, sh, r, a.err);
    case Attempting => AttemptConserves(c, now, sh, r, a.a);
    case Leaving => ReleaseConserves(c, sh, r);
    case After(step) => PaceConserves(c, sh, r, a, step);
    case Finished => AnswerConserves(c, sh, r);
  }

  lemma {:induction false} ParseConserves(c: Conf, now: int, sh: Shared, r: Request, o: ParseOutcome)
    requires Good(c, r) && r.phase.Arrived?
    ensures Conserves(c, sh, r, ActParse(c, now, sh, r, o).sh, ActParse(c, now, sh, r, o).r)
  {
    GaugeDown(sh.waiters);
    hide Gauge, RunLoop, UploadParts, StatusCode;
  }

  lemma {:induction false} TryConserves(c: Conf, sh: Shared, r: Request)
    requires Good(c, r) && r.phase.Valid?
    ensures Conserves(c, sh, r, ActTry(c, sh, r).sh, ActTry(c, sh, r).r)
  {
  }

  lemma {:induction false} RefusedConserves(c: Conf, sh: Shared, r: Request)
    requires Good(c, r) && r.phase.Refused?
    ensures Conserves(c, sh, r, sh.(waiters := Add32(sh.waiters, 1)), r.(phase := Waiting))
  {
  }

  lemma {:induction false} WaitConserves(c: Conf, now: int, sh: Shared, r: Request, a: Action)
    requires Good(c, r) && r.phase.Waiting? && ActWait(c, now, sh, r, a).Some?
    ensures Conserves(c, sh, r, ActWait(c, now, sh, r, a).value.sh, ActWait(c, now, sh, r, a).value.r)
  {
    GaugeDown(sh.waiters);
    hide Gauge, Add32, UploadParts, RunLoop, StatusCode;
  }

  lemma {:induction false} LeaveQueueConserves(c: Conf, now: int, sh: Shared, r: Request, a: Action)
    requires Good(c, r) && (r.phase.Granted? || r.phase.Denied?) && ActLeaveQueue(now, sh, r, a).Some?
    ensures Conserves(c, sh, r, ActLeaveQueue(now, sh, r, a).value.sh, ActLeaveQueue(now, sh, r, a).value.r)
  {
    GaugeDown(sh.waiters);
    if r.phase.Granted? {
      GrantedConserves(c, now, sh, r, a);
    } else {
      DeniedConserves(c, now, sh, r, a);
    }
    hide Conserves, Good, ActLeaveQueue;
  }

  lemma {:induction false} GrantedConserves(c: Conf, now: int, sh: Shared, r: Request, a: Action)
    requires Good(c, r) && r.phase.Granted? && ActLeaveQueue(now, sh, r, a).Some?
    ensures Conserves(c, sh, r, ActLeaveQueue(now, sh, r, a).value.sh, ActLeaveQueue(now, sh, r, a).value.r)
  {
    GaugeDown(sh.waiters);
    hide Gauge, Add32;
  }

  lemma {:induction false} DeniedConserves(c: Conf, now: int, sh: Shared, r: Request, a: Action)
    requires Good(c, r) && r.phase.Denied? && ActLeaveQueue(now, sh, r, a).Some?
    ensures Conserves(c, sh, r, ActLeaveQueue(now, sh, r, a).value.sh, ActLeaveQueue(now, sh, r, a).value.r)
  {
    GaugeDown(sh.waiters);
    hide Gauge, Add32, QueueError;
  }

  /** Adding 2^32 - 1 to a 32-bit unsigned gauge takes one away. */
  lemma {:induction false} GaugeDown(waiters: uint32)
    ensures Add32(waiters, TcpInfos.TWO_TO_32 - 1) == Gauge(waiters, -1)
    ensures Gauge(waiters, 0) == waiters
  {
  }

  lemma {:induction false} BeginConserves(c: Conf, now: int, sh: Shared, r: Request)
    requires Good(c, r) && r.phase.Holding?
    ensures Conserves(c, sh, r, sh, r.(began := Some(now), phase := Before(Start)))
  {
  }

  lemma {:induction false} PaceConserves(c: Conf, sh: Shared, r: Request, a: Action, step: Repace)
    requires Good(c, r) && Held(r) <= sh.count
    requires r.phase == Before(step) || r.phase == After(step)
    requires ActPace(c, sh, r, a, step).Some?
    ensures Conserves(c, sh, r, ActPace(c, sh, r, a, step).value.sh, ActPace(c, sh, r, a, step).value.r)
  {
    PaceStaysPut(c, sh, r, a, step);
    if r.phase.Before? { PartsPositive(c, r); }
    var m := ActPace(c, sh, r, a, step).value;
    hide ActPace, Conserves;
    PhaseConserves(c, sh, r, m.sh.tracker, m.r.phase);
  }

  lemma {:induction false} PhaseConserves(c: Conf, sh: Shared, r: Request, t: Tracker, phase: Phase)
    requires Good(c, r)
    requires r.phase.Before? ==> phase.Before? || phase.Opening?
    requires r.phase.After? ==> phase.After? || phase.Finished? || phase.Crashed?
    requires r.phase.Before? || r.phase.After?
    ensures Conserves(c, sh, r, sh.(tracker := t), r.(phase := phase))
  {
    GaugeDown(sh.waiters);
    hide Gauge;
  }

  lemma {:induction false} OpenConserves(c: Conf, now: int, sh: Shared, r: Request, err: Option<Error>)
    requires Good(c, r) && r.phase.Opening? && ActOpen(c, now, sh, r, err).Some?
    ensures Conserves(c, sh, r, ActOpen(c, now, sh, r, err).value.sh, ActOpen(c, now, sh, r, err).value.r)
  {
    GaugeDown(sh.waiters);
    hide Gauge, RunLoop, UploadParts, StatusCode, Foreign, AsApi;
  }

  lemma {:induction false} AttemptConserves(c: Conf, now: int, sh: Shared, r: Request, a: Attempt)
    requires Good(c, r) && r.phase.Attempting? && ActAttempt(c, now, sh, r, a).Some?
    ensures Conserves(c, sh, r, ActAttempt(c, now, sh, r, a).value.sh, ActAttempt(c, now, sh, r, a).value.r)
  {
    GaugeDown(sh.waiters);
    hide Gauge, Judge, RunLoop, UploadParts, UploadTimeout, ForeignAttempt, StatusCode;
  }

  lemma {:induction false} ReleaseConserves(c: Conf, sh: Shared, r: Request)
    requires Good(c, r) && r.phase.Leaving? && Held(r) <= sh.count
    ensures Conserves(c, sh, r, ActRelease(sh, r).sh, ActRelease(sh, r).r)
  {
    PartsPositive(c, r);
    GaugeDown(sh.waiters);
    hide Gauge, Good;
  }

  lemma {:induction false} AnswerConserves(c: Conf, sh: Shared, r: Request)
    requires Good(c, r) && r.phase.Finished?
    ensures Conserves(c, sh, r, ActAnswer(sh, r).sh, ActAnswer(sh, r).r)
  {
    GaugeDown(sh.waiters);
    hide Gauge, RunLoop, UploadParts, Bump, StatusCode;
  }

  // ----- the ledger

  /** What the connections see of a step: a store or an application of the pace. */
  function NetEventOfPhase(phase: Phase, a: Action): seq<NetEvent> {
    if !phase.Before? && !phase.After? then []
    else match phase.step
         case ToStore(rate) => [StorePace(rate)]
         case ToApply(rate) => if a.Apply? then [ApplyPace(rate, a.failed)] else []
         case _ => []
  }

  /** The ledger moves by exactly the step the connections see, or not at all. */
  lemma {:induction false} ActIsLedgerStep(c: Conf, now: int, sh: Shared, r: Request, a: Action)
    requires Act(c, now, sh, r, a).Some?
    ensures var seen := NetEventOfPhase(r.phase, a);
            && |seen| <= 1
            && Some(Act(c, now, sh, r, a).value.sh.tracker)
               == if seen == [] then Some(sh.tracker) else NetStep(sh.tracker, seen[0])
  {
    hide ActPace, NetStep, UploadParts, StatusCode, Judge, UploadTimeout, QueueError, Foreign, AsApi, Bump;
    if r.phase.Before? || r.phase.After? { PaceIsLedgerStep(c, sh, r, a, r.phase.step); }
  }

  lemma {:induction false} PaceIsLedgerStep(c: Conf, sh: Shared, r: Request, a: Action, step: Repace)
    requires r.phase == Before(step) || r.phase == After(step)
    requires ActPace(c, sh, r, a, step).Some?
    ensures var seen := NetEventOfPhase(r.phase, a);
            && |seen| <= 1
            && Some(ActPace(c, sh, r, a, step).value.sh.tracker)
               == if seen == [] then Some(sh.tracker) else NetStep(sh.tracker, seen[0])
  {
    hide LimitBytes, SetActive;
  }
}
