/** Time over whole runs: monotone, fully accounted for, and bounded when steps are prompt. */
module Deadlines {
  import opened Sums
  import opened FileParts
  import opened Timeouts
  import opened Errors
  import opened Retry
  import opened UploadTasks
  import opened Requests
  import opened Lifecycle
  import opened Scheduler
  import opened Invariants
  import opened Termination

  // ----- a monotone clock

  /** A request starts, queues, begins to transfer and stops in this order. */
  predicate Ordered(now: int, r: Request) {
    && r.start <= r.queueStart <= now
    && (r.began.Some? ==> r.start <= r.began.value <= now)
    && (r.ending.Some? ==> r.start <= r.end <= now)
    && (r.ending.Some? && r.began.Some? ==> r.began.value <= r.end)
    && (r.phase.Attempting? ==> r.start <= r.attemptStart <= now)
  }

  lemma {:induction false} ActOrdered(c: Conf, now: int, sh: Shared, r: Request, a: Action)
    requires Good(c, r) && Ordered(now, r) && Act(c, now, sh, r, a).Some?
    ensures Ordered(now, Act(c, now, sh, r, a).value.r)
  {
    hide ActPace, Judge, UploadTimeout, UploadParts, RunLoop, StatusCode, EndOk, QueueError, Foreign;
    if r.phase.Before? || r.phase.After? {
      PaceStaysPut(c, sh, r, a, r.phase.step);
    }
  }

  lemma {:induction false} RunOrdered(c: Conf, events: seq<Event>, i: nat)
    requires Run(c, events).Some? && i < |Run(c, events).value.reqs|
    ensures Ordered(Run(c, events).value.now, Run(c, events).value.reqs[i])
  {
    if events != [] {
      var prefix := events[..|events| - 1];
      var s := Run(c, prefix).value;
      if i < |s.reqs| {
        RunOrdered(c, prefix, i);
        RunGood(c, prefix, i);
        match events[|events| - 1]
        case Req(j, a) => if i == j { ActOrdered(c, s.now, s.sh, s.reqs[i], a); }
        case _ =>
      }
      hide Act, Good;
    }
  }

  /** The times a stopped request reports: Stop on success, StopNoUpload on failure. */
  function Reported(r: Request): Times {
    Final(r.result.Some?, r.queued, r.start, r.began, r.end, r.size)
  }

  ghost predicate Accounted(r: Request) {
    r.phase.Answered? ==>
      var t := Reported(r);
      && (r.queued <==> r.refused)
      && (r.began.Some? <==> r.acquired == 1)
      && TimesAre(t, r.queued, r.start, r.began, r.end)
      && 0.0 <= t.queued <= t.total && 0.0 <= t.transfer <= t.total
      && (t.queued + t.transfer == t.total <==> r.refused || r.acquired == 1 || r.start == r.end)
      && (r.acquired == 0 ==> t.transfer == 0.0)
      && (r.phase.code != 200 ==> t.rate == Finite(0.0))
      && (r.phase.code == 200 && t.transfer > 0.0 ==>
            t.rate.Finite? && t.rate.bytesPerSecond * t.transfer == r.size as real)
  }

  /** The time of every answered request is fully accounted for: it queued exactly
      when the fast path failed, queue and transfer fill the total exactly when it
      queued, started or took no time, failures report no rate, and the rate of a
      success moves the file in the transfer time. */
  lemma {:induction false} TimesAccounted(c: Conf, events: seq<Event>, i: nat)
    requires Run(c, events).Some? && i < |Run(c, events).value.reqs|
    ensures Accounted(Run(c, events).value.reqs[i])
  {
    RunGood(c, events, i);
    RunOrdered(c, events, i);
    var s := Run(c, events).value;
    OrderedIsAccounted(c, s.now, s.reqs[i]);
    hide Run, Good, Accounted, Ordered;
  }

  lemma {:induction false} OrderedIsAccounted(c: Conf, now: int, r: Request)
    requires Good(c, r) && Ordered(now, r)
    ensures Accounted(r)
  {
    hide Good, Measured;
    if r.phase.Answered? {
      AnswerFacts(c, r);
      TimeAccounted(r.queued, r.start, r.began, r.end, r.size);
      TimesMeasured(r.queued, r.start, r.began, r.end, r.size);
      if r.began.Some? { RateMovesSize(r.queued, r.start, r.began.value, r.end, r.size); }
    }
  }

  lemma {:induction false} AnswerFacts(c: Conf, r: Request)
    requires Good(c, r) && r.phase.Answered?
    ensures r.ending.Some? && (r.queued <==> r.refused) && (r.began.Some? <==> r.acquired == 1) && r.acquired <= 1
    ensures r.result.None? <==> r.phase.code == 200
  {
    OnlyNilIs200(r.result);
    hide StatusCode, RunLoop, KindOf;
  }

  lemma {:induction false} OnlyNilIs200(result: Option<Error>)
    ensures result.None? <==> StatusCode(result) == 200
  {
  }

  // ----- what the timers guarantee

  /** The timeouts of those attempts that their own timer ended. */
  function TimeSpent(c: Conf, seen: seq<Attempt>): nat {
    if seen == [] then 0
    else TimeSpent(c, seen[..|seen| - 1])
         + if seen[|seen| - 1].timedOut then UploadTimeout(c.timeout, c.factor, |seen|) else 0
  }

  predicate Waited(c: Conf, now: int, r: Request) {
    && (r.phase == Denied(TimerFired) ==> now >= r.queueStart + c.queueTimeout)
    && (r.ending == Some(QueueExpired) ==> r.end >= r.queueStart + c.queueTimeout)
    && (r.phase.Attempting? && r.began.Some? ==> r.attemptStart >= r.began.value + TimeSpent(c, r.seen))
    && (r.ending.Some? && r.began.Some? ==> r.end >= r.began.value + TimeSpent(c, r.seen))
  }

  lemma {:induction false} ActWaited(c: Conf, now: int, sh: Shared, r: Request, a: Action)
    requires Good(c, r) && Ordered(now, r) && Waited(c, now, r) && Act(c, now, sh, r, a).Some?
    ensures Waited(c, now, Act(c, now, sh, r, a).value.r)
  {
    hide ActPace, ActAttempt, UploadTimeout, UploadParts, RunLoop, StatusCode, EndOk, QueueError, Foreign;
    if r.phase.Before? || r.phase.After? {
      PaceStaysPut(c, sh, r, a, r.phase.step);
    } else if r.phase.Attempting? {
      AttemptWaited(c, now, sh, r, a.a);
    }
  }

  lemma {:induction false} AttemptWaited(c: Conf, now: int, sh: Shared, r: Request, a: Attempt)
    requires Good(c, r) && Ordered(now, r) && r.phase.Attempting? && Waited(c, now, r)
    requires ActAttempt(c, now, sh, r, a).Some?
    ensures Waited(c, now, ActAttempt(c, now, sh, r, a).value.r)
  {
    MidAttempt(c, r);
    OneMoreSpent(c, r.seen, a);
    hide Good, Judge, UploadTimeout, ForeignAttempt, TimeSpent;
  }

  lemma {:induction false} MidAttempt(c: Conf, r: Request)
    requires Good(c, r) && r.phase.Attempting?
    ensures r.began.Some? && r.ending.None? && |r.seen| == r.attempts - 1
  {
    hide RunLoop, UploadParts;
  }

  lemma {:induction false} OneMoreSpent(c: Conf, seen: seq<Attempt>, a: Attempt)
    ensures TimeSpent(c, seen + [a])
         == TimeSpent(c, seen) + if a.timedOut then UploadTimeout(c.timeout, c.factor, |seen| + 1) else 0
  {
    assert (seen + [a])[..|seen|] == seen;
  }

  lemma {:induction false} RunWaited(c: Conf, events: seq<Event>, i: nat)
    requires Run(c, events).Some? && i < |Run(c, events).value.reqs|
    ensures Waited(c, Run(c, events).value.now, Run(c, events).value.reqs[i])
  {
    if events != [] {
      var prefix := events[..|events| - 1];
      var s := Run(c, prefix).value;
      if i < |s.reqs| {
        RunWaited(c, prefix, i);
        RunGood(c, prefix, i);
        RunOrdered(c, prefix, i);
        match events[|events| - 1]
        case Req(j, a) => if i == j { ActWaited(c, s.now, s.sh, s.reqs[i], a); }
        case _ =>
      }
      hide Act, Good, Ordered;
    }
  }

  ghost predicate TimersRespected(c: Conf, r: Request) {
    && (r.phase == Answered(408) ==> r.end - r.start >= c.queueTimeout)
    && (r.phase.Answered? && r.began.Some? ==> r.end - r.began.value >= TimeSpent(c, r.seen))
    && (r.phase == Answered(504) ==>
          && r.began.Some? && |r.seen| == c.tries >= 1 && r.seen[c.tries - 1].timedOut
          && r.end - r.began.value >= UploadTimeout(c.timeout, c.factor, c.tries)
          && ((forall i :: 0 <= i < |r.seen| ==> r.seen[i].timedOut) ==>
                r.end - r.began.value >= TotalTimeout(c.timeout, c.factor, c.tries)))
  }

  /** In any run, prompt or not: an answer of 408 comes no earlier than the queue timeout
      after the arrival, and an upload lasts at least the timeouts of the attempts that
      timed out; an answer of 504 follows as many attempts as there are tries, the last
      of which timed out, and takes all their timeouts if all of them did. */
  lemma {:induction false} NeverEarly(c: Conf, events: seq<Event>, i: nat)
    requires Run(c, events).Some? && i < |Run(c, events).value.reqs|
    ensures TimersRespected(c, Run(c, events).value.reqs[i])
  {
    RunGood(c, events, i);
    RunOrdered(c, events, i);
    RunWaited(c, events, i);
    WaitedIsRespected(c, Run(c, events).value.now, Run(c, events).value.reqs[i]);
    hide Run, Good, Ordered, Waited, TimersRespected;
  }

  lemma {:induction false} WaitedIsRespected(c: Conf, now: int, r: Request)
    requires Good(c, r) && Ordered(now, r) && Waited(c, now, r)
    ensures TimersRespected(c, r)
  {
    hide RunLoop, StatusCode, UploadParts, UploadTimeout, Judge;
    if r.phase == Answered(504) {
      assert r.ending == Some(Judged(TimedOut));
      LastIsTry(c, r);
      if forall i :: 0 <= i < |r.seen| ==> r.seen[i].timedOut { AllTimedOut(c, r.seen); }
    }
  }

  /** A request judged by a retryable attempt has used up its tries. */
  lemma {:induction false} LastIsTry(c: Conf, r: Request)
    requires Good(c, r) && r.phase == Answered(504) && r.ending == Some(Judged(TimedOut))
    ensures |r.seen| == c.tries >= 1 && r.seen[c.tries - 1].timedOut && r.began.Some?
  {
    JudgedFacts(c, r);
    LoopStops(c.tries, 1, r.seen, r.attempts);
    hide RunLoop, Good, Judge;
  }

  lemma {:induction false} JudgedFacts(c: Conf, r: Request)
    requires Good(c, r) && r.phase.Answered? && r.ending == Some(Judged(TimedOut))
    ensures r.began.Some? && |r.seen| == r.attempts >= 1 && KindOf(r.seen[r.attempts - 1]) == TimedOut
    ensures RunLoop(c.tries, 1, r.seen) == LoopState.Stopped(r.attempts, r.result) && r.attempts <= c.tries
  {
    hide RunLoop, StatusCode, UploadParts, KindOf;
  }

  lemma {:induction false} AllTimedOut(c: Conf, seen: seq<Attempt>)
    requires forall i :: 0 <= i < |seen| ==> seen[i].timedOut
    ensures TimeSpent(c, seen) == TotalTimeout(c.timeout, c.factor, |seen|)
  {
    if seen != [] { AllTimedOut(c, seen[..|seen| - 1]); }
  }

  // ----- prompt runs

  /** Time may pass for a request that waits for slots or for the store, up to its
      timer, and for one that is over; every other step takes no time. */
  predicate MayElapse(c: Conf, now: int, r: Request) {
    match r.phase
    case Waiting => now <= r.queueStart + c.queueTimeout
    case Attempting => now <= r.attemptStart + UploadTimeout(c.timeout, c.factor, r.attempts)
    case Answered(_) => true
    case BadPath => true
    case Crashed => true
    case _ => false
  }

  ghost predicate PromptEvent(c: Conf, s: State, e: Event) {
    e.Tick? && e.d > 0 ==> forall i :: 0 <= i < |s.reqs| ==> MayElapse(c, s.now + e.d, s.reqs[i])
  }

  ghost predicate Prompt(c: Conf, events: seq<Event>) {
    events != [] ==>
      var prefix := events[..|events| - 1];
      Prompt(c, prefix) && (Run(c, prefix).Some? ==> PromptEvent(c, Run(c, prefix).value, events[|events| - 1]))
  }

  /** Start, queue time and the timeouts of the first n attempts. */
  function By(c: Conf, r: Request, n: int): int {
    r.start + c.queueTimeout + TotalTimeout(c.timeout, c.factor, n)
  }

  predicate OnTime(c: Conf, now: int, r: Request) {
    match r.phase
    case Arrived => now == r.start
    case Valid => now == r.start == r.queueStart
    case Refused => now == r.start == r.queueStart
    case Waiting => r.start == r.queueStart && now <= By(c, r, 0)
    case Granted => now <= By(c, r, 0)
    case Denied(_) => now <= By(c, r, 0)
    case Holding => now <= By(c, r, 0)
    case Before(_) => now <= By(c, r, 0)
    case Opening => now <= By(c, r, 0)
    case Attempting =>
      && r.attemptStart <= By(c, r, r.attempts - 1)
      && now <= r.attemptStart + UploadTimeout(c.timeout, c.factor, r.attempts)
    case Leaving => now == r.end <= By(c, r, |r.seen|)
    case After(_) => now == r.end <= By(c, r, |r.seen|)
    case Finished => now == r.end <= By(c, r, |r.seen|)
    case Answered(_) => r.end <= By(c, r, |r.seen|)
    case Crashed => r.end <= By(c, r, |r.seen|)
    case _ => true
  }

  lemma {:induction false} ActOnTime(c: Conf, now: int, sh: Shared, r: Request, a: Action)
    requires Good(c, r) && OnTime(c, now, r) && Held(r) <= sh.count && Act(c, now, sh, r, a).Some?
    ensures OnTime(c, now, Act(c, now, sh, r, a).value.r)
  {
    FirstTimeout(c);
    hide TotalTimeout, UploadTimeout, ActPace, UploadParts, StatusCode, RunLoop, QueueError, ActAttempt, EndOk, Foreign;
    if r.phase.Before? || r.phase.After? {
      PaceStaysPut(c, sh, r, a, r.phase.step);
      if r.phase.Before? { PartsPositive(c, r); }
    } else if r.phase.Attempting? {
      AttemptOnTime(c, now, sh, r, a.a);
    }
  }

  lemma {:induction false} FirstTimeout(c: Conf)
    ensures TotalTimeout(c.timeout, c.factor, 0) == 0
  {
  }

  lemma {:induction false} AttemptOnTime(c: Conf, now: int, sh: Shared, r: Request, a: Attempt)
    requires Good(c, r) && r.phase.Attempting? && OnTime(c, now, r) && ActAttempt(c, now, sh, r, a).Some?
    ensures OnTime(c, now, ActAttempt(c, now, sh, r, a).value.r)
  {
    assert TotalTimeout(c.timeout, c.factor, r.attempts)
        == TotalTimeout(c.timeout, c.factor, r.attempts - 1) + UploadTimeout(c.timeout, c.factor, r.attempts);
    hide Judge, UploadTimeout, RunLoop;
  }

  lemma {:induction false} TickOnTime(c: Conf, now: int, d: nat, r: Request)
    requires OnTime(c, now, r) && (d > 0 ==> MayElapse(c, now + d, r))
    ensures OnTime(c, now + d, r)
  {
    FirstTimeout(c);
    hide TotalTimeout, UploadTimeout;
  }

  lemma {:induction false} RunOnTime(c: Conf, events: seq<Event>, i: nat)
    requires Run(c, events).Some? && Prompt(c, events) && i < |Run(c, events).value.reqs|
    ensures OnTime(c, Run(c, events).value.now, Run(c, events).value.reqs[i])
  {
    if events != [] {
      var prefix := events[..|events| - 1];
      var s := Run(c, prefix).value;
      hide OnTime, Act, Good, MayElapse, Held;
      if i < |s.reqs| {
        RunOnTime(c, prefix, i);
        RunGood(c, prefix, i);
        RunCounts(c, prefix);
        HeldIsCounted(c, s.reqs, i);
        match events[|events| - 1]
        case Req(j, a) => if i == j { ActOnTime(c, s.now, s.sh, s.reqs[i], a); }
        case Tick(d) => TickOnTime(c, s.now, d, s.reqs[i]);
        case _ =>
      } else {
        NewOnTime(c, s.now);
      }
    }
  }

  lemma {:induction false} NewOnTime(c: Conf, now: int)
    ensures OnTime(c, now, NewRequest(now))
  {
  }

  /** In a prompt run every request stops by its start plus the queue time plus the
      timeouts of the attempts it made, hence of all configured tries, and one that
      has not stopped is still within that time. */
  lemma {:induction false} EndsInTime(c: Conf, events: seq<Event>, i: nat)
    requires Run(c, events).Some? && Prompt(c, events) && i < |Run(c, events).value.reqs|
    ensures var r := Run(c, events).value.reqs[i];
            if r.ending.Some? then r.end <= By(c, r, |r.seen|) <= By(c, r, c.tries)
            else r.phase.BadPath? || Run(c, events).value.now <= By(c, r, c.tries)
  {
    RunOnTime(c, events, i);
    RunGood(c, events, i);
    var s := Run(c, events).value;
    OnTimeIsBounded(c, s.now, s.reqs[i]);
    hide Run, Good, OnTime, By;
  }

  lemma {:induction false} OnTimeIsBounded(c: Conf, now: int, r: Request)
    requires Good(c, r) && OnTime(c, now, r)
    ensures if r.ending.Some? then r.end <= By(c, r, |r.seen|) <= By(c, r, c.tries)
            else r.phase.BadPath? || now <= By(c, r, c.tries)
  {
    hide UploadTimeout, RunLoop, StatusCode, TotalTimeout, KindOf, UploadParts;
    SeenWithinTries(c, r);
    TotalTimeoutMonotone(c.timeout, c.factor, |r.seen|, Tries(c));
    TotalTimeoutMonotone(c.timeout, c.factor, 0, Tries(c));
    NoNegativeTries(c);
    if r.phase.Attempting? { NextTimeout(c, r); }
  }

  /** A request sees no more attempts end than there are tries. */
  lemma {:induction false} SeenWithinTries(c: Conf, r: Request)
    requires Good(c, r)
    ensures |r.seen| <= Tries(c)
    ensures r.phase.Attempting? ==> |r.seen| == r.attempts - 1 && 1 <= r.attempts <= Tries(c)
  {
    hide RunLoop, StatusCode, KindOf, UploadParts;
  }

  lemma {:induction false} NoNegativeTries(c: Conf)
    ensures TotalTimeout(c.timeout, c.factor, c.tries) == TotalTimeout(c.timeout, c.factor, Tries(c))
  {
  }

  lemma {:induction false} NextTimeout(c: Conf, r: Request)
    requires 1 <= r.attempts <= Tries(c)
    ensures TotalTimeout(c.timeout, c.factor, r.attempts - 1) + UploadTimeout(c.timeout, c.factor, r.attempts)
            <= TotalTimeout(c.timeout, c.factor, c.tries)
  {
    TotalTimeoutMonotone(c.timeout, c.factor, r.attempts, c.tries);
    hide UploadTimeout;
  }

  /** Without backoff that bound is queue time plus tries times the timeout; with
      backoff it is the geometric sum. */
  lemma {:induction false} BoundInClosedForm(c: Conf, r: Request)
    requires c.tries >= 0
    ensures c.factor <= 1 ==> By(c, r, c.tries) == r.start + c.queueTimeout + c.tries * c.timeout
    ensures c.factor >= 2 ==> (By(c, r, c.tries) - r.start - c.queueTimeout) * (c.factor - 1)
                              == c.timeout * (Pow(c.factor, c.tries) - 1)
  {
    if c.factor <= 1 {
      TotalTimeoutFlat(c.timeout, c.factor, c.tries);
    } else {
      TotalTimeoutGeometric(c.timeout, c.factor, c.tries);
    }
  }
}
