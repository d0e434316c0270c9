/** Upload slots over whole runs: none is lost, none is taken twice, none is overdrawn. */
module Slots {
  import opened Sums
  import opened FileParts
  import opened Timeouts
  import opened Errors
  import opened Retry
  import opened Requests
  import opened Lifecycle
  import opened Scheduler
  import opened Invariants

  /** In every reachable state the slot count is the sum of the parts of the
      requests between their Acquire and their Release, and stays within the limit. */
  lemma {:induction false} SlotsConserved(c: Conf, events: seq<Event>)
    requires Run(c, events).Some?
    ensures var s := Run(c, events).value;
            0 <= s.sh.count == Sum(s.reqs, Held) <= c.slots
    ensures var s := Run(c, events).value;
            forall i :: 0 <= i < |s.reqs| ==> 0 <= Held(s.reqs[i]) <= s.sh.count
  {
    RunCounts(c, events);
    var s := Run(c, events).value;
    forall i | 0 <= i < |s.reqs| ensures 0 <= Held(s.reqs[i]) <= s.sh.count {
      HeldIsCounted(c, s.reqs, i);
    }
    if s.reqs != [] { HeldIsCounted(c, s.reqs, 0); }
  }

  predicate HasLeft(r: Request) {
    r.phase.After? || r.phase.Finished? || r.phase.Answered? || r.phase.Crashed?
  }

  /** What a request holds is its parts from its one acquisition to its one
      release, and all that left have released as often as they acquired. */
  predicate Settled(r: Request) {
    && r.released <= r.acquired <= 1
    && Held(r) == r.parts * (r.acquired - r.released)
    && (HasLeft(r) ==>
          && r.acquired == r.released && r.ending.Some?
          && (r.acquired == 1 <==> r.ending.value in {OpenFailed, Skipped} || r.ending.value.Judged?))
    && !r.phase.Overdrawn?
  }

  lemma {:induction false} GoodIsSettled(c: Conf, r: Request)
    requires Good(c, r)
    ensures Settled(r)
  {
    assert r.acquired - r.released == 0 || r.acquired - r.released == 1;
  }

  /** Every path gives its slots back exactly once, and no Release ever finds too few taken. */
  lemma {:induction false} ReleasedOnce(c: Conf, events: seq<Event>, i: nat)
    requires Run(c, events).Some? && i < |Run(c, events).value.reqs|
    ensures Settled(Run(c, events).value.reqs[i])
    ensures var s := Run(c, events).value;
            s.reqs[i].phase.Leaving? ==> 1 <= s.reqs[i].parts <= s.sh.count
  {
    RunCounts(c, events);
    RunGood(c, events, i);
    var s := Run(c, events).value;
    GoodIsSettled(c, s.reqs[i]);
    HeldIsCounted(c, s.reqs, i);
    if s.reqs[i].phase.Leaving? { PartsPositive(c, s.reqs[i]); }
    hide Settled, Run;
  }

  /** A request of more parts than there are slots never takes one, and can only
      end in the queue. */
  lemma {:induction false} OversizeNeverHolds(c: Conf, events: seq<Event>, i: nat)
    requires Run(c, events).Some? && i < |Run(c, events).value.reqs|
    requires !Invalid(Run(c, events).value.reqs[i])
    requires UploadParts(Run(c, events).value.reqs[i].size, c.partsize) > c.slots
    ensures var r := Run(c, events).value.reqs[i];
            && Held(r) == 0 && r.acquired == 0
            && (r.ending.Some? ==> r.ending.value in {QueueExpired, QueueAborted, QueueFailed})
            && (forall code :: r.phase == Answered(code) ==> code in {408, 418, 500})
  {
    RunGood(c, events, i);
  }

  /** A waiter is admitted exactly when its parts fit beside what the requests
      hold: no slot is ever lost. */
  lemma {:induction false} AdmittedWhenFits(c: Conf, events: seq<Event>, i: nat)
    requires Run(c, events).Some? && i < |Run(c, events).value.reqs|
    requires Run(c, events).value.reqs[i].phase.Waiting?
    ensures var s := Run(c, events).value;
            Step(c, s, Req(i, Grant)).Some? <==> Sum(s.reqs, Held) + s.reqs[i].parts <= c.slots
    ensures var s := Run(c, events).value;
            (forall j :: 0 <= j < |s.reqs| ==> Held(s.reqs[j]) == 0) && s.reqs[i].parts <= c.slots
            ==> Step(c, s, Req(i, Grant)).Some?
  {
    RunCounts(c, events);
    var s := Run(c, events).value;
    if forall j :: 0 <= j < |s.reqs| ==> Held(s.reqs[j]) == 0 {
      SumOfZeros(s.reqs, Held);
    }
    GrantEnabled(c, s, i);
    hide Held, Step, Good, Run;
  }

  /** TryAcquire admits a request exactly when its parts fit beside what the
      requests hold; otherwise the request goes on to queue. */
  lemma {:induction false} AdmittedAtOnce(c: Conf, events: seq<Event>, i: nat)
    requires Run(c, events).Some? && i < |Run(c, events).value.reqs|
    requires Run(c, events).value.reqs[i].phase.Valid?
    ensures var s := Run(c, events).value;
            && Step(c, s, Req(i, Go)).Some?
            && var r := Step(c, s, Req(i, Go)).value.reqs[i];
            if Sum(s.reqs, Held) + s.reqs[i].parts <= c.slots then r.phase.Holding? && !r.queued
            else r.phase.Refused?
  {
    RunCounts(c, events);
    RunGood(c, events, i);
    hide Held, Run;
  }

  lemma {:induction false} GrantEnabled(c: Conf, s: State, i: nat)
    requires i < |s.reqs| && s.reqs[i].phase.Waiting?
    ensures Step(c, s, Req(i, Grant)).Some? <==> s.sh.count + s.reqs[i].parts <= c.slots
  {
  }

  predicate Over(r: Request) {
    r.phase.Answered? || r.phase.BadPath? || r.phase.Crashed? || r.phase.Overdrawn?
  }

  /** The actions the program takes by itself. The others are the world's: the outcome
      of the parse, of the open and of an attempt, and the end of the caller's context. */
  predicate ByProgram(a: Action) {
    a.Go? || a.Callback? || a.Grant? || a.Apply? || a == GiveUp(TimerFired)
  }

  predicate AwaitsWorld(r: Request) {
    r.phase.Arrived? || r.phase.Opening? || r.phase.Attempting?
  }

  /** A request blocks, in any reachable state, exactly when it is over, awaits an answer
      of the world, or waits in the queue: its callback has run, its parts do not fit
      beside what the others hold, and its timer has not fired. */
  lemma {:induction false} BlockedExactly(c: Conf, events: seq<Event>, i: nat)
    requires Run(c, events).Some? && i < |Run(c, events).value.reqs|
    ensures var s := Run(c, events).value;
            var r := s.reqs[i];
            (forall a :: ByProgram(a) ==> Step(c, s, Req(i, a)).None?)
            <==> Over(r) || AwaitsWorld(r)
                 || (r.phase.Waiting? && r.queued && Sum(s.reqs, Held) + r.parts > c.slots
                     && s.now < r.queueStart + c.queueTimeout)
  {
    RunCounts(c, events);
    var s := Run(c, events).value;
    CanMove(c, s, i);
    hide Run, Step, ByProgram, Good, Held;
  }

  lemma {:induction false} CanMove(c: Conf, s: State, i: nat)
    requires i < |s.reqs|
    ensures (forall a :: ByProgram(a) ==> Step(c, s, Req(i, a)).None?)
            <==> var r := s.reqs[i];
                 || Over(r) || AwaitsWorld(r)
                 || (r.phase.Waiting? && r.queued && s.sh.count + r.parts > c.slots
                     && s.now < r.queueStart + c.queueTimeout)
  {
    hide LimitBytes, UploadParts, StatusCode;
    var r := s.reqs[i];
    var a := OwnAction(c, s, r);
    assert ByProgram(a);
    if Step(c, s, Req(i, a)).None? {
      forall b | ByProgram(b) ensures Step(c, s, Req(i, b)).None? { }
    }
  }

  /** An action the program can take for a request that does not block. */
  function OwnAction(c: Conf, s: State, r: Request): Action {
    match r.phase
    case Waiting =>
      if !r.queued then Callback else if s.sh.count + r.parts <= c.slots then Grant else GiveUp(TimerFired)
    case Granted => if r.queued then Go else Callback
    case Denied(_) => if r.queued then Go else Callback
    case Before(step) => if step.ToApply? then Apply({}) else Go
    case After(step) => if step.ToApply? then Apply({}) else Go
    case _ => Go
  }

  /** Where it awaits the world, every answer is taken: any outcome of the parse, any
      outside error of the open, and any attempt, one that timed out from its deadline on. */
  lemma {:induction false} TakesAnyAnswer(c: Conf, s: State, i: nat)
    requires i < |s.reqs| && AwaitsWorld(s.reqs[i])
    ensures s.reqs[i].phase.Arrived? ==> forall o :: Step(c, s, Req(i, Parse(o))).Some?
    ensures s.reqs[i].phase.Opening? ==>
              forall err :: Step(c, s, Req(i, Open(err))).Some? <==>
                            (err.Some? ==> Foreign(err.value) && AsApi(err.value).None?)
    ensures s.reqs[i].phase.Attempting? ==>
              forall a :: Step(c, s, Req(i, EndAttempt(a))).Some? <==>
                          ForeignAttempt(a)
                          && (a.timedOut ==> s.now >= s.reqs[i].attemptStart
                                                      + UploadTimeout(c.timeout, c.factor, s.reqs[i].attempts))
  {
    hide UploadParts, UploadTimeout, Foreign, AsApi, Judge, ForeignAttempt;
  }
}
