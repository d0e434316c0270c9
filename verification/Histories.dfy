/** What a run has done to each request, read off its events alone: when it arrived,
    was parsed, began to transfer, began its last attempt and ended, and how its
    attempts ended. The timers of the code are then stated about events. */
module Histories {
  import opened Sums
  import opened CeilingDivision
  import opened FileParts
  import opened Timeouts
  import opened Errors
  import opened Retry
  import opened TcpInfos
  import opened Ledger
  import opened Requests
  import opened Lifecycle
  import opened Scheduler
  import opened Invariants

  /** The time that has passed. */
  function Clock(events: seq<Event>): nat {
    if events == [] then 0
    else Clock(events[..|events| - 1]) + if events[|events| - 1].Tick? then events[|events| - 1].d else 0
  }

  function Arrivals(events: seq<Event>): nat {
    if events == [] then 0
    else Arrivals(events[..|events| - 1]) + if events[|events| - 1].Arrive? then 1 else 0
  }

  /** When request i arrived. */
  function ArrivedAt(events: seq<Event>, i: nat): Option<int> {
    if events == [] then None
    else
      var prefix := events[..|events| - 1];
      if events[|events| - 1].Arrive? && Arrivals(prefix) == i then Some(Clock(prefix)) else ArrivedAt(prefix, i)
  }

  /** The outcome of the parse of request i. */
  function ParsedAs(events: seq<Event>, i: nat): Option<ParseOutcome> {
    if events == [] then None
    else
      var e := events[|events| - 1];
      if e.Req? && e.i == i && e.a.Parse? then Some(e.a.outcome) else ParsedAs(events[..|events| - 1], i)
  }

  /** How the context of request i ended while it queued. */
  function LeftQueue(events: seq<Event>, i: nat): Option<QueueEnd> {
    if events == [] then None
    else
      var e := events[|events| - 1];
      if e.Req? && e.i == i && e.a.GiveUp? then Some(e.a.end) else LeftQueue(events[..|events| - 1], i)
  }

  /** What opening the file of request i gave. */
  function OpenedAs(events: seq<Event>, i: nat): Option<Option<Error>> {
    if events == [] then None
    else
      var e := events[|events| - 1];
      if e.Req? && e.i == i && e.a.Open? then Some(e.a.err) else OpenedAs(events[..|events| - 1], i)
  }

  /** How the attempts of request i ended, in order. */
  function Outcomes(events: seq<Event>, i: nat): seq<Attempt> {
    if events == [] then []
    else
      var e := events[|events| - 1];
      Outcomes(events[..|events| - 1], i) + if e.Req? && e.i == i && e.a.EndAttempt? then [e.a.a] else []
  }

  /** The moments of a request that the code takes the time of. */
  datatype Moment = Parsed | TransferBegan | AttemptBegan | Ended

  predicate HasEnded(p: Phase) {
    p.Leaving? || p.After? || p.Finished? || p.Answered? || p.Crashed?
  }

  /** A step from phase p to p' is such a moment. An attempt begins when the file has been
      opened or another attempt has ended, and the request is then uploading. */
  predicate IsMoment(m: Moment, p: Phase, a: Action, p': Phase) {
    match m
    case Parsed => a.Parse? && p'.Valid?
    case TransferBegan => p.Holding?
    case AttemptBegan => (a.Open? || a.EndAttempt?) && p'.Attempting?
    case Ended => !HasEnded(p) && HasEnded(p')
  }

  /** When the last such moment of request i was. */
  function When(c: Conf, events: seq<Event>, i: nat, m: Moment): Option<int> {
    if events == [] then None
    else
      var prefix, e := events[..|events| - 1], events[|events| - 1];
      if e.Req? && e.i == i && Run(c, prefix).Some? && i < |Run(c, prefix).value.reqs|
         && Run(c, events).Some? && i < |Run(c, events).value.reqs|
         && IsMoment(m, Run(c, prefix).value.reqs[i].phase, e.a, Run(c, events).value.reqs[i].phase)
      then Some(Clock(prefix))
      else When(c, prefix, i, m)
  }

  /** The history a step adds to: the fields of a request as its events determine them. */
  datatype Story = Story(
    arrived: Option<int>, outcome: Option<ParseOutcome>, left: Option<QueueEnd>,
    file: Option<Option<Error>>, seen: seq<Attempt>,
    parsed: Option<int>, began: Option<int>, attempt: Option<int>, ended: Option<int>)

  function StoryOf(c: Conf, events: seq<Event>, i: nat): Story {
    Story(ArrivedAt(events, i), ParsedAs(events, i), LeftQueue(events, i), OpenedAs(events, i), Outcomes(events, i),
          When(c, events, i, Parsed), When(c, events, i, TransferBegan),
          When(c, events, i, AttemptBegan), When(c, events, i, Ended))
  }

  /** A request is what its story says. */
  predicate Tells(y: Story, r: Request) {
    && y.arrived == Some(r.start)
    && y.seen == r.seen
    && y.began == r.began
    && (r.phase.Arrived? <==> y.outcome.None?)
    && (!Invalid(r) ==> y.outcome == Some(Accepted(r.size)) && y.parsed == Some(r.queueStart))
    && (r.phase.Attempting? ==> y.attempt == Some(r.attemptStart))
    && (if HasEnded(r.phase) then y.ended == Some(r.end) else y.ended.None?)
    && (r.phase.Denied? ==> y.left == Some(r.phase.end))
    && (r.ending.Some? ==> EndsAs(y, r.ending.value, r.result))
  }

  /** The ending and the result of a request that made no attempt are those of the event that ended it. */
  predicate EndsAs(y: Story, ending: Ending, result: Option<Error>) {
    match ending
    case ParseFailed =>
      y.outcome.Some? && y.outcome.value.Rejected? && result == Some(BadRequest(y.outcome.value.cause))
    case OpenFailed => y.file.Some? && y.file.value.Some? && result == Some(Wrapped(y.file.value.value))
    case Skipped => y.file == Some(None) && result.None?
    case Judged(kind) => y.seen != [] && kind == KindOf(y.seen[|y.seen| - 1])
    case _ => y.left.Some? && ending == QueueEnding(y.left.value) && result == Some(QueueError(y.left.value))
  }

  // ----- one step

  function Stamped(m: Moment, was: Option<int>, now: int, p: Phase, a: Action, p': Phase): Option<int> {
    if IsMoment(m, p, a, p') then Some(now) else was
  }

  /** The story after one more step of its request. */
  function Told(y: Story, now: int, p: Phase, a: Action, p': Phase): Story {
    Story(y.arrived, if a.Parse? then Some(a.outcome) else y.outcome,
          if a.GiveUp? then Some(a.end) else y.left, if a.Open? then Some(a.err) else y.file,
          y.seen + if a.EndAttempt? then [a.a] else [],
          Stamped(Parsed, y.parsed, now, p, a, p'), Stamped(TransferBegan, y.began, now, p, a, p'),
          Stamped(AttemptBegan, y.attempt, now, p, a, p'), Stamped(Ended, y.ended, now, p, a, p'))
  }

  lemma {:induction false} ActTells(c: Conf, now: int, sh: Shared, r: Request, a: Action, y: Story)
    requires Good(c, r) && Held(r) <= sh.count && Tells(y, r) && Act(c, now, sh, r, a).Some?
    ensures Tells(Told(y, now, r.phase, a, Act(c, now, sh, r, a).value.r.phase), Act(c, now, sh, r, a).value.r)
  {
    if r.phase.Before? || r.phase.After? {
      PaceTells(c, now, sh, r, a, y, r.phase.step);
    } else if r.phase.Attempting? {
      AttemptTells(c, now, sh, r, a.a, y);
    } else if r.phase.Waiting? || r.phase.Granted? || r.phase.Denied? {
      QueueTells(c, now, sh, r, a, y);
    } else {
      OtherActTells(c, now, sh, r, a, y);
    }
    hide Good, Tells, Told, ActPace, ActAttempt, Held;
  }

  lemma {:induction false} OtherActTells(c: Conf, now: int, sh: Shared, r: Request, a: Action, y: Story)
    requires Good(c, r) && Held(r) <= sh.count && Tells(y, r) && Act(c, now, sh, r, a).Some?
    requires !r.phase.Before? && !r.phase.After? && !r.phase.Attempting?
    requires !r.phase.Waiting? && !r.phase.Granted? && !r.phase.Denied?
    ensures Tells(Told(y, now, r.phase, a, Act(c, now, sh, r, a).value.r.phase), Act(c, now, sh, r, a).value.r)
  {
    hide UploadParts, RunLoop, StatusCode, QueueError, Foreign, AsApi, KindOf, ActPace, ActAttempt, Bump, Add32;
  }

  lemma {:induction false} QueueTells(c: Conf, now: int, sh: Shared, r: Request, a: Action, y: Story)
    requires Good(c, r) && Tells(y, r) && Act(c, now, sh, r, a).Some?
    requires r.phase.Waiting? || r.phase.Granted? || r.phase.Denied?
    ensures Tells(Told(y, now, r.phase, a, Act(c, now, sh, r, a).value.r.phase), Act(c, now, sh, r, a).value.r)
  {
    hide UploadParts, RunLoop, StatusCode, QueueError, ActPace, ActAttempt, ActOpen, ActParse, Add32;
  }

  lemma {:induction false} AttemptTells(c: Conf, now: int, sh: Shared, r: Request, a: Attempt, y: Story)
    requires Good(c, r) && Tells(y, r) && r.phase.Attempting? && ActAttempt(c, now, sh, r, a).Some?
    ensures var r' := ActAttempt(c, now, sh, r, a).value.r;
            Tells(Told(y, now, r.phase, EndAttempt(a), r'.phase), r')
  {
    hide UploadParts, UploadTimeout, RunLoop, StatusCode, Judge, ForeignAttempt, KindOf;
  }

  lemma {:induction false} PaceTells(c: Conf, now: int, sh: Shared, r: Request, a: Action, y: Story, step: Repace)
    requires Good(c, r) && Held(r) <= sh.count && Tells(y, r)
    requires (r.phase == Before(step) || r.phase == After(step)) && ActPace(c, sh, r, a, step).Some?
    ensures var r' := ActPace(c, sh, r, a, step).value.r; Tells(Told(y, now, r.phase, a, r'.phase), r')
  {
    PaceStaysPut(c, sh, r, a, step);
    PaceActions(c, sh, r, a, step);
    if r.phase.Before? { PartsPositive(c, r); }
    PhaseTells(y, now, r, a, ActPace(c, sh, r, a, step).value.r.phase);
    hide ActPace, Good, Tells, Told;
  }

  lemma {:induction false} PhaseTells(y: Story, now: int, r: Request, a: Action, phase: Phase)
    requires Tells(y, r) && (a.Go? || a.Apply?)
    requires if r.phase.Before? then phase.Before? || phase.Opening?
             else r.phase.After? && (phase.After? || phase.Finished? || phase.Crashed?)
    ensures Tells(Told(y, now, r.phase, a, phase), r.(phase := phase))
  {
    assert y.seen + [] == y.seen;
    assert Told(y, now, r.phase, a, phase) == y;
    hide EndsAs;
  }

  lemma {:induction false} PaceActions(c: Conf, sh: Shared, r: Request, a: Action, step: Repace)
    requires r.phase == Before(step) || r.phase == After(step)
    requires ActPace(c, sh, r, a, step).Some?
    ensures a.Go? || a.Apply?
  {
    hide DivCeil, LimitBytes;
  }

  lemma {:induction false} StoryStep(c: Conf, events: seq<Event>, i: nat, a: Action)
    requires Run(c, events).Some? && i < |Run(c, events).value.reqs|
    requires Step(c, Run(c, events).value, Req(i, a)).Some?
    ensures var s := Run(c, events).value;
            var s' := Step(c, s, Req(i, a)).value;
            i < |s'.reqs| && StoryOf(c, events + [Req(i, a)], i)
                             == Told(StoryOf(c, events, i), Clock(events), s.reqs[i].phase, a, s'.reqs[i].phase)
  {
    assert (events + [Req(i, a)])[..|events|] == events;
    hide Act, IsMoment;
  }

  /** An event of somebody else leaves the story alone. */
  lemma {:induction false} StoryStays(c: Conf, events: seq<Event>, i: nat, e: Event)
    requires Run(c, events).Some? && i < Arrivals(events) && !(e.Req? && e.i == i)
    ensures StoryOf(c, events + [e], i) == StoryOf(c, events, i)
  {
    assert (events + [e])[..|events|] == events;
    hide Act, IsMoment, Run;
  }

  lemma {:induction false} ClockAndArrivals(c: Conf, events: seq<Event>)
    requires Run(c, events).Some?
    ensures Run(c, events).value.now == Clock(events)
    ensures |Run(c, events).value.reqs| == Arrivals(events)
  {
    if events != [] {
      ClockAndArrivals(c, events[..|events| - 1]);
      hide Act, NetStep;
    }
  }

  /** Nothing is told of a request that has not arrived. */
  lemma {:induction false} StoryStarts(c: Conf, events: seq<Event>, i: nat)
    requires Run(c, events).Some? && i >= Arrivals(events)
    ensures StoryOf(c, events, i) == Story(None, None, None, None, [], None, None, None, None)
  {
    if events != [] {
      var prefix := events[..|events| - 1];
      StoryStarts(c, prefix, i);
      ClockAndArrivals(c, prefix);
      hide Act, NetStep, IsMoment;
    }
  }

  // ----- runs

  /** In every state of every run each request is what its events say: its start, queue,
      transfer, attempt and end times are the clock of the events that set them, its size
      is the parsed one, its attempts ended as the world ended them, and its ending and
      result are those of the event that ended it. */
  lemma {:induction false} RunTells(c: Conf, events: seq<Event>, i: nat)
    requires Run(c, events).Some? && i < |Run(c, events).value.reqs|
    ensures Tells(StoryOf(c, events, i), Run(c, events).value.reqs[i])
  {
    var prefix, e := events[..|events| - 1], events[|events| - 1];
    var s := Run(c, prefix).value;
    assert events == prefix + [e];
    ClockAndArrivals(c, prefix);
    if i < |s.reqs| {
      RunTells(c, prefix, i);
      if e.Req? && e.i == i {
        RunGood(c, prefix, i);
        RunCounts(c, prefix);
        HeldIsCounted(c, s.reqs, i);
        StoryStep(c, prefix, i, e.a);
        ActTells(c, s.now, s.sh, s.reqs[i], e.a, StoryOf(c, prefix, i));
      } else {
        StoryStays(c, prefix, i, e);
      }
    } else {
      ArrivalTells(c, prefix, i, e);
    }
    hide Act, NetStep, Good, Tells, Told, StoryOf, Held, Clock, Arrivals;
  }

  lemma {:induction false} ArrivalTells(c: Conf, events: seq<Event>, i: nat, e: Event)
    requires Run(c, events).Some? && Step(c, Run(c, events).value, e).Some?
    requires |Run(c, events).value.reqs| <= i < |Step(c, Run(c, events).value, e).value.reqs|
    ensures Tells(StoryOf(c, events + [e], i), Step(c, Run(c, events).value, e).value.reqs[i])
  {
    ClockAndArrivals(c, events);
    StoryStarts(c, events, i);
    assert (events + [e])[..|events|] == events;
    hide Act, NetStep, Run;
  }

  // ----- the timers

  /** No timer fires early, in any run: an attempt that timed out ends at least its own
      timeout after the event that began it, whatever came before, and a request gives up
      its place in the queue at least the queue timeout after the step that parsed it. */
  lemma {:induction false} TimersRunFromEvents(c: Conf, events: seq<Event>, i: nat, a: Action)
    requires Run(c, events).Some? && Step(c, Run(c, events).value, Req(i, a)).Some?
    ensures var y := StoryOf(c, events, i);
            && (a.EndAttempt? && a.a.timedOut ==>
                  && y.attempt.Some?
                  && Clock(events) >= y.attempt.value + UploadTimeout(c.timeout, c.factor, |y.seen| + 1))
            && (a == GiveUp(TimerFired) ==> y.parsed.Some? && Clock(events) >= y.parsed.value + c.queueTimeout)
  {
    var s := Run(c, events).value;
    RunTells(c, events, i);
    RunGood(c, events, i);
    ClockAndArrivals(c, events);
    TimersTold(c, s.now, s.sh, s.reqs[i], a, StoryOf(c, events, i));
    hide Run, Act, Good, Tells, StoryOf, Clock, UploadTimeout;
  }

  lemma {:induction false} TimersTold(c: Conf, now: int, sh: Shared, r: Request, a: Action, y: Story)
    requires Good(c, r) && Act(c, now, sh, r, a).Some? && Tells(y, r)
    ensures a.EndAttempt? && a.a.timedOut ==>
              y.attempt.Some? && now >= y.attempt.value + UploadTimeout(c.timeout, c.factor, |y.seen| + 1)
    ensures a == GiveUp(TimerFired) ==> y.parsed.Some? && now >= y.parsed.value + c.queueTimeout
  {
    TimedActions(c, now, sh, r, a);
    hide Act, Good, EndsAs, UploadTimeout;
  }

  lemma {:induction false} TimedActions(c: Conf, now: int, sh: Shared, r: Request, a: Action)
    requires Good(c, r) && Act(c, now, sh, r, a).Some?
    ensures a.EndAttempt? ==> r.phase.Attempting? && |r.seen| == r.attempts - 1
    ensures a.EndAttempt? && a.a.timedOut ==>
              now >= r.attemptStart + UploadTimeout(c.timeout, c.factor, r.attempts)
    ensures a == GiveUp(TimerFired) ==> r.phase.Waiting? && r.ending.None? && now >= r.queueStart + c.queueTimeout
  {
    hide UploadTimeout, UploadParts, RunLoop, StatusCode, Judge, Foreign, LimitBytes;
  }
}
