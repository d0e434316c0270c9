/** One request while nothing else moves: its steps amount to the whole calls of the
    handler, so DoServeHTTP and the transition system describe the same code. */
module Undisturbed {
  import opened Sums
  import opened CeilingDivision
  import opened FileParts
  import opened Timeouts
  import opened Errors
  import opened Retry
  import opened UploadTasks
  import opened Ledger
  import opened Requests
  import opened Scheduler
  import opened Invariants
  import opened PaceBounds
  import opened Deadlines
  import opened Handlers

  // ----- one request alone

  datatype Solo = Solo(now: int, sh: Shared, r: Request)

  datatype SoloEvent = Does(a: Action) | Waits(d: nat)

  function SoloRun(c: Conf, x: Solo, es: seq<SoloEvent>): Option<Solo>
    decreases |es|
  {
    if es == [] then Some(x)
    else var y := SoloStep(c, x, es[0]);
         if y.None? then None else SoloRun(c, y.value, es[1..])
  }

  function SoloStep(c: Conf, x: Solo, e: SoloEvent): Option<Solo> {
    match e
    case Does(a) =>
      var m := Act(c, x.now, x.sh, x.r, a);
      if m.None? then None else Some(Solo(x.now, m.value.sh, m.value.r))
    case Waits(d) => Some(x.(now := x.now + d))
  }

  ghost predicate Reaches(c: Conf, x: Solo, y: Solo) {
    exists es :: SoloRun(c, x, es) == Some(y)
  }

  lemma {:induction false} Stays(c: Conf, x: Solo)
    ensures Reaches(c, x, x)
  {
    assert SoloRun(c, x, []) == Some(x);
  }

  lemma {:induction false} Steps(c: Conf, x: Solo, e: SoloEvent, y: Solo)
    requires SoloStep(c, x, e) == Some(y)
    ensures Reaches(c, x, y)
  {
    hide SoloStep;
    assert SoloRun(c, y, [e][1..]) == Some(y);
    assert SoloRun(c, x, [e]) == Some(y);
  }

  lemma {:induction false} Joins(c: Conf, x: Solo, y: Solo, z: Solo)
    requires Reaches(c, x, y) && Reaches(c, y, z)
    ensures Reaches(c, x, z)
  {
    var es :| SoloRun(c, x, es) == Some(y);
    var fs :| SoloRun(c, y, fs) == Some(z);
    RunsJoin(c, x, es, fs);
  }

  lemma {:induction false} RunsJoin(c: Conf, x: Solo, es: seq<SoloEvent>, fs: seq<SoloEvent>)
    requires SoloRun(c, x, es).Some?
    ensures SoloRun(c, x, es + fs) == SoloRun(c, SoloRun(c, x, es).value, fs)
    decreases |es|
  {
    hide SoloStep;
    if es == [] {
      assert es + fs == fs;
    } else {
      assert (es + fs)[1..] == es[1..] + fs;
      RunsJoin(c, SoloStep(c, x, es[0]).value, es[1..], fs);
    }
  }

  /** The request does the action from x, and goes on from there. */
  lemma {:induction false} Act1(c: Conf, w: Solo, x: Solo, a: Action) returns (y: Solo)
    requires Reaches(c, w, x) && Act(c, x.now, x.sh, x.r, a).Some?
    ensures y == Solo(x.now, Act(c, x.now, x.sh, x.r, a).value.sh, Act(c, x.now, x.sh, x.r, a).value.r)
    ensures Reaches(c, w, y)
  {
    var m := Act(c, x.now, x.sh, x.r, a).value;
    y := Solo(x.now, m.sh, m.r);
    Steps(c, x, Does(a), y);
    Joins(c, w, x, y);
    hide Act, Reaches;
  }

  lemma {:induction false} Until(c: Conf, w: Solo, x: Solo, now: int) returns (y: Solo)
    requires Reaches(c, w, x) && x.now <= now
    ensures y == x.(now := now) && Reaches(c, w, y)
  {
    y := x.(now := now);
    Steps(c, x, Waits(now - x.now), y);
    Joins(c, w, x, y);
    hide Reaches;
  }

  /** One of its steps is a step of the scheduler in which only the newest request moves. */
  lemma {:induction false} StepIsStep(c: Conf, others: seq<Request>, x: Solo, e: SoloEvent)
    requires SoloStep(c, x, e).Some?
    ensures var y := SoloStep(c, x, e).value;
            Step(c, State(x.now, x.sh, others + [x.r]), EventOf(|others|, e))
            == Some(State(y.now, y.sh, others + [y.r]))
  {
    var y := SoloStep(c, x, e).value;
    var reqs, i := others + [x.r], |others|;
    assert reqs[i] == x.r && reqs[i := y.r] == others + [y.r];
    hide Act;
  }

  function EventOf(i: nat, e: SoloEvent): Event {
    match e
    case Does(a) => Req(i, a)
    case Waits(d) => Tick(d)
  }

  lemma {:induction false} SoloIsRun(c: Conf, before: seq<Event>, others: seq<Request>, x: Solo, es: seq<SoloEvent>)
    returns (events: seq<Event>)
    requires Run(c, before) == Some(State(x.now, x.sh, others + [x.r])) && SoloRun(c, x, es).Some?
    ensures var y := SoloRun(c, x, es).value;
            Run(c, before + events) == Some(State(y.now, y.sh, others + [y.r]))
    decreases |es|
  {
    hide SoloStep, Step;
    if es == [] {
      events := [];
      assert before + events == before;
    } else {
      var e := EventOf(|others|, es[0]);
      StepIsStep(c, others, x, es[0]);
      assert (before + [e])[..|before|] == before;
      var more := SoloIsRun(c, before + [e], others, SoloStep(c, x, es[0]).value, es[1..]);
      events := [e] + more;
      assert before + [e] + more == before + events;
    }
  }

  // ----- updatePacingRate

  /** Its steps, undisturbed, amount to the whole call. */
  lemma {:induction false} RepaceReaches(c: Conf, w: Solo, x: Solo, failed: set<nat>) returns (y: Solo)
    requires Reaches(c, w, x) && (x.r.phase == Before(Start) || x.r.phase == After(Start))
    requires 0 <= x.sh.count <= c.slots
    ensures Reaches(c, w, y)
    ensures y == Solo(x.now, WithNet(x.sh, Repaced(c, x.sh.count, x.sh.tracker.net, failed)), PaceDone(x.r))
  {
    hide Reaches, DivCeil, Ceil;
    if x.sh.count > 0 { TargetIsPaceFor(c, x.sh.count); }
    y := Act1(c, w, x, Go);
    if LimitBytes(c) > 0 {
      if x.sh.count > 0 { y := Act1(c, w, y, Go); }
      var rate := PaceFor(c, x.sh.count);
      assert y == Solo(x.now, x.sh, PaceAt(x.r, Target(rate)));
      y := SetReaches(c, w, y, rate, failed);
    }
  }

  function WithNet(sh: Shared, n: Net): Shared {
    sh.(tracker := sh.tracker.(net := n))
  }

  /** Comparing, storing and applying amount to SetPacingRate. */
  lemma {:induction false} SetReaches(c: Conf, w: Solo, x: Solo, rate: nat, failed: set<nat>) returns (y: Solo)
    requires Reaches(c, w, x) && (x.r.phase == Before(Target(rate)) || x.r.phase == After(Target(rate)))
    ensures Reaches(c, w, y)
    ensures y == Solo(x.now, WithNet(x.sh, SetPacingRate(x.sh.tracker.net, rate, failed)), PaceDone(x.r))
  {
    hide Reaches, DivCeil, LimitBytes, SetActive;
    y := Act1(c, w, x, Go);
    if rate != x.sh.tracker.net.pace {
      y := Act1(c, w, y, Go);
      y := Act1(c, w, y, Apply(failed));
    }
  }

  // ----- uploadFileMultipart

  /** The least time the attempts from k on take: the timeouts of those that time out. */
  function TimeNeeded(c: Conf, k: int, outs: seq<Attempt>): nat
    decreases |outs|
  {
    if outs == [] then 0
    else Spent(c, k, outs[0])
         + if Judge(c.tries, k, outs[0]).Again? then TimeNeeded(c, k + 1, outs[1..]) else 0
  }

  function Spent(c: Conf, k: int, a: Attempt): nat {
    if a.timedOut then UploadTimeout(c.timeout, c.factor, k) else 0
  }

  /** A request that has stopped with the given result after k attempts, none of its other fields changed. */
  predicate StoppedAs(r: Request, r': Request, k: int, result: Option<Error>, end: int) {
    && r'.phase.Leaving? && r'.attempts == k && r'.result == result && r'.end == end
    && r'.size == r.size && r'.parts == r.parts && r'.queued == r.queued && r'.start == r.start && r'.began == r.began
  }

  /** The attempts of the loop from attempt k on, each taking as long as its timer asks. */
  lemma {:induction false} LoopReaches(c: Conf, w: Solo, x: Solo, outs: seq<Attempt>, end: int) returns (y: Solo)
    requires Reaches(c, w, x) && x.r.phase.Attempting? && x.r.attemptStart == x.now
    requires 1 <= x.r.attempts <= c.tries && |outs| >= c.tries - x.r.attempts + 1
    requires forall i :: 0 <= i < |outs| ==> ForeignAttempt(outs[i])
    requires x.now + TimeNeeded(c, x.r.attempts, outs) <= end
    ensures Reaches(c, w, y) && y.now == end
    ensures var stop := RunLoop(c.tries, x.r.attempts, outs);
            && stop.Stopped? && StoppedAs(x.r, y.r, stop.k, stop.result, end)
            && y.sh == x.sh.(attempts := y.sh.attempts, retries := y.sh.retries)
            && y.sh.attempts - x.sh.attempts == stop.k - x.r.attempts == y.sh.retries - x.sh.retries
    decreases |outs|
  {
    hide Reaches, Foreign, Judge, UploadTimeout;
    var k, a := x.r.attempts, outs[0];
    assert ForeignAttempt(a);
    VerdictReturns(c.tries, k, a);
    LoopTerminates(c.tries, k, outs);
    if Judge(c.tries, k, a).Return? {
      y := Until(c, w, x, end);
      y := Act1(c, w, y, EndAttempt(a));
    } else {
      LoopAdvances(c.tries, k + 1, outs[1..]);
      y := Until(c, w, x, x.now + Spent(c, k, a));
      y := Act1(c, w, y, EndAttempt(a));
      var x1 := y;
      y := LoopReaches(c, w, x1, outs[1..], end);
    }
  }

  /** From the call of uploadFileMultipart to its return. */
  lemma {:induction false} UploadReaches(c: Conf, v: Solo, x: Solo, w: World) returns (y: Solo)
    requires Reaches(c, v, x) && x.r.phase.Opening? && x.r.attempts == 0 && |w.outs| >= c.tries
    requires LetsUpload(c, w) && x.now == w.begin
    ensures Reaches(c, v, y) && y.now == w.end
    ensures var u := UploadResult(c.tries, w.openErr, w.outs);
            && StoppedAs(x.r, y.r, y.r.attempts, u.result, w.end)
            && y.sh == x.sh.(attempts := x.sh.attempts + u.made, retries := x.sh.retries + u.Retries())
  {
    hide Reaches, Foreign, AsApi, Judge, TimeNeeded, ForeignAttempt;
    if w.openErr.Some? || c.tries < 1 {
      y := Until(c, v, x, w.end);
      y := Act1(c, v, y, Open(w.openErr));
    } else {
      LoopTerminates(c.tries, 1, w.outs);
      var x1 := Act1(c, v, x, Open(None));
      y := LoopReaches(c, v, x1, w.outs, w.end);
    }
  }

  /** The answers of the file system and the store come from outside, and leave the time they need. */
  ghost predicate LetsUpload(c: Conf, w: World) {
    && (w.openErr.Some? ==> Foreign(w.openErr.value) && AsApi(w.openErr.value).None?)
    && (forall i :: 0 <= i < |w.outs| ==> ForeignAttempt(w.outs[i]))
    && w.begin <= w.end
    && (w.openErr.None? && c.tries >= 1 ==> w.begin + TimeNeeded(c, 1, w.outs) <= w.end)
  }

  // ----- doServeHTTP and the answer

  /** What the world does to the request is possible from this time and slot count on. */
  ghost predicate Possible(c: Conf, now: int, count: int, w: World) {
    && |w.outs| >= c.tries && w.arrival == now <= w.end
    && (w.parse.Accepted? ==>
          if count + UploadParts(w.parse.size, c.partsize) <= c.slots then now <= w.begin && LetsUpload(c, w)
          else w.queueEnd.TimerFired? ==> now + c.queueTimeout <= w.end)
  }

  /** The ledger a request leaves: paced for its slots and then for what the others hold. */
  function NetAfter(c: Conf, count: nat, n: Net, w: World): Net {
    var parts := UploadParts(if w.parse.Accepted? then w.parse.size else 0, c.partsize);
    if !w.parse.Accepted? || count + parts > c.slots then n
    else Repaced(c, count, Repaced(c, count + parts, n, w.failed), w.failedAfter)
  }

  /** Slots and waiters are as before, the other counters count this request and its answer. */
  ghost predicate SharedAfter(c: Conf, w: World, sh: Shared, sh': Shared, result: Option<Error>)
    requires sh.count >= 0
  {
    && sh'.count == sh.count && sh'.waiters == sh.waiters
    && sh'.valid == sh.valid + (if w.parse.Accepted? then 1 else 0)
    && sh'.responses == Bump(sh.responses, StatusCode(result))
    && sh'.tracker == sh.tracker.(net := NetAfter(c, sh.count, sh.tracker.net, w))
  }

  ghost predicate Serves(c: Conf, w: World, x: Solo, y: Solo)
    requires |w.outs| >= c.tries && x.sh.count >= 0
  {
    && y.now == w.end && y.r.phase == Answered(StatusCode(y.r.result))
    && y.r.start == w.arrival && y.r.end == w.end
    && SharedAfter(c, w, x.sh, y.sh, y.r.result)
    && Served(c, w, x.sh.count, y.r.queued, y.r.began, y.r.result, Reported(y.r),
              y.sh.attempts - x.sh.attempts, y.sh.retries - x.sh.retries)
  }

  lemma {:induction false} SoloServes(c: Conf, x: Solo, w: World) returns (y: Solo)
    requires 0 <= x.sh.count <= c.slots && x.r == NewRequest(x.now)
    requires Possible(c, x.now, x.sh.count, w)
    ensures Reaches(c, x, y)
    ensures if w.parse.EmptyPath? then y.r.phase.BadPath? && y.sh == x.sh else Serves(c, w, x, y)
  {
    hide Reaches, LetsUpload, StatusCode, QueueError, UploadResult, UploadParts, Measured, Repaced;
    Stays(c, x);
    match w.parse
    case EmptyPath => y := Act1(c, x, x, Parse(w.parse));
    case Rejected(cause) =>
      y := Until(c, x, x, w.end);
      y := Act1(c, x, y, Parse(w.parse));
      y := Act1(c, x, y, Go);
    case Accepted(size) =>
      y := Act1(c, x, x, Parse(w.parse));
      if x.sh.count + UploadParts(size, c.partsize) <= c.slots {
        y := AdmittedServes(c, x, y, w);
      } else {
        y := RefusedServes(c, x, y, w);
      }
  }

  /** The fast path fails, and with nobody else moving no slot is ever given back. */
  lemma {:induction false} RefusedServes(c: Conf, x: Solo, v: Solo, w: World) returns (y: Solo)
    requires 0 <= x.sh.count <= c.slots && x.r == NewRequest(x.now) && Possible(c, x.now, x.sh.count, w)
    requires w.parse.Accepted? && x.sh.count + UploadParts(w.parse.size, c.partsize) > c.slots
    requires Act(c, x.now, x.sh, x.r, Parse(w.parse)) == Some(Move(v.sh, v.r)) && v.now == x.now && Reaches(c, x, v)
    ensures Reaches(c, x, y) && Serves(c, w, x, y)
  {
    hide Reaches, StatusCode, QueueError, UploadParts, Measured, UploadResult, LetsUpload, Repaced;
    y := Act1(c, x, v, Go);
    y := Act1(c, x, y, Go);
    y := Act1(c, x, y, Callback);
    y := Until(c, x, y, w.end);
    y := Act1(c, x, y, GiveUp(w.queueEnd));
    GaugeRestored(x.sh.waiters);
    y := Act1(c, x, y, Go);
    y := Act1(c, x, y, Go);
  }

  lemma {:induction false} GaugeRestored(waiters: TcpInfos.uint32)
    ensures TcpInfos.Add32(TcpInfos.Add32(waiters, 1), TcpInfos.TWO_TO_32 - 1) == waiters
  {
  }

  lemma {:induction false} AdmittedServes(c: Conf, x: Solo, v: Solo, w: World) returns (y: Solo)
    requires 0 <= x.sh.count <= c.slots && x.r == NewRequest(x.now) && Possible(c, x.now, x.sh.count, w)
    requires w.parse.Accepted? && x.sh.count + UploadParts(w.parse.size, c.partsize) <= c.slots
    requires Act(c, x.now, x.sh, x.r, Parse(w.parse)) == Some(Move(v.sh, v.r)) && v.now == x.now && Reaches(c, x, v)
    ensures Reaches(c, x, y) && Serves(c, w, x, y)
  {
    hide Reaches, StatusCode, UploadResult, UploadParts, Measured, LetsUpload, Repaced, QueueError;
    y := Act1(c, x, v, Go);
    y := Until(c, x, y, w.begin);
    y := Act1(c, x, y, Go);
    y := RepaceReaches(c, x, y, w.failed);
    y := UploadReaches(c, x, y, w);
    y := Act1(c, x, y, Go);
    y := RepaceReaches(c, x, y, w.failedAfter);
    y := Act1(c, x, y, Go);
  }

  lemma {:induction false} ArriveRuns(c: Conf, before: seq<Event>)
    requires Run(c, before).Some?
    ensures var s := Run(c, before).value;
            Run(c, before + [Arrive]) == Some(s.(reqs := s.reqs + [NewRequest(s.now)]))
  {
    assert (before + [Arrive])[..|before|] == before;
    hide Act, NetStep;
  }

  /** A request that arrives and then moves alone. */
  lemma {:induction false} ArrivesAlone(c: Conf, before: seq<Event>, es: seq<SoloEvent>) returns (events: seq<Event>)
    requires Run(c, before).Some?
    requires var s := Run(c, before).value; SoloRun(c, Solo(s.now, s.sh, NewRequest(s.now)), es).Some?
    ensures var s := Run(c, before).value;
            var y := SoloRun(c, Solo(s.now, s.sh, NewRequest(s.now)), es).value;
            Run(c, before + events) == Some(State(y.now, y.sh, s.reqs + [y.r]))
  {
    hide Run, SoloRun;
    var s := Run(c, before).value;
    var x := Solo(s.now, s.sh, NewRequest(s.now));
    var arrived := before + [Arrive];
    ArriveRuns(c, before);
    var more := SoloIsRun(c, arrived, s.reqs, x, es);
    events := [Arrive] + more;
    assert arrived + more == before + events;
  }

  /** From every reachable state: a request to which nothing but the given world happens
      is served by a run of the scheduler as DoServeHTTP serves it, and answered; one
      with an empty URI path panics and leaves everything else as it was. */
  lemma {:induction false} ServeIsRun(c: Conf, before: seq<Event>, w: World) returns (events: seq<Event>, r: Request)
    requires Run(c, before).Some?
    requires Possible(c, Run(c, before).value.now, Run(c, before).value.sh.count, w)
    ensures Run(c, before + events).Some? && Run(c, before).value.sh.count >= 0
    ensures var s, s' := Run(c, before).value, Run(c, before + events).value;
            && s'.reqs == s.reqs + [r]
            && if w.parse.EmptyPath? then r.phase.BadPath? && s'.sh == s.sh
               else Serves(c, w, Solo(s.now, s.sh, NewRequest(s.now)), Solo(s'.now, s'.sh, r))
  {
    hide Run, Possible, Serves, Inv, SoloRun;
    RunKeeps(c, before);
    var s := Run(c, before).value;
    CountInRange(c, s);
    var x := Solo(s.now, s.sh, NewRequest(s.now));
    var y := SoloServes(c, x, w);
    var es :| SoloRun(c, x, es) == Some(y);
    events := ArrivesAlone(c, before, es);
    r := y.r;
  }
}
