/** Pacing with every read and store of updatePacingRate, SetPacingRate and
    DialContext free to interleave: the bounds that still hold. */
module PaceBounds {
  import opened Sums
  import opened CeilingDivision
  import opened TcpInfos
  import opened Ledger
  import opened Requests
  import opened Lifecycle
  import opened Scheduler
  import opened Invariants

  /** Between the share of a full house and the whole limit. */
  predicate Fair(c: Conf, rate: int) {
    PaceFor(c, c.slots) <= rate <= LimitBytes(c)
  }

  lemma {:induction false} PaceForIsFair(c: Conf, count: nat)
    requires count <= c.slots
    ensures Fair(c, PaceFor(c, count))
  {
    var b := LimitBytes(c);
    CeilOne(b);
    if count > 0 {
      CeilMonotone(b, b, count, c.slots);
      CeilMonotone(b, b, 1, count);
    } else {
      CeilMonotone(b, b, 1, c.slots);
    }
  }

  /** The code's division yields the pace of the count it reads. */
  lemma {:induction false} TargetIsPaceFor(c: Conf, count: nat)
    requires 0 < count <= c.slots
    ensures DivCeil(LimitBytes(c), count) == Some(PaceFor(c, count))
    ensures PaceFor(c, count) % TcpInfos.TWO_TO_64 == PaceFor(c, count)
  {
    hide Ceil, DivCeil;
    DivCeilExact(LimitBytes(c), count);
    PaceForIsFair(c, count);
  }

  predicate FairStep(c: Conf, step: Repace) {
    match step
    case Start => true
    case SawBusy => LimitBytes(c) > 0
    case Target(rate) => Fair(c, rate)
    case ToStore(rate) => Fair(c, rate)
    case ToApply(rate) => Fair(c, rate)
  }

  predicate FairRequest(c: Conf, r: Request) {
    && (r.phase.Before? || r.phase.After? ==> FairStep(c, r.phase.step))
    && (r.phase.Crashed? ==> LimitBytes(c) > 0)
  }

  /** Once its dial has returned, a connection under a limit is paced, if setsockopt succeeded. */
  predicate FairConn(c: Conf, conn: Conn) {
    && (conn.pace == 0 || Fair(c, conn.pace))
    && (conn.stage.Loaded? ==> Fair(c, conn.stage.rate))
    && (conn.stage.Ready? && conn.setOk && LimitBytes(c) > 0 ==> conn.pace > 0)
  }

  lemma {:induction false} FairIsPositive(c: Conf, rate: int)
    requires Fair(c, rate) && LimitBytes(c) > 0
    ensures rate > 0
  {
    CeilLeast(LimitBytes(c), c.slots, 0);
    hide Ceil;
  }

  ghost predicate FairNet(c: Conf, n: Net) {
    Fair(c, n.pace) && forall i :: 0 <= i < |n.conns| ==> FairConn(c, n.conns[i])
  }

  ghost predicate FairState(c: Conf, s: State) {
    && FairNet(c, s.sh.tracker.net)
    && forall i :: 0 <= i < |s.reqs| ==> FairRequest(c, s.reqs[i])
  }

  lemma {:induction false} PaceStepFair(c: Conf, sh: Shared, r: Request, a: Action, step: Repace)
    requires 0 <= sh.count <= c.slots && FairStep(c, step) && FairNet(c, sh.tracker.net)
    requires r.phase == Before(step) || r.phase == After(step)
    requires ActPace(c, sh, r, a, step).Some?
    ensures FairRequest(c, ActPace(c, sh, r, a, step).value.r)
    ensures FairNet(c, ActPace(c, sh, r, a, step).value.sh.tracker.net)
  {
    PaceForIsFair(c, 0);
    if sh.count > 0 {
      TargetIsPaceFor(c, sh.count);
      PaceForIsFair(c, sh.count);
    }
    if step.ToApply? && LimitBytes(c) > 0 { FairIsPositive(c, step.rate); }
    hide Fair, DivCeil, PaceFor;
  }

  lemma {:induction false} ActFair(c: Conf, now: int, sh: Shared, r: Request, a: Action)
    requires 0 <= sh.count <= c.slots && FairRequest(c, r) && FairNet(c, sh.tracker.net)
    requires Act(c, now, sh, r, a).Some?
    ensures FairRequest(c, Act(c, now, sh, r, a).value.r)
    ensures FairNet(c, Act(c, now, sh, r, a).value.sh.tracker.net)
  {
    hide ActPace, FairNet, Fair, PaceFor, LimitBytes;
    if r.phase.Before? || r.phase.After? {
      PaceStepFair(c, sh, r, a, r.phase.step);
    }
  }

  lemma {:induction false} ConnFair(c: Conf, t: Tracker, e: NetEvent)
    requires FairNet(c, t.net) && !e.StorePace? && !e.ApplyPace? && NetStep(t, e).Some?
    ensures FairNet(c, NetStep(t, e).value.net)
  {
    if e.DialTail? { DialTailFair(c, t.net, e.c, e.ok); }
    hide Fair, DialStep, LimitBytes;
  }

  lemma {:induction false} DialTailFair(c: Conf, n: Net, k: nat, ok: bool)
    requires FairNet(c, n) && k < |n.conns| && DialStep(n, k, ok).Some?
    ensures FairNet(c, DialStep(n, k, ok).value)
  {
    assert FairConn(c, n.conns[k]);
    if LimitBytes(c) > 0 {
      FairIsPositive(c, n.pace);
      if n.conns[k].stage.Loaded? { FairIsPositive(c, n.conns[k].stage.rate); }
    }
    hide Fair, LimitBytes;
  }

  lemma {:induction false} StepFair(c: Conf, s: State, e: Event)
    requires Inv(c, s) && FairState(c, s) && Step(c, s, e).Some?
    ensures FairState(c, Step(c, s, e).value)
  {
    CountInRange(c, s);
    hide Inv, FairNet, FairRequest, Act, NetStep;
    match e
    case Arrive => NewIsFair(c, s.now);
    case Req(i, a) => ActFair(c, s.now, s.sh, s.reqs[i], a);
    case Network(ne) => ConnFair(c, s.sh.tracker, ne);
    case Tick(d) =>
  }

  lemma {:induction false} CountInRange(c: Conf, s: State)
    requires Inv(c, s)
    ensures 0 <= s.sh.count <= c.slots
  {
    if s.reqs != [] { HeldIsCounted(c, s.reqs, 0); }
    hide Good, LedgerInv, AnswersCounted;
  }

  lemma {:induction false} NewIsFair(c: Conf, now: int)
    ensures FairRequest(c, NewRequest(now))
  {
  }

  lemma {:induction false} InitFair(c: Conf)
    ensures FairState(c, Init(c))
  {
    PaceForIsFair(c, 0);
    CeilZero(c.slots);
  }

  lemma {:induction false} CeilZero(b: nat)
    requires b > 0
    ensures Ceil(0, b) == 0
  {
    CeilLeast(0, b, 0);
  }

  /** In every state of every run the stored pace lies between the share of a full
      house and the whole limit, and every connection was never paced or carries
      a pace between them. */
  lemma {:induction false} RunFair(c: Conf, events: seq<Event>)
    requires Run(c, events).Some?
    ensures FairState(c, Run(c, events).value)
  {
    hide Inv, FairState, Step;
    if events == [] {
      InitFair(c);
    } else {
      var prefix := events[..|events| - 1];
      RunFair(c, prefix);
      RunKeeps(c, prefix);
      StepFair(c, Run(c, prefix).value, events[|events| - 1]);
    }
  }

  /** updatePacingRate panics in its second read exactly when every slot was
      released since its first one; a caller that holds slots is safe. */
  lemma {:induction false} PanicsExactly(c: Conf, events: seq<Event>, i: nat)
    requires Run(c, events).Some? && i < |Run(c, events).value.reqs|
    requires var p := Run(c, events).value.reqs[i].phase;
             p == Before(SawBusy) || p == After(SawBusy)
    ensures var s := Run(c, events).value;
            && Step(c, s, Req(i, Go)).Some?
            && (Step(c, s, Req(i, Go)).value.reqs[i].phase.Crashed? <==> s.sh.count == 0)
            && (s.reqs[i].phase.Before? ==> s.sh.count >= s.reqs[i].parts >= 1)
  {
    RunCounts(c, events);
    RunGood(c, events, i);
    var s := Run(c, events).value;
    HeldIsCounted(c, s.reqs, i);
    if s.reqs[i].phase.Before? { PartsPositive(c, s.reqs[i]); }
    SecondRead(c, s, i);
    hide Run, Step, Good;
  }

  lemma {:induction false} SecondRead(c: Conf, s: State, i: nat)
    requires i < |s.reqs| && (s.reqs[i].phase == Before(SawBusy) || s.reqs[i].phase == After(SawBusy))
    ensures Step(c, s, Req(i, Go)).Some?
    ensures Step(c, s, Req(i, Go)).value.reqs[i].phase.Crashed? <==> s.sh.count == 0
  {
  }
}
