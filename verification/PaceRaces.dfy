/** Overlapping pacing sections: exactly when they can leave a stale pace, and
    exactly when they can divide by zero. */
module PaceRaces {
  import opened Sums
  import opened CeilingDivision
  import opened FileParts
  import opened Retry
  import opened Ledger
  import opened Requests
  import opened Scheduler
  import opened Invariants
  import opened PaceBounds
  import opened PaceExact

  /** A run that leads to the given slot count, connections and request phases, with
      one part to each request. */
  ghost predicate At(c: Conf, events: seq<Event>, count: int, net: Net, phases: seq<Phase>) {
    && Run(c, events).Some?
    && var s := Run(c, events).value;
    && s.sh.count == count && s.sh.tracker.net == net
    && |s.reqs| == |phases|
    && forall i :: 0 <= i < |phases| ==> s.reqs[i].phase == phases[i] && s.reqs[i].parts == 1
  }

  /** The ledger without connections. */
  function Unconnected(pace: nat): Net {
    Store(EMPTY_NET, pace)
  }

  lemma {:induction false} AtStart(c: Conf)
    ensures At(c, [], 0, Unconnected(LimitBytes(c)), [])
  {
    UnconnectedPaced(0, LimitBytes(c));
  }

  lemma {:induction false} UnconnectedPaced(pace: nat, rate: nat)
    ensures SetPacingRate(Unconnected(pace), rate, {}) == Unconnected(rate)
  {
    assert SetActive(Unconnected(rate), rate, {}) == Unconnected(rate);
  }

  lemma {:induction false} RunMore(c: Conf, events: seq<Event>, e: Event)
    requires Run(c, events).Some?
    ensures Run(c, events + [e]) == Step(c, Run(c, events).value, e)
  {
    assert (events + [e])[..|events|] == events;
  }

  ghost predicate Leads(m: Option<Move>, count': int, net': Net, phase': Phase) {
    && m.Some? && m.value.sh.count == count' && m.value.sh.tracker.net == net'
    && m.value.r.phase == phase' && m.value.r.parts == 1
  }

  /** From a slot count, connections and a phase, the action leads to others. */
  ghost predicate Always(c: Conf, count: int, net: Net, phase: Phase, a: Action,
                         count': int, net': Net, phase': Phase) {
    forall now, sh: Shared, r: Request ::
      sh.count == count && sh.tracker.net == net && r.phase == phase && r.parts == 1 ==>
        Leads(Act(c, now, sh, r, a), count', net', phase')
  }

  /** One action of request i. */
  lemma {:induction false} Do(c: Conf, events: seq<Event>, count: int, net: Net, phases: seq<Phase>, i: nat,
                              a: Action, count': int, net': Net, phase': Phase)
    returns (events': seq<Event>)
    requires At(c, events, count, net, phases) && i < |phases|
    requires Always(c, count, net, phases[i], a, count', net', phase')
    ensures At(c, events', count', net', phases[i := phase'])
  {
    events' := events + [Req(i, a)];
    RunMore(c, events, Req(i, a));
    var s := Run(c, events).value;
    assert Leads(Act(c, s.now, s.sh, s.reqs[i], a), count', net', phase');
  }

  /** A new one-part request takes a free slot. */
  lemma {:induction false} Enter(c: Conf, events: seq<Event>, count: int, net: Net, phases: seq<Phase>)
    returns (events': seq<Event>)
    requires At(c, events, count, net, phases) && 0 <= count < c.slots
    ensures At(c, events', count + 1, net, phases + [Holding])
  {
    var i := |phases|;
    var parse := Req(i, Parse(Accepted(1)));
    events' := events + [Arrive];
    RunMore(c, events, Arrive);
    RunMore(c, events', parse);
    events' := events' + [parse];
    UploadPartsLeast(1, c.partsize, 1);
    assert At(c, events', count, net, phases + [Valid]);
    events' := Do(c, events', count, net, phases + [Valid], i, Go, count + 1, net, Holding);
    assert (phases + [Valid])[i := Holding] == phases + [Holding];
  }

  lemma {:induction false} FirstReads(c: Conf, count: int, net: Net)
    requires 0 < count <= c.slots && LimitBytes(c) > 0
    ensures Always(c, count, net, Holding, Go, count, net, Before(Start))
    ensures Always(c, count, net, Before(Start), Go, count, net, Before(SawBusy))
    ensures Always(c, count, net, After(Start), Go, count, net, After(SawBusy))
  {
  }

  lemma {:induction false} SecondReadLeads(c: Conf, count: int, net: Net)
    requires 0 < count <= c.slots
    ensures Always(c, count, net, Before(SawBusy), Go, count, net, Before(Target(PaceFor(c, count))))
  {
    TargetIsPaceFor(c, count);
    hide DivCeil, PaceFor;
  }

  lemma {:induction false} TargetLeads(c: Conf, count: int, net: Net, rate: nat)
    ensures Always(c, count, net, Before(Target(rate)), Go, count, net,
                   if rate == net.pace then Opening else Before(ToStore(rate)))
  {
    hide LimitBytes, PaceFor, DivCeil;
  }

  lemma {:induction false} StoreLeads(c: Conf, count: int, net: Net, rate: nat)
    ensures Always(c, count, net, Before(ToStore(rate)), Go, count, Store(net, rate), Before(ToApply(rate)))
  {
    hide LimitBytes, PaceFor, DivCeil;
  }

  lemma {:induction false} ApplyLeads(c: Conf, count: int, net: Net, rate: nat)
    ensures Always(c, count, net, Before(ToApply(rate)), Apply({}), count, SetActive(net, rate, {}), Opening)
  {
    hide LimitBytes, PaceFor, DivCeil, SetActive;
  }

  lemma {:induction false} UploadLeads(c: Conf, count: int, net: Net)
    ensures Always(c, count, net, Opening, Open(None), count, net, if c.tries < 1 then Leaving else Attempting)
    ensures Always(c, count, net, Attempting, EndAttempt(Attempt(None, false)), count, net, Leaving)
    ensures count >= 1 ==> Always(c, count, net, Leaving, Go, count - 1, net, After(Start))
    ensures Always(c, 0, net, After(SawBusy), Go, 0, net, Crashed)
  {
  }

  /** From Acquire to the target the reads of updatePacingRate yield. */
  lemma {:induction false} Read(c: Conf, events: seq<Event>, count: int, net: Net, phases: seq<Phase>, i: nat)
    returns (events': seq<Event>)
    requires At(c, events, count, net, phases) && i < |phases| && phases[i] == Holding
    requires 0 < count <= c.slots && LimitBytes(c) > 0
    ensures At(c, events', count, net, phases[i := Before(Target(PaceFor(c, count)))])
  {
    var ph, target := phases, Before(Target(PaceFor(c, count)));
    FirstReads(c, count, net);
    SecondReadLeads(c, count, net);
    hide At, Always, PaceFor;
    events' := Do(c, events, count, net, ph, i, Go, count, net, Before(Start));
    ph := ph[i := Before(Start)];
    events' := Do(c, events', count, net, ph, i, Go, count, net, Before(SawBusy));
    ph := ph[i := Before(SawBusy)];
    events' := Do(c, events', count, net, ph, i, Go, count, net, target);
    assert ph[i := target] == phases[i := target];
  }

  /** Comparing, storing and applying a target: SetPacingRate. */
  lemma {:induction false} Set(c: Conf, events: seq<Event>, count: int, net: Net, phases: seq<Phase>, i: nat, rate: nat)
    returns (events': seq<Event>)
    requires At(c, events, count, net, phases) && i < |phases| && phases[i] == Before(Target(rate))
    ensures At(c, events', count, SetPacingRate(net, rate, {}), phases[i := Opening])
  {
    TargetLeads(c, count, net, rate);
    StoreLeads(c, count, net, rate);
    ApplyLeads(c, count, Store(net, rate), rate);
    hide At, Always, SetActive;
    var ph := phases;
    if rate == net.pace {
      events' := Do(c, events, count, net, ph, i, Go, count, net, Opening);
    } else {
      events' := Do(c, events, count, net, ph, i, Go, count, net, Before(ToStore(rate)));
      ph := ph[i := Before(ToStore(rate))];
      var stored := Store(net, rate);
      events' := Do(c, events', count, net, ph, i, Go, count, stored, Before(ToApply(rate)));
      ph := ph[i := Before(ToApply(rate))];
      events' := Do(c, events', count, stored, ph, i, Apply({}), count, SetActive(stored, rate, {}), Opening);
      assert ph[i := Opening] == phases[i := Opening];
    }
  }

  /** The file opens, the first attempt succeeds, and the slot is given back. */
  lemma {:induction false} Finish(c: Conf, events: seq<Event>, count: int, net: Net, phases: seq<Phase>, i: nat)
    returns (events': seq<Event>)
    requires At(c, events, count, net, phases) && i < |phases| && phases[i] == Opening && count >= 1
    ensures At(c, events', count - 1, net, phases[i := After(Start)])
  {
    UploadLeads(c, count, net);
    hide At, Always;
    var entered := if c.tries < 1 then Leaving else Attempting;
    var ph := phases;
    events' := Do(c, events, count, net, ph, i, Open(None), count, net, entered);
    ph := ph[i := entered];
    if c.tries >= 1 {
      events' := Do(c, events', count, net, ph, i, EndAttempt(Attempt(None, false)), count, net, Leaving);
      ph := ph[i := Leaving];
    }
    events' := Do(c, events', count, net, ph, i, Go, count - 1, net, After(Start));
    assert ph[i := After(Start)] == phases[i := After(Start)];
  }

  // ----- a stale pace

  lemma {:induction false} OneIsWhole(c: Conf)
    ensures PaceFor(c, 1) == LimitBytes(c)
  {
    CeilOne(LimitBytes(c));
  }

  /** The pace a request read before another arrived may be stored after the other's. */
  lemma {:induction false} StaleRun(c: Conf) returns (events: seq<Event>)
    requires c.slots >= 2 && LimitBytes(c) > 0
    ensures At(c, events, 2, Unconnected(LimitBytes(c)), [Opening, Opening])
  {
    var b, p := LimitBytes(c), PaceFor(c, 2);
    var n, n' := Unconnected(b), Unconnected(p);
    AtStart(c);
    OneIsWhole(c);
    UnconnectedPaced(b, p);
    UnconnectedPaced(p, b);
    hide Run, At, PaceFor, LimitBytes, SetPacingRate, Unconnected;
    events := Enter(c, [], 0, n, []);
    assert [] + [Holding] == [Holding];
    events := Read(c, events, 1, n, [Holding], 0);
    var whole := Before(Target(b));
    assert [Holding][0 := whole] == [whole];
    events := Enter(c, events, 1, n, [whole]);
    var ph := [whole] + [Holding];
    events := Read(c, events, 2, n, ph, 1);
    ph := ph[1 := Before(Target(p))];
    events := Set(c, events, 2, n, ph, 1, p);
    ph := ph[1 := Opening];
    events := Set(c, events, 2, n', ph, 0, b);
    assert ph[0 := Opening] == [Opening, Opening];
  }

  ghost predicate Settled(s: State) {
    forall i :: 0 <= i < |s.reqs| ==> Pending(s.reqs[i]) == 0
  }

  /** Whenever no pacing update is pending, in whatever way the sections overlapped,
      the pace is the fair share of the slots in use. */
  ghost predicate NeverStale(c: Conf) {
    forall events ::
      Run(c, events).Some? && Settled(Run(c, events).value) ==>
        OnPace(c, Run(c, events).value)
  }

  predicate OnPace(c: Conf, s: State) {
    s.sh.count >= 0 && s.sh.tracker.net.pace == PaceFor(c, s.sh.count)
  }

  /** That holds exactly when there is one slot, or nothing to share. */
  lemma {:induction false} NeverStaleExactly(c: Conf)
    ensures NeverStale(c) <==> c.slots == 1 || LimitBytes(c) <= 1
  {
    if c.slots == 1 || LimitBytes(c) <= 1 {
      forall events | Run(c, events).Some? && Settled(Run(c, events).value)
        ensures OnPace(c, Run(c, events).value)
      {
        RunFair(c, events);
        RunKeeps(c, events);
        CountInRange(c, Run(c, events).value);
        PaceForIsFair(c, Run(c, events).value.sh.count);
        NothingToShare(c);
        hide Run, PaceFor, LimitBytes, Settled, Inv;
      }
    } else {
      var events := StaleRun(c);
      HalfIsLess(c);
      OpeningIsSettled(c, events, Unconnected(LimitBytes(c)));
      hide Run, PaceFor, LimitBytes, Settled;
    }
  }

  lemma {:induction false} NothingToShare(c: Conf)
    requires c.slots == 1 || LimitBytes(c) <= 1
    ensures PaceFor(c, c.slots) == LimitBytes(c)
  {
    OneIsWhole(c);
    CeilLeast(LimitBytes(c), c.slots, 0);
    PaceForIsFair(c, c.slots);
    hide Ceil;
  }

  lemma {:induction false} HalfIsLess(c: Conf)
    requires LimitBytes(c) >= 2
    ensures PaceFor(c, 2) < LimitBytes(c)
  {
    var b := LimitBytes(c);
    CeilLeast(b, 2, b - 1);
    hide Ceil;
  }

  lemma {:induction false} OpeningIsSettled(c: Conf, events: seq<Event>, net: Net)
    requires At(c, events, 2, net, [Opening, Opening])
    ensures Run(c, events).Some? && Settled(Run(c, events).value)
    ensures Run(c, events).value.sh.count == 2 && Run(c, events).value.sh.tracker.net == net
  {
    var s := Run(c, events).value;
    forall i | 0 <= i < |s.reqs| ensures Pending(s.reqs[i]) == 0 {
      assert s.reqs[i].phase == [Opening, Opening][i] == Opening;
    }
  }

  // ----- a stale connection

  /** Every active connection whose dial has returned and whose last setsockopt
      succeeded carries the stored pace. */
  ghost predicate ConnsOnPace(n: Net) {
    forall k :: 0 <= k < |n.conns| && k in n.active && n.conns[k].stage.Ready? && n.conns[k].setOk ==>
      n.conns[k].pace == n.pace
  }

  ghost predicate ConnsNeverStale(c: Conf) {
    forall events ::
      Run(c, events).Some? && Settled(Run(c, events).value) ==>
        ConnsOnPace(Run(c, events).value.sh.tracker.net)
  }

  /** Connection 0 has returned from its dial with the whole limit while p is stored,
      which no later SetPacingRate of p repairs. */
  ghost predicate LeftBehind(c: Conf, n: Net, p: nat) {
    && |n.conns| == 1 && 0 in n.active && n.conns[0].stage.Ready? && n.conns[0].setOk
    && n.conns[0].pace == LimitBytes(c) && n.pace == p
    && forall failed :: SetPacingRate(n, p, failed) == n
  }

  /** A dial begins, and has read the pace. */
  lemma {:induction false} DialLoads(c: Conf) returns (events: seq<Event>, n: Net)
    requires LimitBytes(c) > 0
    ensures At(c, events, 0, n, []) && n.pace == LimitBytes(c)
    ensures |n.conns| == 1 && n.conns[0].stage == Loaded(LimitBytes(c)) && n.active == {0}
  {
    AtStart(c);
    n := Register(Unconnected(LimitBytes(c)), TcpInfos.ZERO_INFO);
    events := [] + [Network(Dial(TcpInfos.ZERO_INFO))];
    RunMore(c, [], Network(Dial(TcpInfos.ZERO_INFO)));
    assert At(c, events, 0, n, []);
    hide Run, LimitBytes;
    events, n := DialGoesOn(c, events, 0, n, []);
    events, n := DialGoesOn(c, events, 0, n, []);
  }

  /** One step of the dial of connection 0. */
  lemma {:induction false} DialGoesOn(c: Conf, events: seq<Event>, count: int, net: Net, phases: seq<Phase>)
    returns (events': seq<Event>, net': Net)
    requires At(c, events, count, net, phases) && |net.conns| == 1 && !net.conns[0].stage.Ready?
    ensures DialStep(net, 0, true) == Some(net') && At(c, events', count, net', phases)
  {
    var e := Network(DialTail(0, true));
    events' := events + [e];
    net' := DialStep(net, 0, true).value;
    RunMore(c, events, e);
    hide DialStep;
  }

  /** A dial that read the pace before two requests shared it sets it afterwards. */
  lemma {:induction false} DialRaceRun(c: Conf) returns (events: seq<Event>, n: Net)
    requires c.slots >= 2 && LimitBytes(c) > 0
    ensures At(c, events, 2, n, [Opening, Opening]) && LeftBehind(c, n, PaceFor(c, 2))
  {
    var p, b := PaceFor(c, 2), LimitBytes(c);
    events, n := DialLoads(c);
    var shared := SetPacingRate(n, p, {});
    assert shared.conns[0].stage == Loaded(b) && |shared.conns| == 1 && shared.active == {0} && shared.pace == p;
    assert SetPacingRate(shared, p, {}) == shared;
    hide Run, At, PaceFor, LimitBytes, SetPacingRate;
    events := Enter(c, events, 0, n, []);
    events := Enter(c, events, 1, n, [] + [Holding]);
    var ph := [] + [Holding] + [Holding];
    events := Read(c, events, 2, n, ph, 0);
    ph := ph[0 := Before(Target(p))];
    events := Set(c, events, 2, n, ph, 0, p);
    ph := ph[0 := Opening];
    events := Read(c, events, 2, shared, ph, 1);
    ph := ph[1 := Before(Target(p))];
    events := Set(c, events, 2, shared, ph, 1, p);
    ph := ph[1 := Opening];
    assert ph == [Opening, Opening];
    events, n := DialGoesOn(c, events, 2, shared, ph);
    IsLeftBehind(c, shared, n, p);
  }

  lemma {:induction false} IsLeftBehind(c: Conf, n: Net, n': Net, p: nat)
    requires |n.conns| == 1 && n.active == {0} && n.conns[0].stage == Loaded(LimitBytes(c)) && n.pace == p
    requires DialStep(n, 0, true) == Some(n')
    ensures LeftBehind(c, n', p)
  {
    hide LimitBytes;
  }

  /** In all runs, whenever no pacing update is pending, every such connection carries
      the stored pace, exactly when there is one slot, or nothing to share. */
  lemma {:induction false} ConnsNeverStaleExactly(c: Conf)
    ensures ConnsNeverStale(c) <==> c.slots == 1 || LimitBytes(c) <= 1
  {
    if c.slots == 1 || LimitBytes(c) <= 1 {
      forall events | Run(c, events).Some? && Settled(Run(c, events).value)
        ensures ConnsOnPace(Run(c, events).value.sh.tracker.net)
      {
        RunFair(c, events);
        NothingToShare(c);
        FairConnsAgree(c, Run(c, events).value.sh.tracker.net);
        hide Run, PaceFor, LimitBytes, Settled;
      }
    } else {
      var events, n := DialRaceRun(c);
      HalfIsLess(c);
      OpeningIsSettled(c, events, n);
      assert !ConnsOnPace(n);
      hide Run, PaceFor, LimitBytes, Settled;
    }
  }

  lemma {:induction false} FairConnsAgree(c: Conf, n: Net)
    requires FairNet(c, n) && PaceFor(c, c.slots) == LimitBytes(c)
    ensures ConnsOnPace(n)
  {
    forall k | 0 <= k < |n.conns| && k in n.active && n.conns[k].stage.Ready? && n.conns[k].setOk
      ensures n.conns[k].pace == n.pace
    {
      assert FairConn(c, n.conns[k]);
    }
    hide PaceFor, LimitBytes;
  }

  // ----- a division by zero

  /** A request comes, uploads alone, and gives its slot back. */
  lemma {:induction false} ComesAndGoes(c: Conf) returns (events: seq<Event>)
    requires LimitBytes(c) > 0
    ensures At(c, events, 0, Unconnected(LimitBytes(c)), [After(Start)])
  {
    var b := LimitBytes(c);
    var n := Unconnected(b);
    AtStart(c);
    UnconnectedPaced(b, b);
    OneIsWhole(c);
    hide Run, At, Always, PaceFor, LimitBytes, SetPacingRate, Unconnected;
    var whole := Before(Target(b));
    events := Enter(c, [], 0, n, []);
    assert [] + [Holding] == [Holding];
    events := Read(c, events, 1, n, [Holding], 0);
    assert [Holding][0 := whole] == [whole];
    events := Set(c, events, 1, n, [whole], 0, b);
    assert [whole][0 := Opening] == [Opening];
    events := Finish(c, events, 1, n, [Opening], 0);
    assert [Opening][0 := After(Start)] == [After(Start)];
  }

  /** A holder may come and go around the first read of a deferred updatePacingRate. */
  lemma {:induction false} CrashRun(c: Conf) returns (events: seq<Event>)
    requires LimitBytes(c) > 0
    ensures At(c, events, 0, Unconnected(LimitBytes(c)), [Crashed, After(Start)])
  {
    var b := LimitBytes(c);
    var n := Unconnected(b);
    UnconnectedPaced(b, b);
    OneIsWhole(c);
    FirstReads(c, 1, n);
    UploadLeads(c, 0, n);
    hide Run, At, Always, PaceFor, LimitBytes, SetPacingRate, Unconnected;
    var whole := Before(Target(b));
    events := ComesAndGoes(c);
    events := Enter(c, events, 0, n, [After(Start)]);
    var ph := [After(Start)] + [Holding];
    events := Do(c, events, 1, n, ph, 0, Go, 1, n, After(SawBusy));
    ph := ph[0 := After(SawBusy)];
    events := Read(c, events, 1, n, ph, 1);
    ph := ph[1 := whole];
    events := Set(c, events, 1, n, ph, 1, b);
    ph := ph[1 := Opening];
    events := Finish(c, events, 1, n, ph, 1);
    ph := ph[1 := After(Start)];
    events := Do(c, events, 0, n, ph, 0, Go, 0, n, Crashed);
    assert ph[0 := Crashed] == [Crashed, After(Start)];
  }

  ghost predicate CanDivideByZero(c: Conf) {
    exists events :: Run(c, events).Some? && HasCrashed(Run(c, events).value)
  }

  ghost predicate HasCrashed(s: State) {
    exists i :: 0 <= i < |s.reqs| && s.reqs[i].phase.Crashed?
  }

  /** Some run divides by zero exactly when a bandwidth limit is set. */
  lemma {:induction false} DividesByZeroExactly(c: Conf)
    ensures CanDivideByZero(c) <==> LimitBytes(c) > 0
  {
    if LimitBytes(c) > 0 {
      var events := CrashRun(c);
      assert Run(c, events).value.reqs[0].phase == [Crashed, After(Start)][0];
      assert HasCrashed(Run(c, events).value);
    }
    if events :| Run(c, events).Some? && HasCrashed(Run(c, events).value) {
      RunFair(c, events);
      var i :| 0 <= i < |Run(c, events).value.reqs| && Run(c, events).value.reqs[i].phase.Crashed?;
      assert FairRequest(c, Run(c, events).value.reqs[i]);
    }
  }
}
