/** Pacing of connections when calls of SetPacingRate do not overlap and no pace is
    stored in the middle of a dial: every connection carries the stored pace, however
    the count reads of updatePacingRate, the dials and all else interleave. */
module PaceCarries {
  import opened CeilingDivision
  import opened FileParts
  import opened Timeouts
  import opened Errors
  import opened Retry
  import TcpInfos
  import opened Ledger
  import opened Requests
  import opened Scheduler

  // ----- the discipline

  /** Inside SetPacingRate, past its comparison with the stored pace. */
  predicate Setting(r: Request) {
    (r.phase.Before? || r.phase.After?) && (r.phase.step.ToStore? || r.phase.step.ToApply?)
  }

  /** Inside the tail of DialContext, past its first read. */
  predicate MidDial(conn: Conn) {
    conn.stage.Checked? || conn.stage.Loaded?
  }

  /** A step of SetPacingRate: its comparison, its store or its loop. */
  predicate Sets(s: State, e: Event) {
    e.Req? && e.i < |s.reqs| && (Setting(s.reqs[e.i]) || Compares(s.reqs[e.i]))
  }

  predicate Compares(r: Request) {
    (r.phase.Before? || r.phase.After?) && r.phase.step.Target?
  }

  predicate Stores(s: State, e: Event) {
    Sets(s, e) && Setting(s.reqs[e.i]) && s.reqs[e.i].phase.step.ToStore?
  }

  /** SetPacingRate runs in one request at a time, and stores a pace only while no dial
      is between its reads of the pace and its setsockopt. Dials may begin and end at any
      other time, also between the store and the loop. */
  ghost predicate Undivided(s: State, e: Event) {
    && (Sets(s, e) ==> forall j :: 0 <= j < |s.reqs| && Setting(s.reqs[j]) ==> e.i == j)
    && (Stores(s, e) ==> forall k :: 0 <= k < |s.sh.tracker.net.conns| ==> !MidDial(s.sh.tracker.net.conns[k]))
  }

  ghost predicate AllUndivided(c: Conf, events: seq<Event>) {
    events != [] ==>
      var prefix := events[..|events| - 1];
      AllUndivided(c, prefix) && (Run(c, prefix).Some? ==> Undivided(Run(c, prefix).value, events[|events| - 1]))
  }

  // ----- the invariant

  /** What a dial tail has read is still so. */
  predicate CurrentConn(n: Net, conn: Conn) {
    && (conn.stage.Checked? ==> n.pace > 0)
    && (conn.stage.Loaded? ==> conn.stage.rate == n.pace)
  }

  predicate Applying(r: Request) {
    (r.phase.Before? || r.phase.After?) && r.phase.step.ToApply?
  }

  predicate AppliesStored(n: Net, r: Request) {
    Applying(r) ==> r.phase.step.rate == n.pace
  }

  /** A connection whose last setsockopt succeeded carries the pace, or none yet while it is being dialed. */
  predicate Carries(n: Net, conn: Conn) {
    conn.setOk ==> conn.pace == n.pace || (!conn.stage.Ready? && conn.pace == 0)
  }

  ghost predicate AllCarry(n: Net) {
    forall k :: 0 <= k < |n.conns| && k in n.active ==> Carries(n, n.conns[k])
  }

  ghost predicate DialsCurrent(n: Net) {
    forall k :: 0 <= k < |n.conns| ==> CurrentConn(n, n.conns[k])
  }

  ghost predicate NoneApplying(reqs: seq<Request>) {
    forall i :: 0 <= i < |reqs| ==> !Applying(reqs[i])
  }

  ghost predicate Carrying(s: State) {
    && DialsCurrent(s.sh.tracker.net)
    && (forall i :: 0 <= i < |s.reqs| ==> AppliesStored(s.sh.tracker.net, s.reqs[i]))
    && (NoneApplying(s.reqs) ==> AllCarry(s.sh.tracker.net))
  }

  // ----- one step of a request

  /** What a step of a request does to the ledger: from ToStore it stores its target,
      from ToApply it applies it, from anywhere else it does nothing. */
  ghost predicate Touches(t: Tracker, r: Request, t': Tracker, r': Request) {
    if Setting(r) && r.phase.step.ToStore? then
      Applying(r') && r'.phase.step.rate == t'.net.pace && t'.net == Store(t.net, t'.net.pace)
    else if Applying(r) then
      !Applying(r') && exists failed :: t'.net == SetActive(t.net, r.phase.step.rate, failed)
    else !Applying(r') && t' == t
  }

  lemma {:induction false} ActTouches(c: Conf, now: int, sh: Shared, r: Request, a: Action)
    requires Act(c, now, sh, r, a).Some?
    ensures Touches(sh.tracker, r, Act(c, now, sh, r, a).value.sh.tracker, Act(c, now, sh, r, a).value.r)
  {
    hide ActPace, UploadParts, StatusCode, Judge, UploadTimeout, QueueError, Foreign, AsApi, Bump;
    if r.phase.Before? || r.phase.After? {
      PaceTouches(c, sh, r, a, r.phase.step);
    }
  }

  lemma {:induction false} PaceTouches(c: Conf, sh: Shared, r: Request, a: Action, step: Repace)
    requires r.phase == Before(step) || r.phase == After(step)
    requires ActPace(c, sh, r, a, step).Some?
    ensures Touches(sh.tracker, r, ActPace(c, sh, r, a, step).value.sh.tracker, ActPace(c, sh, r, a, step).value.r)
  {
    hide DivCeil, LimitBytes;
    if step.ToApply? {
      var t' := ActPace(c, sh, r, a, step).value.sh.tracker;
      assert t'.net == SetActive(sh.tracker.net, step.rate, a.failed);
    }
  }

  lemma {:induction false} ReqCarries(c: Conf, s: State, i: nat, a: Action)
    requires Carrying(s) && Undivided(s, Req(i, a)) && Step(c, s, Req(i, a)).Some?
    ensures Carrying(Step(c, s, Req(i, a)).value)
  {
    var m := Act(c, s.now, s.sh, s.reqs[i], a).value;
    ActTouches(c, s.now, s.sh, s.reqs[i], a);
    hide Act;
    TouchCarries(s, i, a, m.sh, m.r);
  }

  /** Setting the stored pace on every active connection. */
  lemma {:induction false} ApplyCarries(n: Net, n': Net)
    requires DialsCurrent(n) && exists failed :: n' == SetActive(n, n.pace, failed)
    ensures n'.pace == n.pace && DialsCurrent(n') && AllCarry(n')
  {
    forall k | 0 <= k < |n'.conns| ensures CurrentConn(n', n'.conns[k]) { assert CurrentConn(n, n.conns[k]); }
  }

  lemma {:induction false} TouchCarries(s: State, i: nat, a: Action, sh': Shared, r': Request)
    requires Carrying(s) && Undivided(s, Req(i, a)) && i < |s.reqs|
    requires Touches(s.sh.tracker, s.reqs[i], sh'.tracker, r')
    ensures Carrying(State(s.now, sh', s.reqs[i := r']))
  {
    var r, reqs, n := s.reqs[i], s.reqs[i := r'], s.sh.tracker.net;
    assert reqs[i] == r';
    if Setting(r) {
      assert forall j :: 0 <= j < |s.reqs| && j != i ==> !Setting(s.reqs[j]);
      if Applying(r) {
        assert AppliesStored(n, r);
        ApplyCarries(n, sh'.tracker.net);
      } else {
        assert forall k :: 0 <= k < |n.conns| ==> !MidDial(n.conns[k]);
      }
    } else if NoneApplying(reqs) {
      forall j | 0 <= j < |s.reqs| ensures !Applying(s.reqs[j]) { assert j != i ==> reqs[j] == s.reqs[j]; }
    }
  }

  // ----- one step of the connections

  /** A step that leaves the pacing of every connection alone. */
  lemma {:induction false} UnpacedCarries(n: Net, n': Net)
    requires DialsCurrent(n) && |n'.conns| == |n.conns| && n'.active <= n.active && n'.pace == n.pace
    requires forall k :: 0 <= k < |n.conns| ==>
               && n'.conns[k].stage == n.conns[k].stage && n'.conns[k].pace == n.conns[k].pace
               && n'.conns[k].setOk == n.conns[k].setOk
    ensures DialsCurrent(n') && (AllCarry(n) ==> AllCarry(n'))
  {
    forall k | 0 <= k < |n.conns| ensures CurrentConn(n', n'.conns[k]) { assert CurrentConn(n, n.conns[k]); }
    if AllCarry(n) {
      forall k | 0 <= k < |n.conns| && k in n'.active ensures Carries(n', n'.conns[k]) {
        assert Carries(n, n.conns[k]);
      }
    }
  }

  lemma {:induction false} DialCarries(n: Net, info: TcpInfos.TcpInfo)
    requires DialsCurrent(n)
    ensures DialsCurrent(Register(n, info)) && (AllCarry(n) ==> AllCarry(Register(n, info)))
  {
    var n' := Register(n, info);
    assert forall k :: 0 <= k < |n.conns| ==> n'.conns[k] == n.conns[k];
    forall k | 0 <= k < |n'.conns| ensures CurrentConn(n', n'.conns[k]) {
      if k < |n.conns| { assert CurrentConn(n, n.conns[k]); }
    }
    if AllCarry(n) {
      forall k | 0 <= k < |n'.conns| && k in n'.active ensures Carries(n', n'.conns[k]) {
        if k < |n.conns| { assert Carries(n, n.conns[k]); }
      }
    }
  }

  lemma {:induction false} DialTailCarries(n: Net, c: nat, ok: bool)
    requires DialsCurrent(n) && c < |n.conns| && DialStep(n, c, ok).Some?
    ensures DialsCurrent(DialStep(n, c, ok).value) && (AllCarry(n) ==> AllCarry(DialStep(n, c, ok).value))
  {
    var n' := DialStep(n, c, ok).value;
    forall k | 0 <= k < |n'.conns| ensures CurrentConn(n', n'.conns[k]) { assert CurrentConn(n, n.conns[k]); }
    if AllCarry(n) {
      forall k | 0 <= k < |n'.conns| && k in n'.active ensures Carries(n', n'.conns[k]) {
        assert Carries(n, n.conns[k]) && CurrentConn(n, n.conns[k]);
      }
    }
  }

  /** Dialing, closing and the kernel keep every active connection on the pace. */
  lemma {:induction false} ConnCarries(t: Tracker, e: NetEvent)
    requires NetStep(t, e).Some? && !e.StorePace? && !e.ApplyPace? && DialsCurrent(t.net)
    ensures NetStep(t, e).value.net.pace == t.net.pace
    ensures DialsCurrent(NetStep(t, e).value.net) && (AllCarry(t.net) ==> AllCarry(NetStep(t, e).value.net))
  {
    hide DialsCurrent, AllCarry;
    match e
    case Dial(info) => DialCarries(t.net, info);
    case DialTail(c, ok) => DialTailCarries(t.net, c, ok);
    case Kernel(c, info) => UnpacedCarries(t.net, NetStep(t, e).value.net);
    case CallClose(c) =>
    case CloseStep(j, readable) => UnpacedCarries(t.net, NetStep(t, e).value.net);
    case _ =>
  }

  // ----- runs

  lemma {:induction false} StepCarries(c: Conf, s: State, e: Event)
    requires Carrying(s) && Undivided(s, e) && Step(c, s, e).Some?
    ensures Carrying(Step(c, s, e).value)
  {
    hide Act, NetStep, DialsCurrent, AllCarry, Undivided;
    match e
    case Arrive => ArriveCarries(s, NewRequest(s.now));
    case Req(i, a) => ReqCarries(c, s, i, a);
    case Network(ne) => ConnCarries(s.sh.tracker, ne);
    case Tick(d) =>
  }

  lemma {:induction false} ArriveCarries(s: State, r: Request)
    requires Carrying(s) && !Applying(r)
    ensures Carrying(s.(reqs := s.reqs + [r]))
  {
    var reqs := s.reqs + [r];
    assert forall i :: 0 <= i < |s.reqs| ==> reqs[i] == s.reqs[i];
    hide DialsCurrent, AllCarry;
  }

  lemma {:induction false} RunCarries(c: Conf, events: seq<Event>)
    requires Run(c, events).Some? && AllUndivided(c, events)
    ensures Carrying(Run(c, events).value)
  {
    hide Carrying, Step, Undivided;
    if events == [] {
      InitCarries(c);
    } else {
      var prefix := events[..|events| - 1];
      RunCarries(c, prefix);
      StepCarries(c, Run(c, prefix).value, events[|events| - 1]);
    }
  }

  lemma {:induction false} InitCarries(c: Conf)
    ensures Carrying(Init(c))
  {
  }

  /** In every state of every such run in which no request is about to apply a pace it
      stored, every active connection carries the stored pace whose dial has returned
      and whose last setsockopt succeeded, and one still being dialed carries it or none. */
  lemma {:induction false} ConnectionsCarryPace(c: Conf, events: seq<Event>)
    requires Run(c, events).Some? && AllUndivided(c, events) && NoneApplying(Run(c, events).value.reqs)
    ensures var n := Run(c, events).value.sh.tracker.net;
            forall k :: 0 <= k < |n.conns| && k in n.active && n.conns[k].setOk ==>
              n.conns[k].pace == n.pace || (!n.conns[k].stage.Ready? && n.conns[k].pace == 0)
  {
    RunCarries(c, events);
    var n := Run(c, events).value.sh.tracker.net;
    assert forall k :: 0 <= k < |n.conns| && k in n.active ==> Carries(n, n.conns[k]);
    hide Run, DialsCurrent;
  }
}
