/** Pacing when its sections do not overlap: the pace is exactly the fair share. */
module PaceExact {
  import opened Sums
  import opened CeilingDivision
  import opened FileParts
  import opened Errors
  import opened Retry
  import opened Ledger
  import opened Requests
  import opened Lifecycle
  import opened Scheduler
  import opened Invariants
  import opened PaceBounds

  // ----- the discipline

  /** Inside updatePacingRate, past its first read. */
  predicate Mid(r: Request) {
    (r.phase.Before? || r.phase.After?) && !r.phase.step.Start?
  }

  /** The events that take or give back slots or run updatePacingRate. */
  predicate Paces(s: State, e: Event) {
    && e.Req? && e.i < |s.reqs|
    && var r := s.reqs[e.i];
       r.phase.Valid? || (r.phase.Waiting? && e.a.Grant?) || r.phase.Leaving? || r.phase.Before? || r.phase.After?
  }

  /** Such an event happens only while no other request is inside updatePacingRate;
      everything else, all dials included, interleaves freely. */
  ghost predicate Alone(s: State, e: Event) {
    Paces(s, e) ==> forall j :: 0 <= j < |s.reqs| && Mid(s.reqs[j]) ==> e.i == j
  }

  ghost predicate Serialized(c: Conf, events: seq<Event>) {
    events != [] ==>
      var prefix := events[..|events| - 1];
      Serialized(c, prefix) && (Run(c, prefix).Some? ==> Alone(Run(c, prefix).value, events[|events| - 1]))
  }

  // ----- the invariant

  /** A request between its Acquire or Release and the end of the updatePacingRate that follows. */
  function Pending(r: Request): int {
    if r.phase.Granted? || r.phase.Holding? || r.phase.Before? || r.phase.After? then 1 else 0
  }

  /** What a section has read is still so. */
  predicate Current(c: Conf, sh: Shared, step: Repace)
    requires sh.count >= 0
  {
    match step
    case Start => true
    case SawBusy => sh.count > 0 && LimitBytes(c) > 0
    case Target(rate) => rate == PaceFor(c, sh.count) && LimitBytes(c) > 0
    case ToStore(rate) => rate == PaceFor(c, sh.count) && LimitBytes(c) > 0
    case ToApply(rate) => rate == PaceFor(c, sh.count) == sh.tracker.net.pace && LimitBytes(c) > 0
  }

  predicate CurrentRequest(c: Conf, sh: Shared, r: Request)
    requires sh.count >= 0
  {
    Mid(r) ==> Current(c, sh, r.phase.step)
  }

  ghost predicate Exact(c: Conf, s: State) {
    && s.sh.count >= 0
    && (forall i :: 0 <= i < |s.reqs| ==> CurrentRequest(c, s.sh, s.reqs[i]))
    && (Sum(s.reqs, Pending) == 0 ==> s.sh.tracker.net.pace == PaceFor(c, s.sh.count))
  }

  // ----- one step of a request

  /** Neither the slot count nor the pace moved. */
  predicate Quiet(sh: Shared, sh': Shared) {
    sh'.count == sh.count && sh'.tracker.net.pace == sh.tracker.net.pace
  }

  /** What a step of one request does to the pacing state. */
  ghost predicate Handles(c: Conf, sh: Shared, r: Request, sh': Shared, r': Request)
    requires sh.count >= 0 && sh'.count >= 0
  {
    && CurrentRequest(c, sh', r')
    && (Pending(r') == 0 ==> (Pending(r) == 0 && Quiet(sh, sh')) || sh'.tracker.net.pace == PaceFor(c, sh'.count))
  }

  lemma {:induction false} PaceHandles(c: Conf, sh: Shared, r: Request, a: Action, step: Repace)
    requires 0 <= sh.count <= c.slots && Fair(c, sh.tracker.net.pace)
    requires r.phase == Before(step) || r.phase == After(step)
    requires CurrentRequest(c, sh, r) && ActPace(c, sh, r, a, step).Some?
    ensures Handles(c, sh, r, ActPace(c, sh, r, a, step).value.sh, ActPace(c, sh, r, a, step).value.r)
  {
    if sh.count > 0 { TargetIsPaceFor(c, sh.count); }
    if LimitBytes(c) == 0 { ZeroPace(c, sh.count); ZeroPace(c, c.slots); }
    hide DivCeil, PaceFor;
  }

  lemma {:induction false} ZeroPace(c: Conf, count: nat)
    requires LimitBytes(c) == 0
    ensures PaceFor(c, count) == 0
  {
    if count > 0 { CeilZero(count); }
  }

  lemma {:induction false} ActHandles(c: Conf, now: int, sh: Shared, r: Request, a: Action)
    requires Good(c, r) && 0 <= Held(r) <= sh.count <= c.slots && Fair(c, sh.tracker.net.pace)
    requires CurrentRequest(c, sh, r) && Act(c, now, sh, r, a).Some?
    requires Act(c, now, sh, r, a).value.sh.count >= 0
    ensures Handles(c, sh, r, Act(c, now, sh, r, a).value.sh, Act(c, now, sh, r, a).value.r)
    ensures !Quiet(sh, Act(c, now, sh, r, a).value.sh) ==>
              r.phase.Valid? || (r.phase.Waiting? && a.Grant?) || r.phase.Leaving? || r.phase.Before? || r.phase.After?
  {
    hide PaceFor, ActPace, NetStep, UploadParts, StatusCode, RunLoop, EndOk, QueueError;
    if r.phase.Before? || r.phase.After? {
      PaceHandles(c, sh, r, a, r.phase.step);
    }
  }

  // ----- one step of the whole

  lemma {:induction false} OthersCurrent(c: Conf, s: State, i: nat, a: Action, sh': Shared)
    requires i < |s.reqs| && s.sh.count >= 0 && sh'.count >= 0
    requires forall j :: 0 <= j < |s.reqs| ==> CurrentRequest(c, s.sh, s.reqs[j])
    requires Alone(s, Req(i, a))
    requires !Quiet(s.sh, sh') ==> Paces(s, Req(i, a))
    ensures forall j :: 0 <= j < |s.reqs| && j != i ==> CurrentRequest(c, sh', s.reqs[j])
  {
    forall j | 0 <= j < |s.reqs| && j != i ensures CurrentRequest(c, sh', s.reqs[j]) {
      assert CurrentRequest(c, s.sh, s.reqs[j]);
      if !Quiet(s.sh, sh') { assert !Mid(s.reqs[j]); }
    }
    hide PaceFor, LimitBytes;
  }

  lemma {:induction false} PendingMoves(c: Conf, s: State, i: nat, sh': Shared, r: Request)
    requires i < |s.reqs| && s.sh.count >= 0 && sh'.count >= 0
    requires Sum(s.reqs, Pending) == 0 ==> s.sh.tracker.net.pace == PaceFor(c, s.sh.count)
    requires Handles(c, s.sh, s.reqs[i], sh', r)
    ensures Sum(s.reqs[i := r], Pending) == 0 ==> sh'.tracker.net.pace == PaceFor(c, sh'.count)
  {
    SumUpdate(s.reqs, i, r, Pending);
    SumBoundsTerms(s.reqs[i := r], Pending);
    assert s.reqs[i := r][i] == r;
    hide PaceFor;
  }

  lemma {:induction false} ReqExact(c: Conf, s: State, i: nat, a: Action)
    requires Inv(c, s) && FairState(c, s) && Exact(c, s)
    requires Alone(s, Req(i, a)) && Step(c, s, Req(i, a)).Some?
    ensures Exact(c, Step(c, s, Req(i, a)).value)
  {
    hide Inv, FairState, Act, Handles, Good, Current, Held, Alone;
    var r := s.reqs[i];
    var m := Act(c, s.now, s.sh, r, a).value;
    ReqBasics(c, s, i, a);
    ActHandles(c, s.now, s.sh, r, a);
    OthersCurrent(c, s, i, a, m.sh);
    PendingMoves(c, s, i, m.sh, m.r);
    CurrentOne(c, s.sh, r, m.sh, m.r);
  }

  lemma {:induction false} ReqBasics(c: Conf, s: State, i: nat, a: Action)
    requires Inv(c, s) && FairState(c, s) && Step(c, s, Req(i, a)).Some?
    ensures 0 <= Held(s.reqs[i]) <= s.sh.count <= c.slots && Good(c, s.reqs[i])
    ensures Fair(c, s.sh.tracker.net.pace)
    ensures Act(c, s.now, s.sh, s.reqs[i], a).Some?
    ensures Act(c, s.now, s.sh, s.reqs[i], a).value.sh.count >= 0
  {
    CountInRange(c, s);
    HeldIsCounted(c, s.reqs, i);
    ReqKeeps(c, s, i, a);
    CountInRange(c, Step(c, s, Req(i, a)).value);
    hide Good, Act, Counted, LedgerInv, Held, FairRequest, FairConn;
  }

  lemma {:induction false} CurrentOne(c: Conf, sh: Shared, r: Request, sh': Shared, r': Request)
    requires sh.count >= 0 && sh'.count >= 0 && Handles(c, sh, r, sh', r')
    ensures CurrentRequest(c, sh', r')
  {
  }

  lemma {:induction false} ConnExact(c: Conf, s: State, e: NetEvent)
    requires Exact(c, s) && Step(c, s, Network(e)).Some?
    ensures Exact(c, Step(c, s, Network(e)).value)
  {
    var s' := Step(c, s, Network(e)).value;
    assert s'.sh.tracker.net.pace == s.sh.tracker.net.pace;
    forall i | 0 <= i < |s.reqs| ensures CurrentRequest(c, s'.sh, s'.reqs[i]) {
      assert CurrentRequest(c, s.sh, s.reqs[i]);
    }
    hide PaceFor, LimitBytes, NetStep;
  }

  lemma {:induction false} StepExact(c: Conf, s: State, e: Event)
    requires Inv(c, s) && FairState(c, s) && Exact(c, s) && Alone(s, e) && Step(c, s, e).Some?
    ensures Exact(c, Step(c, s, e).value)
  {
    match e
    case Arrive => ArriveExact(c, s);
    case Req(i, a) => ReqExact(c, s, i, a);
    case Network(ne) => ConnExact(c, s, ne);
    case Tick(d) =>
    hide Act, NetStep, Good, Counted, LedgerInv, FairNet, Current;
  }

  lemma {:induction false} ArriveExact(c: Conf, s: State)
    requires Exact(c, s)
    ensures Exact(c, Step(c, s, Arrive).value)
  {
    var r := NewRequest(s.now);
    SumAppend(s.reqs, r, Pending);
    var reqs := s.reqs + [r];
    assert forall i :: 0 <= i < |s.reqs| ==> reqs[i] == s.reqs[i];
    hide PaceFor, Current;
  }

  lemma {:induction false} InitExact(c: Conf)
    ensures Exact(c, Init(c))
  {
    if LimitBytes(c) == 0 { ZeroPace(c, 0); }
  }

  lemma {:induction false} RunExact(c: Conf, events: seq<Event>)
    requires Run(c, events).Some? && Serialized(c, events)
    ensures Exact(c, Run(c, events).value)
  {
    hide Inv, FairState, Exact, Step, Alone;
    if events == [] {
      InitExact(c);
    } else {
      var prefix := events[..|events| - 1];
      RunExact(c, prefix);
      RunKeeps(c, prefix);
      RunFair(c, prefix);
      StepExact(c, Run(c, prefix).value, events[|events| - 1]);
    }
  }

  // ----- the claims

  /** When no pacing update is pending, the stored pace is the fair share of the
      slots in use. */
  lemma {:induction false} PaceIsExact(c: Conf, events: seq<Event>)
    requires Run(c, events).Some? && Serialized(c, events)
    requires var s := Run(c, events).value;
             forall i :: 0 <= i < |s.reqs| ==> Pending(s.reqs[i]) == 0
    ensures var s := Run(c, events).value;
            0 <= s.sh.count <= c.slots && s.sh.tracker.net.pace == PaceFor(c, s.sh.count)
  {
    RunExact(c, events);
    RunKeeps(c, events);
    var s := Run(c, events).value;
    CountInRange(c, s);
    SumOfZeros(s.reqs, Pending);
    hide Inv, PaceFor, Run, Current;
  }

  /** Then the slots in use share the limit: all their paces together cover it and
      overshoot it by less than one byte per second and slot, and rounding bits to
      bytes first loses nothing. */
  lemma {:induction false} PacesShareLimit(c: Conf, events: seq<Event>)
    requires Run(c, events).Some? && Serialized(c, events)
    requires var s := Run(c, events).value;
             s.sh.count > 0 && forall i :: 0 <= i < |s.reqs| ==> Pending(s.reqs[i]) == 0
    ensures var s := Run(c, events).value;
            LimitBytes(c) <= s.sh.count * s.sh.tracker.net.pace <= LimitBytes(c) + s.sh.count - 1
    ensures var s := Run(c, events).value;
            8 * s.sh.count > 0 && s.sh.tracker.net.pace == Ceil(c.bandwidth, 8 * s.sh.count)
  {
    PaceIsExact(c, events);
    var s := Run(c, events).value;
    CeilSandwich(LimitBytes(c), s.sh.count);
    CeilCompose(c.bandwidth, 8, s.sh.count);
    hide Run, Ceil;
  }

  /** When no request is in flight the pace is back to the full limit. */
  lemma {:induction false} PaceReturns(c: Conf, events: seq<Event>)
    requires Run(c, events).Some? && Serialized(c, events)
    requires var s := Run(c, events).value;
             forall i :: 0 <= i < |s.reqs| ==>
               s.reqs[i].phase.Answered? || s.reqs[i].phase.BadPath? || s.reqs[i].phase.Crashed?
    ensures Run(c, events).value.sh.tracker.net.pace == LimitBytes(c)
  {
    var s := Run(c, events).value;
    assert forall i :: 0 <= i < |s.reqs| ==> Pending(s.reqs[i]) == 0 && Held(s.reqs[i]) == 0;
    PaceIsExact(c, events);
    RunCounts(c, events);
    SumOfZeros(s.reqs, Held);
    hide Run, Good;
  }
}
