/** Every run over finitely many requests is finite. */
module Termination {
  import opened Sums
  import opened CeilingDivision
  import opened FileParts
  import opened Errors
  import opened Ledger
  import opened Retry
  import opened Requests
  import opened Lifecycle
  import opened Scheduler
  import opened Invariants

  function Tries(c: Conf): nat {
    if c.tries > 0 then c.tries else 0
  }

  function PaceRank(step: Repace): nat {
    match step
    case Start => 5
    case SawBusy => 4
    case Target(_) => 3
    case ToStore(_) => 2
    case ToApply(_) => 1
  }

  /** A bound on the steps a request has left. */
  function StepsLeft(c: Conf): Request -> int {
    (r: Request) => Left(c, r)
  }

  function Left(c: Conf, r: Request): int {
    var callback := if r.queued then 0 else 1;
    match r.phase
    case Arrived => 20 + Tries(c)
    case Valid => 19 + Tries(c)
    case Refused => 18 + Tries(c)
    case Waiting => 16 + Tries(c) + callback
    case Granted => 15 + Tries(c) + callback
    case Denied(_) => 2 + callback
    case Holding => 14 + Tries(c)
    case Before(step) => 8 + Tries(c) + PaceRank(step)
    case Opening => 8 + Tries(c)
    case Attempting => 7 + Tries(c) - |r.seen|
    case Leaving => 7
    case After(step) => 1 + PaceRank(step)
    case Finished => 1
    case _ => 0
  }

  const MOST: nat := 20

  lemma {:induction false} LeftInRange(c: Conf, r: Request)
    requires Good(c, r)
    ensures 0 <= Left(c, r) <= MOST + Tries(c)
  {
  }

  /** Every step of a request uses up at least one of the steps it had left. */
  lemma {:induction false} ActDescends(c: Conf, now: int, sh: Shared, r: Request, a: Action)
    requires Good(c, r) && Held(r) <= sh.count && Act(c, now, sh, r, a).Some?
    ensures Left(c, Act(c, now, sh, r, a).value.r) < Left(c, r)
  {
    hide ActPace, UploadParts, StatusCode, RunLoop, QueueError, KindOf, EndOk, Foreign;
    if r.phase.Before? || r.phase.After? {
      PaceDescends(c, sh, r, a, r.phase.step);
    }
  }

  lemma {:induction false} PaceDescends(c: Conf, sh: Shared, r: Request, a: Action, step: Repace)
    requires r.phase == Before(step) || r.phase == After(step)
    requires ActPace(c, sh, r, a, step).Some?
    ensures Left(c, ActPace(c, sh, r, a, step).value.r) < Left(c, r)
  {
    hide DivCeil, LimitBytes, NetStep;
  }

  /** The steps requests took in a run. */
  function StepsTaken(events: seq<Event>): nat {
    if events == [] then 0
    else StepsTaken(events[..|events| - 1]) + if events[|events| - 1].Req? then 1 else 0
  }

  /** Steps taken and steps left together never exceed a bound linear in requests times tries. */
  lemma {:induction false} StepsBounded(c: Conf, events: seq<Event>)
    requires Run(c, events).Some?
    ensures StepsTaken(events) + Sum(Run(c, events).value.reqs, StepsLeft(c))
            <= |Run(c, events).value.reqs| * (MOST + Tries(c))
  {
    if events != [] {
      var prefix, e := events[..|events| - 1], events[|events| - 1];
      StepsBounded(c, prefix);
      RunKeeps(c, prefix);
      StepDescends(c, Run(c, prefix).value, e);
      hide Inv, Step, StepsLeft, Tries;
    }
  }

  lemma {:induction false} StepDescends(c: Conf, s: State, e: Event)
    requires Inv(c, s) && Step(c, s, e).Some?
    ensures var s' := Step(c, s, e).value;
            Sum(s'.reqs, StepsLeft(c)) + (if e.Req? then 1 else 0) + |s.reqs| * (MOST + Tries(c))
            <= Sum(s.reqs, StepsLeft(c)) + |s'.reqs| * (MOST + Tries(c))
  {
    match e
    case Arrive =>
      SumAppend(s.reqs, NewRequest(s.now), StepsLeft(c));
      OneMore(|s.reqs|, MOST + Tries(c));
    case Req(i, a) => ReqDescends(c, s, i, a);
    case Network(_) =>
    case Tick(_) =>
    hide Act, Counted, AllGood, LedgerInv, NetStep;
  }

  lemma {:induction false} ReqDescends(c: Conf, s: State, i: nat, a: Action)
    requires Inv(c, s) && Step(c, s, Req(i, a)).Some?
    ensures var s' := Step(c, s, Req(i, a)).value;
            Sum(s'.reqs, StepsLeft(c)) + 1 <= Sum(s.reqs, StepsLeft(c)) && |s'.reqs| == |s.reqs|
  {
    var m := Act(c, s.now, s.sh, s.reqs[i], a).value;
    HeldIsCounted(c, s.reqs, i);
    ActDescends(c, s.now, s.sh, s.reqs[i], a);
    SumUpdate(s.reqs, i, m.r, StepsLeft(c));
    hide Good, Act, Left, LedgerInv, AnswersCounted;
  }

  lemma {:induction false} OneMore(n: nat, k: nat)
    ensures (n + 1) * k == n * k + k
  {
  }

  /** So n requests take at most n * (20 + tries) steps, however they interleave. */
  lemma {:induction false} RunsAreFinite(c: Conf, events: seq<Event>)
    requires Run(c, events).Some?
    ensures StepsTaken(events) <= |Run(c, events).value.reqs| * (MOST + Tries(c))
  {
    StepsBounded(c, events);
    var s := Run(c, events).value;
    forall i | 0 <= i < |s.reqs| ensures StepsLeft(c)(s.reqs[i]) >= 0 {
      RunGood(c, events, i);
      LeftInRange(c, s.reqs[i]);
    }
    SumBoundsTerms(s.reqs, StepsLeft(c));
    hide Run, StepsLeft;
  }
}
