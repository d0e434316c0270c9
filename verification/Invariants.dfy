/** The invariant of the whole scheduler, over every run. */
module Invariants {
  import opened Sums
  import opened TcpInfos
  import opened Ledger
  import opened Requests
  import opened Lifecycle
  import opened Scheduler

  ghost predicate AllGood(c: Conf, reqs: seq<Request>) {
    forall i :: 0 <= i < |reqs| ==> Good(c, reqs[i])
  }

  /** Every shared counter is the sum of what the requests contribute to it. */
  ghost predicate Counted(c: Conf, sh: Shared, reqs: seq<Request>) {
    && sh.count == Sum(reqs, Held) && sh.count <= c.slots
    && sh.valid == Sum(reqs, Validated)
    && sh.attempts == Sum(reqs, Made)
    && sh.retries == Sum(reqs, Retried)
    && sh.waiters == Sum(reqs, InSlowPath) % TcpInfos.TWO_TO_32
    && AnswersCounted(sh.responses, reqs)
  }

  ghost predicate AnswersCounted(responses: map<int, nat>, reqs: seq<Request>) {
    forall code :: Responses(responses, code) == Sum(reqs, AnsweredWith(code))
  }

  ghost predicate Inv(c: Conf, s: State) {
    AllGood(c, s.reqs) && Counted(c, s.sh, s.reqs) && LedgerInv(s.sh.tracker)
  }

  lemma {:induction false} HeldNonNegative(c: Conf, r: Request)
    requires Good(c, r)
    ensures Held(r) >= 0
  {
    if !Invalid(r) { PartsPositive(c, r); }
  }

  /** The slots of each request are among those counted. */
  lemma {:induction false} HeldIsCounted(c: Conf, reqs: seq<Request>, i: nat)
    requires AllGood(c, reqs) && i < |reqs|
    ensures 0 <= Held(reqs[i]) <= Sum(reqs, Held)
  {
    forall j | 0 <= j < |reqs| ensures Held(reqs[j]) >= 0 { HeldNonNegative(c, reqs[j]); }
    SumBoundsTerms(reqs, Held);
  }

  lemma {:induction false} GaugeMoves(x: int, d: int)
    ensures Gauge(x % TcpInfos.TWO_TO_32, d) == (x + d) % TcpInfos.TWO_TO_32
  {
  }

  lemma {:induction false} AnswersMove(responses: map<int, nat>, reqs: seq<Request>, i: nat, r: Request)
    requires AnswersCounted(responses, reqs) && i < |reqs|
    requires reqs[i].phase.Answered? ==> r.phase == reqs[i].phase
    ensures AnswersCounted(if r.phase.Answered? && !reqs[i].phase.Answered? then Bump(responses, r.phase.code)
                           else responses, reqs[i := r])
  {
    var responses' := if r.phase.Answered? && !reqs[i].phase.Answered? then Bump(responses, r.phase.code)
                      else responses;
    forall code ensures Responses(responses', code) == Sum(reqs[i := r], AnsweredWith(code)) {
      SumUpdate(reqs, i, r, AnsweredWith(code));
    }
  }

  /** A conserving step of one request keeps the counters. */
  lemma {:induction false} CountedMoves(c: Conf, sh: Shared, reqs: seq<Request>, i: nat, sh': Shared, r: Request)
    requires Counted(c, sh, reqs) && i < |reqs| && Conserves(c, sh, reqs[i], sh', r)
    ensures Counted(c, sh', reqs[i := r])
  {
    SumUpdate(reqs, i, r, Held);
    SumUpdate(reqs, i, r, Validated);
    SumUpdate(reqs, i, r, Made);
    SumUpdate(reqs, i, r, Retried);
    SumUpdate(reqs, i, r, InSlowPath);
    GaugeMoves(Sum(reqs, InSlowPath), InSlowPath(r) - InSlowPath(reqs[i]));
    AnswersMove(sh.responses, reqs, i, r);
    hide Held, Validated, Made, Retried, InSlowPath, Gauge, AnswersCounted;
  }

  lemma {:induction false} CountedArrives(c: Conf, sh: Shared, reqs: seq<Request>, now: int)
    requires Counted(c, sh, reqs)
    ensures Counted(c, sh, reqs + [NewRequest(now)])
  {
    var r := NewRequest(now);
    SumAppend(reqs, r, Held);
    SumAppend(reqs, r, Validated);
    SumAppend(reqs, r, Made);
    SumAppend(reqs, r, Retried);
    SumAppend(reqs, r, InSlowPath);
    forall code ensures Responses(sh.responses, code) == Sum(reqs + [r], AnsweredWith(code)) {
      SumAppend(reqs, r, AnsweredWith(code));
    }
  }

  lemma {:induction false} InitInv(c: Conf)
    ensures Inv(c, Init(c))
  {
    hide LedgerInv, LimitBytes, AnsweredWith;
    var rate := LimitBytes(c);
    EmptyLedger(0);
    EmptyLedger(rate);
    assert SetActive(Store(EMPTY_NET, rate), rate, {}) == Store(EMPTY_NET, rate);
  }

  lemma {:induction false} ReqKeeps(c: Conf, s: State, i: nat, a: Action)
    requires Inv(c, s) && Step(c, s, Req(i, a)).Some?
    ensures Inv(c, Step(c, s, Req(i, a)).value)
  {
    var r := s.reqs[i];
    var m := Act(c, s.now, s.sh, r, a).value;
    HeldIsCounted(c, s.reqs, i);
    ActKeepsGood(c, s.now, s.sh, r, a);
    ActConserves(c, s.now, s.sh, r, a);
    CountedMoves(c, s.sh, s.reqs, i, m.sh, m.r);
    ActKeepsLedger(c, s.now, s.sh, r, a);
    hide Good, Counted, Act, LedgerInv;
  }

  lemma {:induction false} ActKeepsLedger(c: Conf, now: int, sh: Shared, r: Request, a: Action)
    requires LedgerInv(sh.tracker) && Act(c, now, sh, r, a).Some?
    ensures LedgerInv(Act(c, now, sh, r, a).value.sh.tracker)
  {
    ActIsLedgerStep(c, now, sh, r, a);
    var seen := NetEventOfPhase(r.phase, a);
    if seen != [] { NetStepKeeps(sh.tracker, seen[0]); }
    hide Act, NetStep, LedgerInv;
  }

  lemma {:induction false} StepKeeps(c: Conf, s: State, e: Event)
    requires Inv(c, s) && Step(c, s, e).Some?
    ensures Inv(c, Step(c, s, e).value)
  {
    hide Good, Counted, Act, LedgerInv;
    match e
    case Arrive => ArriveKeeps(c, s);
    case Req(i, a) => ReqKeeps(c, s, i, a);
    case Network(ne) =>
      NetStepKeeps(s.sh.tracker, ne);
      CountedIgnoresLedger(c, s.sh, NetStep(s.sh.tracker, ne).value, s.reqs);
    case Tick(d) =>
  }

  lemma {:induction false} ArriveKeeps(c: Conf, s: State)
    requires Inv(c, s)
    ensures Inv(c, Step(c, s, Arrive).value)
  {
    CountedArrives(c, s.sh, s.reqs, s.now);
    assert Good(c, NewRequest(s.now));
    hide Good, Counted;
  }

  lemma {:induction false} CountedIgnoresLedger(c: Conf, sh: Shared, t: Tracker, reqs: seq<Request>)
    requires Counted(c, sh, reqs)
    ensures Counted(c, sh.(tracker := t), reqs)
  {
  }

  /** The invariant holds in every state of every run. */
  lemma {:induction false} RunKeeps(c: Conf, events: seq<Event>)
    requires Run(c, events).Some?
    ensures Inv(c, Run(c, events).value)
  {
    hide Inv, Step;
    if events == [] {
      InitInv(c);
    } else {
      var prefix := events[..|events| - 1];
      RunKeeps(c, prefix);
      StepKeeps(c, Run(c, prefix).value, events[|events| - 1]);
    }
  }

  // ----- the parts of the invariant, one at a time

  lemma {:induction false} RunGood(c: Conf, events: seq<Event>, i: nat)
    requires Run(c, events).Some? && i < |Run(c, events).value.reqs|
    ensures Good(c, Run(c, events).value.reqs[i])
  {
    RunKeeps(c, events);
    hide Good, Counted, LedgerInv, Run;
  }

  lemma {:induction false} RunCounts(c: Conf, events: seq<Event>)
    requires Run(c, events).Some?
    ensures var s := Run(c, events).value; s.sh.count == Sum(s.reqs, Held) <= c.slots
    ensures AllGood(c, Run(c, events).value.reqs)
  {
    RunKeeps(c, events);
    hide AllGood, LedgerInv, Run, AnswersCounted;
  }

  lemma {:induction false} RunGauges(c: Conf, events: seq<Event>)
    requires Run(c, events).Some?
    ensures var s := Run(c, events).value; s.sh.waiters == Sum(s.reqs, InSlowPath) % TcpInfos.TWO_TO_32
  {
    RunKeeps(c, events);
    hide AllGood, LedgerInv, Run, AnswersCounted;
  }

  lemma {:induction false} RunLedger(c: Conf, events: seq<Event>)
    requires Run(c, events).Some?
    ensures LedgerInv(Run(c, events).value.sh.tracker)
  {
    RunKeeps(c, events);
    hide AllGood, Counted, LedgerInv, Run;
  }
}
