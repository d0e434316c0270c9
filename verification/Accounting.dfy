/** The Prometheus counters, the waiter gauge and the status codes over whole runs. */
module Accounting {
  import opened Sums
  import opened Errors
  import opened Retry
  import opened TcpInfos
  import opened Ledger
  import opened Requests
  import opened Lifecycle
  import opened Scheduler
  import opened Invariants

  const CODES := [200, 400, 404, 408, 418, 500, 502, 504]
  const CODES_BUT_400 := [200, 404, 408, 418, 500, 502, 504]

  predicate InFlight(r: Request) {
    !r.phase.Answered? && !Panicked(r)
  }

  predicate Panicked(r: Request) {
    r.phase.BadPath? || r.phase.Crashed? || r.phase.Overdrawn?
  }

  function One(r: Request): int { 1 }

  function InFlightCount(r: Request): int {
    if InFlight(r) then 1 else 0
  }

  function ValidInFlight(r: Request): int {
    if InFlight(r) && !Invalid(r) then 1 else 0
  }

  function PanickedCount(r: Request): int {
    if Panicked(r) then 1 else 0
  }

  function ValidPanicked(r: Request): int {
    if Panicked(r) && !Invalid(r) then 1 else 0
  }

  function AnsweredAmong(codes: seq<int>): Request -> int {
    (r: Request) => if r.phase.Answered? && r.phase.code in codes then 1 else 0
  }

  /** The response counters of the given codes together. */
  function TotalResponses(responses: map<int, nat>, codes: seq<int>): int {
    if codes == [] then 0 else Responses(responses, codes[0]) + TotalResponses(responses, codes[1..])
  }

  lemma {:induction false} ResponsesOf(responses: map<int, nat>, reqs: seq<Request>, codes: seq<int>)
    requires AnswersCounted(responses, reqs)
    requires forall i, j :: 0 <= i < j < |codes| ==> codes[i] != codes[j]
    ensures TotalResponses(responses, codes) == Sum(reqs, AnsweredAmong(codes))
    decreases |codes|
  {
    if codes == [] {
      SumOfZeros(reqs, AnsweredAmong(codes));
    } else {
      ResponsesOf(responses, reqs, codes[1..]);
      forall i | 0 <= i < |reqs|
        ensures AnsweredAmong(codes)(reqs[i]) == AnsweredWith(codes[0])(reqs[i]) + AnsweredAmong(codes[1..])(reqs[i])
      {
        var r := reqs[i];
        if r.phase.Answered? {
          assert r.phase.code in codes <==> r.phase.code == codes[0] || r.phase.code in codes[1..];
        }
      }
      SumPlus(reqs, AnsweredWith(codes[0]), AnsweredAmong(codes[1..]), AnsweredAmong(codes));
    }
  }

  lemma {:induction false} SumOfOnes(reqs: seq<Request>)
    ensures Sum(reqs, One) == |reqs|
  {
    if reqs != [] { SumOfOnes(reqs[..|reqs| - 1]); }
  }

  /** One request is in flight, answered with one of the eight codes, or panicked. */
  lemma {:induction false} OneFate(c: Conf, r: Request)
    requires Good(c, r)
    ensures 1 == InFlightCount(r) + PanickedCount(r) + AnsweredAmong(CODES)(r)
    ensures Validated(r) == ValidInFlight(r) + ValidPanicked(r) + AnsweredAmong(CODES_BUT_400)(r)
  {
  }

  lemma {:induction false} SumOfThree(reqs: seq<Request>, h: Request -> int,
                                      f: Request -> int, g: Request -> int, k: Request -> int)
    requires forall i :: 0 <= i < |reqs| ==> h(reqs[i]) == f(reqs[i]) + g(reqs[i]) + k(reqs[i])
    ensures Sum(reqs, h) == Sum(reqs, f) + Sum(reqs, g) + Sum(reqs, k)
  {
    var fg := (r: Request) => f(r) + g(r);
    SumPlus(reqs, f, g, fg);
    SumPlus(reqs, fg, k, h);
  }

  /** In every reachable state: arrivals are the requests in flight, those that
      panicked and the responses over all codes; valid requests are likewise with
      the responses other than 400. */
  lemma {:induction false} RequestsConserved(c: Conf, events: seq<Event>)
    requires Run(c, events).Some?
    ensures var s := Run(c, events).value;
            |s.reqs| == Sum(s.reqs, InFlightCount) + Sum(s.reqs, PanickedCount)
                        + TotalResponses(s.sh.responses, CODES)
    ensures var s := Run(c, events).value;
            s.sh.valid == Sum(s.reqs, ValidInFlight) + Sum(s.reqs, ValidPanicked)
                          + TotalResponses(s.sh.responses, CODES_BUT_400)
  {
    RunKeeps(c, events);
    var s := Run(c, events).value;
    hide Good, LedgerInv, Held, Validated, Made, Retried, InSlowPath, InFlightCount, PanickedCount,
         ValidInFlight, ValidPanicked, TotalResponses;
    FatesAddUp(c, s.sh.responses, s.reqs);
    ValidAddUp(c, s.sh.responses, s.reqs);
  }

  lemma {:induction false} FatesAddUp(c: Conf, responses: map<int, nat>, reqs: seq<Request>)
    requires AllGood(c, reqs) && AnswersCounted(responses, reqs)
    ensures |reqs| == Sum(reqs, InFlightCount) + Sum(reqs, PanickedCount) + TotalResponses(responses, CODES)
  {
    forall i | 0 <= i < |reqs|
      ensures One(reqs[i]) == InFlightCount(reqs[i]) + PanickedCount(reqs[i]) + AnsweredAmong(CODES)(reqs[i])
    {
      OneFate(c, reqs[i]);
    }
    SumOfOnes(reqs);
    ResponsesOf(responses, reqs, CODES);
    hide Good, One, InFlightCount, PanickedCount, AnsweredAmong, TotalResponses;
    SumOfThree(reqs, One, InFlightCount, PanickedCount, AnsweredAmong(CODES));
  }

  lemma {:induction false} ValidAddUp(c: Conf, responses: map<int, nat>, reqs: seq<Request>)
    requires AllGood(c, reqs) && AnswersCounted(responses, reqs)
    ensures Sum(reqs, Validated) == Sum(reqs, ValidInFlight) + Sum(reqs, ValidPanicked)
                                    + TotalResponses(responses, CODES_BUT_400)
  {
    forall i | 0 <= i < |reqs|
      ensures Validated(reqs[i]) == ValidInFlight(reqs[i]) + ValidPanicked(reqs[i])
                                    + AnsweredAmong(CODES_BUT_400)(reqs[i])
    {
      OneFate(c, reqs[i]);
    }
    ResponsesOf(responses, reqs, CODES_BUT_400);
    hide Good, Validated, ValidInFlight, ValidPanicked, AnsweredAmong, TotalResponses;
    SumOfThree(reqs, Validated, ValidInFlight, ValidPanicked, AnsweredAmong(CODES_BUT_400));
  }

  /** Arrivals are the requests in flight and the responses alone exactly when no request
      had an empty URI path and none divided by zero; valid requests exactly when none
      divided by zero. */
  lemma {:induction false} NothingUnansweredExactly(c: Conf, events: seq<Event>)
    requires Run(c, events).Some?
    ensures var s := Run(c, events).value;
            |s.reqs| == Sum(s.reqs, InFlightCount) + TotalResponses(s.sh.responses, CODES)
            <==> forall i :: 0 <= i < |s.reqs| ==> !s.reqs[i].phase.BadPath? && !s.reqs[i].phase.Crashed?
    ensures var s := Run(c, events).value;
            s.sh.valid == Sum(s.reqs, ValidInFlight) + TotalResponses(s.sh.responses, CODES_BUT_400)
            <==> forall i :: 0 <= i < |s.reqs| ==> !s.reqs[i].phase.Crashed?
  {
    RequestsConserved(c, events);
    RunCounts(c, events);
    NonePanicked(c, Run(c, events).value.reqs);
    hide Run, AllGood, TotalResponses, Sum;
  }

  lemma {:induction false} NonePanicked(c: Conf, reqs: seq<Request>)
    requires AllGood(c, reqs)
    ensures Sum(reqs, PanickedCount) == 0
            <==> forall i :: 0 <= i < |reqs| ==> !reqs[i].phase.BadPath? && !reqs[i].phase.Crashed?
    ensures Sum(reqs, ValidPanicked) == 0 <==> forall i :: 0 <= i < |reqs| ==> !reqs[i].phase.Crashed?
  {
    forall i | 0 <= i < |reqs|
      ensures PanickedCount(reqs[i]) == if reqs[i].phase.BadPath? || reqs[i].phase.Crashed? then 1 else 0
      ensures ValidPanicked(reqs[i]) == if reqs[i].phase.Crashed? then 1 else 0
    {
      PanicIs(c, reqs[i]);
    }
    SumOfBits(reqs, PanickedCount);
    SumOfBits(reqs, ValidPanicked);
    hide Good, PanickedCount, ValidPanicked, Sum;
  }

  lemma {:induction false} PanicIs(c: Conf, r: Request)
    requires Good(c, r)
    ensures PanickedCount(r) == if r.phase.BadPath? || r.phase.Crashed? then 1 else 0
    ensures ValidPanicked(r) == if r.phase.Crashed? then 1 else 0
  {
  }

  lemma {:induction false} SumOfBits(reqs: seq<Request>, f: Request -> int)
    requires forall i :: 0 <= i < |reqs| ==> 0 <= f(reqs[i]) <= 1
    ensures Sum(reqs, f) == 0 <==> forall i :: 0 <= i < |reqs| ==> f(reqs[i]) == 0
  {
    SumBoundsTerms(reqs, f);
    if forall i :: 0 <= i < |reqs| ==> f(reqs[i]) == 0 { SumOfZeros(reqs, f); }
  }

  function EnteredLoop(r: Request): int {
    if Made(r) > 0 then 1 else 0
  }

  /** Attempts are those of all requests that entered the loop, and attempts less
      retries is the number of such requests. */
  lemma {:induction false} AttemptsConserved(c: Conf, events: seq<Event>)
    requires Run(c, events).Some?
    ensures var s := Run(c, events).value;
            s.sh.attempts == Sum(s.reqs, Made) && s.sh.attempts - s.sh.retries == Sum(s.reqs, EnteredLoop)
    ensures var s := Run(c, events).value;
            forall i :: 0 <= i < |s.reqs| && Made(s.reqs[i]) > 0 ==>
              s.reqs[i].attempts == Made(s.reqs[i]) && 1 <= s.reqs[i].attempts <= c.tries
  {
    RunKeeps(c, events);
    var s := Run(c, events).value;
    SumPlus(s.reqs, Retried, EnteredLoop, Made);
    forall i | 0 <= i < |s.reqs| && Made(s.reqs[i]) > 0
      ensures s.reqs[i].attempts == Made(s.reqs[i]) && 1 <= s.reqs[i].attempts <= c.tries
    {
      assert Good(c, s.reqs[i]);
    }
  }

  /** Waiters() is, modulo 2^32, the number of requests inside the slow path of
      Acquire, and zero when there is none. */
  lemma {:induction false} WaitersCounted(c: Conf, events: seq<Event>)
    requires Run(c, events).Some?
    ensures WaitersOk(Run(c, events).value)
  {
    RunGauges(c, events);
    NoneWaiting(Run(c, events).value.reqs);
    hide InSlowPath, Run;
  }

  lemma {:induction false} NoneWaiting(reqs: seq<Request>)
    ensures (forall i :: 0 <= i < |reqs| ==> InSlowPath(reqs[i]) == 0) ==> Sum(reqs, InSlowPath) == 0
  {
    if forall i :: 0 <= i < |reqs| ==> InSlowPath(reqs[i]) == 0 { SumOfZeros(reqs, InSlowPath); }
  }

  predicate WaitersOk(s: State) {
    && s.sh.waiters == Sum(s.reqs, InSlowPath) % TcpInfos.TWO_TO_32
    && ((forall i :: 0 <= i < |s.reqs| ==> InSlowPath(s.reqs[i]) == 0) ==> s.sh.waiters == 0)
  }

  /** The code of every answered request is exactly determined by how it ended:
      in the parse, in the queue, at the file, or by the attempts it made, which the
      retry loop reduces to one kind and one result. */
  predicate AnswerOk(c: Conf, r: Request) {
    r.phase.Answered? ==>
      && r.ending.Some?
      && r.phase.code == StatusCode(r.result) == CodeOfEnding(r.ending.value)
      && (r.phase.code == 400 <==> r.ending.value == ParseFailed)
      && (r.ending.value.Judged? ==>
            && RunLoop(c.tries, 1, r.seen) == LoopState.Stopped(r.attempts, r.result)
            && |r.seen| == r.attempts >= 1
            && r.ending.value.kind == KindOf(r.seen[r.attempts - 1]))
      && (r.phase.code == 200 <==> r.ending.value == Judged(Success) || r.ending.value == Skipped)
      && (r.ending.value == Skipped ==> c.tries < 1)
      && r.attempts == if r.ending.value.Judged? then |r.seen| else if r.ending.value == Skipped then 1 else 0
  }

  lemma {:induction false} GoodIsAnswerOk(c: Conf, r: Request)
    requires Good(c, r)
    ensures AnswerOk(c, r)
  {
  }

  lemma {:induction false} CodeDetermined(c: Conf, events: seq<Event>, i: nat)
    requires Run(c, events).Some? && i < |Run(c, events).value.reqs|
    ensures AnswerOk(c, Run(c, events).value.reqs[i])
  {
    RunGood(c, events, i);
    GoodIsAnswerOk(c, Run(c, events).value.reqs[i]);
    hide AnswerOk, Good, Run;
  }
}
