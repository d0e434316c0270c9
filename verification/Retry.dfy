/** uploadFileMultipart: the retry loop over upload attempts. */
module Retry {
  import opened Sums
  import opened Errors
  import opened UploadTasks

  /** What one attempt shows: the error of Upload, and whether the attempt's own
      timer is the cause its context ended with. */
  datatype Attempt = Attempt(err: Option<Error>, timedOut: bool)

  datatype Verdict = Again | Return(result: Option<Error>)

  /** The switch that follows attempt k. */
  function Judge(tries: int, k: int, a: Attempt): Verdict {
    match a.err
    case None => Return(None)
    case Some(e) =>
      var api := AsApi(e);
      if api.Some? then
        if api.value == "NoSuchBucket" then Return(Some(Joined([NoSuchBucket, e])))
        else LastOrAgain(tries, k, e)
      else if a.timedOut then LastOrAgain(tries, k, Joined([AttemptTimeout, e]))
      else if Is(e, Canceled) then Return(Some(Joined([Aborted, e])))
      else LastOrAgain(tries, k, e)
  }

  function LastOrAgain(tries: int, k: int, e: Error): Verdict {
    if k == tries then Return(Some(Wrapped(e))) else Again
  }

  /** The meaning of an attempt, apart from the error trees the code builds. */
  datatype Kind = Success | MissingBucket | ApiFailure | TimedOut | ClientGone | Unknown

  function KindOf(a: Attempt): Kind {
    if a.err.None? then Success
    else if AsApi(a.err.value) == Some("NoSuchBucket") then MissingBucket
    else if AsApi(a.err.value).Some? then ApiFailure
    else if a.timedOut then TimedOut
    else if Is(a.err.value, Canceled) then ClientGone
    else Unknown
  }

  predicate Retryable(a: Attempt) {
    KindOf(a) in {ApiFailure, TimedOut, Unknown}
  }

  function CodeOfKind(kind: Kind): int {
    match kind
    case Success => 200
    case MissingBucket => 404
    case ApiFailure => 502
    case TimedOut => 504
    case ClientGone => 418
    case Unknown => 500
  }

  predicate ForeignAttempt(a: Attempt) {
    a.err.Some? ==> Foreign(a.err.value)
  }

  /** The loop returns at the last try or at an attempt that is not retryable. */
  lemma VerdictReturns(tries: int, k: int, a: Attempt)
    ensures Judge(tries, k, a).Return? <==> k == tries || !Retryable(a)
  {
  }

  /** The error it returns is answered with the code of that attempt's kind,
      through every layer of Wrap and Join. */
  lemma VerdictCode(tries: int, k: int, a: Attempt)
    requires ForeignAttempt(a)
    ensures Judge(tries, k, a).Return? ==> StatusCode(Judge(tries, k, a).result) == CodeOfKind(KindOf(a))
  {
    if a.err.Some? {
      var e := a.err.value;
      ForeignCode(e);
      WrapKeepsCode(e);
      if AsApi(e).Some? {
        JoinCode(NoSuchBucket, e);
      } else if a.timedOut {
        JoinCode(AttemptTimeout, e);
        WrapKeepsCode(Joined([AttemptTimeout, e]));
      } else {
        JoinCode(Aborted, e);
      }
      hide StatusCode, AsApi, Is, Foreign;
    }
  }

  /** What decides the kind of an attempt: success; else its first API error, depth
      first, and whether that one names a missing bucket; else its timer; else whether
      a cancellation is anywhere in its error. */
  lemma KindMeans(a: Attempt)
    ensures KindOf(a).Success? <==> a.err.None?
    ensures a.err.Some? ==> forall i :: FirstApiAt(Nodes(a.err.value), i) ==>
              KindOf(a) == if Nodes(a.err.value)[i].code == "NoSuchBucket" then MissingBucket else ApiFailure
    ensures a.err.Some? && (forall x :: x in Nodes(a.err.value) ==> !x.Api?) ==>
              KindOf(a) == if a.timedOut then TimedOut
                           else if Canceled in Nodes(a.err.value) then ClientGone
                           else Unknown
  {
    if a.err.Some? {
      AsApiFinds(a.err.value);
      IsFindsNode(a.err.value, Canceled);
    }
    hide AsApi, Is, Nodes;
  }

  /** n layers of Wrap. */
  function Layers(n: nat, e: Error): Error {
    if n == 0 then e else Wrapped(Layers(n - 1, e))
  }

  /** Under any layers an S3 error is retried unless it names a missing bucket. */
  lemma {:induction false} ApiKind(n: nat, code: string, wraps: Option<Error>, timedOut: bool)
    ensures KindOf(Attempt(Some(Layers(n, Api(code, wraps))), timedOut))
         == if code == "NoSuchBucket" then MissingBucket else ApiFailure
    ensures Retryable(Attempt(Some(Layers(n, Api(code, wraps))), timedOut)) <==> code != "NoSuchBucket"
  {
    LayersKeepApi(n, Api(code, wraps));
  }

  lemma {:induction false} LayersKeepApi(n: nat, e: Error)
    ensures AsApi(Layers(n, e)) == AsApi(e)
  {
    if n > 0 { LayersKeepApi(n - 1, e); }
  }

  lemma LayerNodes(e: Error)
    ensures forall x :: x in Nodes(e) ==> x in Nodes(Wrapped(e))
  {
  }

  /** The error the loop returns has the attempt's own error among its nodes, and beside
      it the sentinel of a missing bucket, a timeout or a disconnect. */
  lemma VerdictKeepsError(tries: int, k: int, a: Attempt)
    requires a.err.Some? && Judge(tries, k, a).Return?
    ensures var result := Judge(tries, k, a).result;
            && result.Some? && a.err.value in Nodes(result.value)
            && (KindOf(a).MissingBucket? ==> NoSuchBucket in Nodes(result.value))
            && (KindOf(a).TimedOut? ==> AttemptTimeout in Nodes(result.value))
            && (KindOf(a).ClientGone? ==> Aborted in Nodes(result.value))
            && (if Retryable(a) then result.value.Wrapped? else result.value.Joined?)
  {
    var e := a.err.value;
    JoinNodes(NoSuchBucket, e);
    JoinNodes(AttemptTimeout, e);
    JoinNodes(Aborted, e);
    NodeOfItself(e);
    LayerNodes(e);
    LayerNodes(Joined([AttemptTimeout, e]));
    hide Is, AsApi, Nodes;
  }

  datatype LoopState = Trying(k: int) | Stopped(k: int, result: Option<Error>)

  /** Where the loop stands after the given attempts, starting at attempt k. */
  function RunLoop(tries: int, k: int, outs: seq<Attempt>): LoopState
    decreases |outs|
  {
    if outs == [] then Trying(k)
    else match Judge(tries, k, outs[0])
         case Return(r) => Stopped(k, r)
         case Again => RunLoop(tries, k + 1, outs[1..])
  }

  /** One more attempt extends a run that is still trying, and nothing else. */
  lemma {:induction false} RunLoopExtend(tries: int, k: int, outs: seq<Attempt>, a: Attempt)
    ensures RunLoop(tries, k, outs).Trying? ==> RunLoop(tries, k, outs).k == k + |outs|
    ensures RunLoop(tries, k, outs + [a])
         == if RunLoop(tries, k, outs).Stopped? then RunLoop(tries, k, outs)
            else match Judge(tries, k + |outs|, a)
                 case Return(r) => Stopped(k + |outs|, r)
                 case Again => Trying(k + |outs| + 1)
    decreases |outs|
  {
    if outs != [] {
      assert (outs + [a])[1..] == outs[1..] + [a];
      RunLoopExtend(tries, k + 1, outs[1..], a);
    } else {
      assert [a][1..] == [];
    }
  }

  /** The loop stops at attempt n exactly when every earlier one was retryable and
      n is the last try or not retryable; its result is the verdict on attempt n. */
  lemma {:induction false} LoopStops(tries: int, k: int, outs: seq<Attempt>, n: int)
    requires 1 <= k <= tries && k <= n < k + |outs|
    ensures RunLoop(tries, k, outs).Stopped? && RunLoop(tries, k, outs).k == n
       <==> && n <= tries
            && (forall i :: 0 <= i < n - k ==> Retryable(outs[i]))
            && (n == tries || !Retryable(outs[n - k]))
    ensures RunLoop(tries, k, outs).Stopped? && RunLoop(tries, k, outs).k == n ==>
              Judge(tries, n, outs[n - k]) == Return(RunLoop(tries, k, outs).result)
    decreases |outs|
  {
    VerdictReturns(tries, k, outs[0]);
    match Judge(tries, k, outs[0])
    case Return(r) =>
      if n > k && n <= tries { assert !Retryable(outs[0]); }
    case Again =>
      var rest := outs[1..];
      assert forall i :: 0 <= i < |rest| ==> rest[i] == outs[i + 1];
      if n > k {
        LoopStops(tries, k + 1, rest, n);
        assert outs[n - k] == rest[n - k - 1];
        if forall i :: 0 <= i < n - k - 1 ==> Retryable(rest[i]) {
          forall i | 0 <= i < n - k ensures Retryable(outs[i]) {
            if i > 0 { assert outs[i] == rest[i - 1]; }
          }
        }
      } else if rest != [] {
        LoopAdvances(tries, k + 1, rest);
      }
  }

  lemma {:induction false} LoopAdvances(tries: int, k: int, outs: seq<Attempt>)
    ensures RunLoop(tries, k, outs).k >= k
    decreases |outs|
  {
    if outs != [] { LoopAdvances(tries, k + 1, outs[1..]); }
  }

  /** With as many outcomes as tries the loop always stops, within the tries. */
  lemma {:induction false} LoopTerminates(tries: int, k: int, outs: seq<Attempt>)
    requires 1 <= k <= tries && |outs| >= tries - k + 1
    ensures RunLoop(tries, k, outs).Stopped? && k <= RunLoop(tries, k, outs).k <= tries
    decreases |outs|
  {
    if Judge(tries, k, outs[0]).Again? {
      LoopTerminates(tries, k + 1, outs[1..]);
    }
  }

  /** The whole of uploadFileMultipart: its result and the attempts it made. */
  datatype Upload = Upload(result: Option<Error>, made: nat) {
    function Retries(): nat {
      if made > 0 then made - 1 else 0
    }
  }

  function UploadResult(tries: int, openErr: Option<Error>, outs: seq<Attempt>): (u: Upload)
    requires |outs| >= tries
    ensures u.made <= |outs| && (tries >= 1 ==> u.made <= tries)
  {
    if openErr.Some? then Upload(Some(Wrapped(openErr.value)), 0)
    else if tries <= 0 then Upload(None, 0)
    else
      LoopTerminates(tries, 1, outs);
      var end := RunLoop(tries, 1, outs);
      Upload(end.result, end.k)
  }

  /** A file that cannot be opened is returned with its error and without an attempt;
      otherwise the result is the verdict on the last attempt made. */
  lemma ResultMeans(tries: int, openErr: Option<Error>, outs: seq<Attempt>)
    requires |outs| >= tries
    ensures var u := UploadResult(tries, openErr, outs);
            && (openErr.Some? ==> u.made == 0 && u.result.Some? && openErr.value in Nodes(u.result.value))
            && (openErr.None? && tries >= 1 ==>
                  u.made >= 1 && Judge(tries, u.made, outs[u.made - 1]) == Return(u.result))
  {
    if openErr.Some? {
      NodeOfItself(openErr.value);
    } else if tries >= 1 {
      LoopTerminates(tries, 1, outs);
      LoopStops(tries, 1, outs, RunLoop(tries, 1, outs).k);
    }
  }

  /** It returns nil exactly when an attempt within the tries succeeded after only
      retryable ones, or when the tries are not positive and the file opens. */
  lemma NilExactly(tries: int, openErr: Option<Error>, outs: seq<Attempt>)
    requires |outs| >= tries
    ensures UploadResult(tries, openErr, outs).result.None? <==>
              openErr.None? && (tries <= 0 || exists n :: SucceedsAt(tries, outs, n))
    ensures forall n :: openErr.None? && SucceedsAt(tries, outs, n) ==> UploadResult(tries, openErr, outs).made == n
  {
    if openErr.None? && tries >= 1 {
      LoopTerminates(tries, 1, outs);
      var end := RunLoop(tries, 1, outs);
      LoopStops(tries, 1, outs, end.k);
      if end.result.None? {
        assert outs[end.k - 1].err.None?;
        assert SucceedsAt(tries, outs, end.k);
      }
      forall n | SucceedsAt(tries, outs, n) ensures end == Stopped(n, None) {
        LoopStops(tries, 1, outs, n);
      }
    }
  }

  predicate SucceedsAt(tries: int, outs: seq<Attempt>, n: int) {
    && 1 <= n <= tries && n <= |outs|
    && outs[n - 1].err.None?
    && forall i :: 0 <= i < n - 1 ==> Retryable(outs[i])
  }

  /** A nil result means that one of the attempts made uploaded the file, for every
      behaviour of the store, exactly when at least one try is configured. */
  lemma NilMeansUploaded(tries: int)
    ensures tries >= 1 <==>
            forall outs: seq<Attempt> ::
              |outs| >= tries && UploadResult(tries, None, outs).result.None? ==>
                exists i :: 0 <= i < UploadResult(tries, None, outs).made && outs[i].err.None?
  {
    if tries <= 0 {
      var none: seq<Attempt> := [];
      assert UploadResult(tries, None, none) == Upload(None, 0);
    } else {
      forall outs: seq<Attempt> | |outs| >= tries && UploadResult(tries, None, outs).result.None?
        ensures exists i :: 0 <= i < UploadResult(tries, None, outs).made && outs[i].err.None?
      {
        NilExactly(tries, None, outs);
        var n :| SucceedsAt(tries, outs, n);
        assert outs[n - 1].err.None?;
      }
    }
  }

  /** The two attempt counters of the Prometheus registry. */
  class AttemptCounters {
    var attemptsTotal: nat
    var retriesTotal: nat

    constructor ()
      ensures attemptsTotal == 0 && retriesTotal == 0
    {
      attemptsTotal, retriesTotal := 0, 0;
    }
  }

  /** The loop as written; outs is what the uploader would answer to each attempt. */
  method UploadFileMultipart(task: UploadTask, counters: AttemptCounters, tries: int,
                             openErr: Option<Error>, outs: seq<Attempt>)
    returns (err: Option<Error>)
    requires |outs| >= tries
    modifies task`attempts, counters
    ensures err == UploadResult(tries, openErr, outs).result
    ensures counters.attemptsTotal == old(counters.attemptsTotal) + UploadResult(tries, openErr, outs).made
    ensures counters.retriesTotal == old(counters.retriesTotal) + UploadResult(tries, openErr, outs).Retries()
    ensures openErr.Some? ==> task.attempts == old(task.attempts)
    ensures openErr.None? && tries <= 0 ==> task.attempts == 1
    ensures openErr.None? && tries >= 1 ==>
              1 <= task.attempts <= tries && task.attempts == UploadResult(tries, openErr, outs).made
  {
    if openErr.Some? {
      return Some(Wrapped(openErr.value));
    }
    if tries >= 1 { LoopTerminates(tries, 1, outs); }
    task.attempts := 1;
    while task.attempts <= tries
      invariant 1 <= task.attempts
      invariant tries >= 1 ==> task.attempts <= tries
      invariant tries <= 0 ==> task.attempts == 1
      invariant counters.attemptsTotal == old(counters.attemptsTotal) + task.attempts - 1
      invariant counters.retriesTotal
             == old(counters.retriesTotal) + if task.attempts == 1 then 0 else task.attempts - 2
      invariant tries >= 1 ==> RunLoop(tries, 1, outs) == RunLoop(tries, task.attempts, outs[task.attempts - 1..])
      decreases tries - task.attempts
    {
      counters.attemptsTotal := counters.attemptsTotal + 1;
      if task.attempts > 1 {
        counters.retriesTotal := counters.retriesTotal + 1;
      }
      ghost var rest := outs[task.attempts - 1..];
      assert rest[0] == outs[task.attempts - 1] && rest[1..] == outs[task.attempts..];
      match Judge(tries, task.attempts, outs[task.attempts - 1]) {
        case Return(r) => return r;
        case Again =>
      }
      task.attempts := task.attempts + 1;
    }
    err := None;
  }
}
