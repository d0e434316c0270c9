/** S3ndHandler as code: updatePacingRate and doServeHTTP, with the other requests
    running while this one waits. */
module Handlers {
  import opened Sums
  import opened CeilingDivision
  import opened FileParts
  import opened Errors
  import opened Retry
  import opened UploadTasks
  import opened Ledger
  import opened ConnTrackers
  import opened Semaphores
  import opened Requests
  import opened Scheduler
  import opened PaceBounds

  /** What the world does to one request. */
  datatype World = World(
    parse: ParseOutcome,
    patience: nat,               // how often the waiting request is woken
    queueEnd: QueueEnd,          // how its context ends if that is too rarely
    openErr: Option<Error>,
    outs: seq<Attempt>,
    arrival: int, begin: int, end: int,
    failed: set<nat>, failedAfter: set<nat>)

  /** What a request that does not panic comes to, given the slots taken when it tries the
      fast path: whether it queued, when its transfer began, its result, its times and
      the attempts and retries it made. */
  ghost predicate Served(c: Conf, w: World, count: int, queued: bool, began: Option<int>,
                         err: Option<Error>, times: Times, made: int, retried: int)
    requires |w.outs| >= c.tries
  {
    var accepted := w.parse.Accepted?;
    var parts := if accepted then UploadParts(w.parse.size, c.partsize) else 0;
    // it queued exactly when the fast path failed, and transferred only with its slots
    && (queued <==> accepted && count + parts > c.slots)
    && (if began.None? then !accepted || queued else began == Some(w.begin) && accepted && parts <= c.slots)
    && err == (if w.parse.Rejected? then Some(BadRequest(w.parse.cause))
               else if began.None? then Some(QueueError(w.queueEnd))
               else UploadResult(c.tries, w.openErr, w.outs).result)
    && times == Final(err.Some?, queued, w.arrival, began, w.end, if accepted then w.parse.size else 0)
    && TimesAre(times, queued, w.arrival, began, w.end)
    && made == (if began.Some? then UploadResult(c.tries, w.openErr, w.outs).made else 0)
    && retried == (if began.Some? then UploadResult(c.tries, w.openErr, w.outs).Retries() else 0)
  }

  /** The ledger is paced for the slots in use when the request has taken its own, and then for count. */
  ghost predicate PacedTwice(c: Conf, w: World, before: Net, after: Net, parts: nat, count: nat) {
    exists held: nat ::
      && parts <= held <= c.slots
      && after == Repaced(c, count, Repaced(c, held, before, w.failed), w.failedAfter)
  }

  class Handler {
    const c: Conf
    const parallelUploads: Semaphore
    const connTracker: ConnTracker
    const counters: AttemptCounters
    var validRequestsTotal: nat

    ghost predicate Valid()
      reads this, parallelUploads, connTracker
    {
      && parallelUploads.Valid() && parallelUploads.limit == c.slots
      && connTracker.Valid()
    }

    /** The pace fits the slots in use. */
    ghost predicate Paced()
      reads this, parallelUploads, connTracker
      requires Valid()
    {
      LimitBytes(c) > 0 ==> connTracker.uploadPace == PaceFor(c, parallelUploads.count)
    }

    constructor (c: Conf)
      ensures Valid() && this.c == c
      ensures parallelUploads.count == 0 && validRequestsTotal == 0
      ensures connTracker.Abs() == Repaced(c, 0, EMPTY_NET, {})
    {
      this.c := c;
      parallelUploads := new Semaphore(c.slots);
      connTracker := new ConnTracker();
      counters := new AttemptCounters();
      validRequestsTotal := 0;
      new;
      UpdatePacingRate({});
    }

    /** The whole of updatePacingRate, nothing else moving. */
    method UpdatePacingRate(failed: set<nat>)
      requires Valid()
      modifies connTracker
      ensures Valid()
      ensures connTracker.Abs() == Repaced(c, parallelUploads.count, old(connTracker.Abs()), failed)
      ensures Paced()
    {
      var bwLimitBytes := LimitBytes(c);
      if bwLimitBytes == 0 {
        return;
      }
      var targetPace: nat;
      if parallelUploads.count == 0 {
        targetPace := bwLimitBytes;
      } else {
        TargetIsPaceFor(c, parallelUploads.count);
        targetPace := DivCeil(bwLimitBytes, parallelUploads.count).value;
      }
      var errs := connTracker.SetPacingRate(targetPace, failed);
    }

    /** The upload of a request that holds its slots, has begun its transfer and has set
        the pace, with the other requests running meanwhile. */
    method Upload(task: UploadTask, w: World) returns (err: Option<Error>)
      requires Valid() && |w.outs| >= c.tries
      requires 1 <= task.parts <= parallelUploads.mine
      requires task.transferStartTime == Some(w.begin) && task.endTime.None? && Paced()
      modifies task`attempts, parallelUploads, counters
      ensures Valid()
      ensures parallelUploads.mine == old(parallelUploads.mine)
      ensures parallelUploads.inside == old(parallelUploads.inside)
      ensures parallelUploads.asked == old(parallelUploads.asked)
      ensures err == UploadResult(c.tries, w.openErr, w.outs).result
      ensures counters.attemptsTotal == old(counters.attemptsTotal) + UploadResult(c.tries, w.openErr, w.outs).made
      ensures counters.retriesTotal == old(counters.retriesTotal)
              + UploadResult(c.tries, w.openErr, w.outs).Retries()
    {
      hide NetInv, UploadResult, LimitBytes, PaceFor;
      parallelUploads.Others();
      err := UploadFileMultipart(task, counters, c.tries, w.openErr, w.outs);
      parallelUploads.Others();
    }

    /** The two deferred calls of doServeHTTP in their reverse order: Release, then
        updatePacingRate. The request has stopped by then. */
    method Deferred(task: UploadTask, failed: set<nat>)
      requires Valid() && 1 <= task.parts <= parallelUploads.mine && task.endTime.Some?
      modifies parallelUploads, connTracker
      ensures Valid()
      ensures parallelUploads.mine == old(parallelUploads.mine) - task.parts
      ensures parallelUploads.inside == old(parallelUploads.inside)
      ensures parallelUploads.asked == old(parallelUploads.asked)
      ensures parallelUploads.count == old(parallelUploads.count) - task.parts
      ensures connTracker.Abs() == Repaced(c, parallelUploads.count, old(connTracker.Abs()), failed)
      ensures Paced()
    {
      parallelUploads.Release(task.parts);
      UpdatePacingRate(failed);
      hide NetInv, Repaced, LimitBytes, PaceFor;
    }

    /** doServeHTTP once the slots are held. */
    method Transfer(task: UploadTask, w: World) returns (err: Option<Error>)
      requires Valid() && |w.outs| >= c.tries
      requires 1 <= task.parts <= parallelUploads.mine
      requires task.Reported() == NO_TIMES && task.endTime.None?
      modifies task, parallelUploads, connTracker, counters
      ensures Valid()
      ensures parallelUploads.mine == old(parallelUploads.mine) - old(task.parts)
      ensures parallelUploads.inside == old(parallelUploads.inside)
      ensures err == UploadResult(c.tries, w.openErr, w.outs).result
      ensures counters.attemptsTotal == old(counters.attemptsTotal) + UploadResult(c.tries, w.openErr, w.outs).made
      ensures counters.retriesTotal == old(counters.retriesTotal)
              + UploadResult(c.tries, w.openErr, w.outs).Retries()
      ensures task.startTime == old(task.startTime) && task.uploadQueued == old(task.uploadQueued)
      ensures task.parts == old(task.parts) && task.sizeBytes == old(task.sizeBytes)
      ensures task.transferStartTime == Some(w.begin) && task.endTime == Some(w.end)
      ensures task.Reported()
           == Final(err.Some?, task.uploadQueued, task.startTime, Some(w.begin), w.end, task.sizeBytes)
      // paced for the slots in use when the upload starts, and again for those in use after it
      ensures connTracker.Abs()
           == Repaced(c, parallelUploads.count,
                      Repaced(c, old(parallelUploads.count), old(connTracker.Abs()), w.failed), w.failedAfter)
      ensures Paced()
    {
      hide NetInv, DivCeil, Ceil, UploadResult, Restopped, Repaced, LimitBytes, PaceFor;
      task.StartTransfer(w.begin);
      UpdatePacingRate(w.failed);
      err := Upload(task, w);
      if err.Some? {
        task.StopNoUpload(w.end);
      } else {
        task.Stop(w.end);
      }
      Deferred(task, w.failedAfter);
    }

    /** doServeHTTP. On an empty URI path parseRequest panics, before anything is counted or taken. */
    method DoServeHTTP(w: World) returns (task: UploadTask, err: Option<Error>, panicked: bool)
      requires Valid() && parallelUploads.inside == 0 && |w.outs| >= c.tries
      modifies this`validRequestsTotal, parallelUploads, connTracker, counters
      ensures Valid()
      ensures panicked <==> w.parse.EmptyPath?
      ensures panicked ==> err.None? && task.Reported() == NO_TIMES && connTracker.Abs() == old(connTracker.Abs())
      // slots and gauge are back where they were, on every path
      ensures parallelUploads.mine == old(parallelUploads.mine) && parallelUploads.inside == 0
      ensures validRequestsTotal == old(validRequestsTotal) + if w.parse.Accepted? then 1 else 0
      ensures panicked ==> unchanged(counters) && task.endTime.None?
      ensures !panicked ==>
                && task.startTime == w.arrival && task.endTime == Some(w.end)
                && Served(c, w, old(parallelUploads.count), task.uploadQueued, task.transferStartTime, err,
                          task.Reported(), counters.attemptsTotal - old(counters.attemptsTotal),
                          counters.retriesTotal - old(counters.retriesTotal))
      ensures w.parse.Accepted? ==>
                task.sizeBytes == w.parse.size && task.parts == UploadParts(w.parse.size, c.partsize)
      // the slots were asked for as often as the request was woken, unless they came earlier
      ensures task.uploadQueued && task.transferStartTime.None? ==>
                parallelUploads.asked == old(parallelUploads.asked) + 2 + w.patience
      // the pace is set for the slots in use when the upload starts and when it has ended
      ensures task.transferStartTime.None? ==> connTracker.Abs() == old(connTracker.Abs())
      ensures task.transferStartTime.Some? ==>
                PacedTwice(c, w, old(connTracker.Abs()), connTracker.Abs(), task.parts, parallelUploads.count)
      ensures task.transferStartTime.Some? ==> Paced()
    {
      hide NetInv, DivCeil, Ceil, UploadResult, Restopped, PaceFor, LimitBytes, UploadParts, FirstFailure,
           ContextError, QueueError, QueueFailure, Is;
      task := new UploadTask(w.arrival);
      err, panicked := None, false;
      if w.parse.EmptyPath? {
        panicked := true;
        return;
      }
      if w.parse.Rejected? {
        task.StopNoUpload(w.end);
        err := Some(BadRequest(w.parse.cause));
        return;
      }
      task.sizeBytes := w.parse.size;
      task.parts := UploadParts(w.parse.size, c.partsize);
      validRequestsTotal := validRequestsTotal + 1;

      var callbacks: seq<Option<Error>> := [None];
      NoFailure(callbacks);
      var failure, queued, granted :=
        parallelUploads.Acquire(task.parts, callbacks, w.patience, ContextError(w.queueEnd));
      task.uploadQueued := queued;
      if failure.Some? {
        task.StopNoUpload(w.end);
        QueueFailureIs(w.queueEnd);
        err := Some(QueueFailure(w.queueEnd, failure.value));
      } else {
        err := Transfer(task, w);
      }
    }
  }

  /** The branches after a failed Acquire build the three queue errors. */
  lemma {:induction false} QueueFailureIs(end: QueueEnd)
    ensures QueueFailure(end, ContextError(end)) == QueueError(end)
  {
    assert Is(Canceled, Canceled) && !Is(DeadlineExceeded, Canceled);
  }

  /** The branch of doServeHTTP that follows a failed Acquire. */
  function QueueFailure(end: QueueEnd, err: Error): Error {
    if end.TimerFired? then Joined([QueueTimeout, err])
    else if Is(err, Canceled) then Joined([Aborted, err])
    else Wrapped(err)
  }
}
