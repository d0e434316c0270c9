/** UploadTask: the timing record of one request. */
module UploadTasks {
  import opened Sums

  /** A float64 quotient: division by zero does not trap in Go. */
  datatype Rate = Finite(bytesPerSecond: real) | Infinite | NotANumber

  function Divide(bytes: nat, seconds: real): Rate {
    if seconds != 0.0 then Finite(bytes as real / seconds)
    else if bytes > 0 then Infinite
    else NotANumber
  }

  /** A duration in nanoseconds as seconds. */
  function Seconds(d: int): real {
    d as real / 1000000000.0
  }

  datatype Times = Times(total: real, queued: real, transfer: real, rate: Rate)

  const NO_TIMES := Times(0.0, 0.0, 0.0, Finite(0.0))

  /** The times a task reports once stopped at end, given what it reported before:
      it started at start, and its transfer began at began, if it did. */
  function Restopped(was: Times, waited: bool, start: int, began: Option<int>, end: int, size: nat): Times {
    var total := Seconds(end - start);
    var queued := if !waited then was.queued
                  else if began.Some? then Seconds(began.value - start)
                  else total;
    var transfer := if began.Some? then total - queued else was.transfer;
    Times(total, queued, transfer, if began.Some? then Divide(size, transfer) else was.rate)
  }

  /** The same for a task that is stopped for the first time. */
  function Measured(waited: bool, start: int, began: Option<int>, end: int, size: nat): Times {
    Restopped(NO_TIMES, waited, start, began, end, size)
  }

  /** The times of a record stopped once, in nanoseconds of the clock: the total runs
      from start to end; a request that queued and transferred queued until its transfer
      began and transferred from then on; one that did not queue transferred throughout,
      or not at all; one that never began queued throughout, or not at all. */
  predicate TimesAre(t: Times, waited: bool, start: int, began: Option<int>, end: int) {
    && t.total * BILLION == (end - start) as real
    && t.queued * BILLION == (if !waited then 0 else if began.Some? then began.value - start else end - start) as real
    && t.transfer * BILLION
       == (if began.None? then 0 else if waited then end - began.value else end - start) as real
  }

  const BILLION: real := 1000000000.0

  /** What a stopped task reports: the times of Stop, or without a rate those of StopNoUpload. */
  function Final(failed: bool, waited: bool, start: int, began: Option<int>, end: int, size: nat): (t: Times)
    ensures TimesAre(t, waited, start, began, end)
  {
    var m := Measured(waited, start, began, end, size);
    if failed then m.(rate := Finite(0.0)) else m
  }

  class UploadTask {
    var sizeBytes: nat
    var parts: nat
    var attempts: int
    var startTime: int
    var transferStartTime: Option<int>
    var endTime: Option<int>
    var uploadQueued: bool
    var totalSeconds: real
    var queuedSeconds: real
    var transferSeconds: real
    var rate: Rate

    function Reported(): Times
      reads this
    {
      Times(totalSeconds, queuedSeconds, transferSeconds, rate)
    }

    constructor (now: int)
      ensures startTime == now && transferStartTime.None? && endTime.None? && !uploadQueued
      ensures attempts == 0 && sizeBytes == 0 && parts == 0
      ensures Reported() == NO_TIMES
    {
      startTime, transferStartTime, endTime := now, None, None;
      uploadQueued, attempts, sizeBytes, parts := false, 0, 0, 0;
      totalSeconds, queuedSeconds, transferSeconds, rate := 0.0, 0.0, 0.0, Finite(0.0);
    }

    method StartTransfer(now: int)
      modifies this`transferStartTime
      ensures transferStartTime == Some(now)
    {
      transferStartTime := Some(now);
    }

    method Stop(now: int)
      modifies this`endTime, this`totalSeconds, this`queuedSeconds, this`transferSeconds, this`rate
      ensures endTime == Some(now)
      ensures Reported()
           == Restopped(old(Reported()), uploadQueued, startTime, transferStartTime, now, sizeBytes)
      ensures old(Reported()) == NO_TIMES ==>
                TimesAre(Reported(), uploadQueued, startTime, transferStartTime, now)
    {
      endTime := Some(now);
      totalSeconds := Seconds(now - startTime);
      if uploadQueued && transferStartTime.Some? {
        queuedSeconds := Seconds(transferStartTime.value - startTime);
      } else if uploadQueued && transferStartTime.None? {
        queuedSeconds := totalSeconds;
      }
      if transferStartTime.Some? {
        transferSeconds := totalSeconds - queuedSeconds;
        rate := Divide(sizeBytes, transferSeconds);
      }
    }

    method StopNoUpload(now: int)
      modifies this`endTime, this`totalSeconds, this`queuedSeconds, this`transferSeconds, this`rate
      ensures endTime == Some(now)
      ensures Reported()
           == Restopped(old(Reported()), uploadQueued, startTime, transferStartTime, now, sizeBytes).(
                rate := Finite(0.0))
    {
      Stop(now);
      rate := Finite(0.0);
    }
  }

  lemma TimesMeasured(waited: bool, start: int, began: Option<int>, end: int, size: nat)
    ensures TimesAre(Measured(waited, start, began, end, size), waited, start, began, end)
    ensures var t := Measured(waited, start, began, end, size);
            t.rate == if began.None? then Finite(0.0)
                      else if t.transfer != 0.0 then Finite(size as real / t.transfer)
                      else if size > 0 then Infinite
                      else NotANumber
  {
  }

  lemma SecondsMonotone(a: int, b: int)
    requires a <= b
    ensures Seconds(a) <= Seconds(b)
  {
  }

  /** With a monotone clock every reported duration is non-negative, the queue
      is part of the total, and queue and transfer fill it exactly when the request
      queued, or started, or took no time at all. */
  lemma TimeAccounted(waited: bool, start: int, began: Option<int>, end: int, size: nat)
    requires start <= end && (began.Some? ==> start <= began.value <= end)
    ensures var t := Measured(waited, start, began, end, size);
            && 0.0 <= t.queued <= t.total && 0.0 <= t.transfer <= t.total
            && (t.queued + t.transfer == t.total <==> waited || began.Some? || start == end)
            && (began.None? ==> t.transfer == 0.0)
            && (!waited ==> t.queued == 0.0)
  {
    SecondsMonotone(0, end - start);
    if began.Some? {
      SecondsMonotone(0, began.value - start);
      SecondsMonotone(began.value - start, end - start);
    }
    assert start < end ==> Seconds(end - start) > 0.0;
  }

  /** A started task that took time reports the rate that moves its size in its transfer time. */
  lemma RateMovesSize(waited: bool, start: int, began: int, end: int, size: nat)
    ensures var t := Measured(waited, start, Some(began), end, size);
            t.transfer != 0.0 ==> t.rate.Finite? && t.rate.bytesPerSecond * t.transfer == size as real
    ensures var t := Measured(waited, start, Some(began), end, size);
            t.transfer == 0.0 ==> !t.rate.Finite?
  {
    var t := Measured(waited, start, Some(began), end, size);
    if t.transfer != 0.0 {
      QuotientTimes(size as real, t.transfer);
    }
  }

  lemma QuotientTimes(x: real, y: real)
    requires y != 0.0
    ensures x / y * y == x
  {
  }
}
