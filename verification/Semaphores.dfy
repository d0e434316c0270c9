/** The semaphore wrapper as code, among other goroutines that use it at the same time. */
module Semaphores {
  import opened Sums
  import opened Errors
  import opened TcpInfos

  /** The first error of the waiting callbacks, in the order they end; an errgroup
      returns it from Wait. */
  function FirstFailure(callbacks: seq<Option<Error>>): Option<Error> {
    if callbacks == [] then None
    else if callbacks[0].Some? then callbacks[0]
    else FirstFailure(callbacks[1..])
  }

  /** What Acquire returns when the fast path did or did not succeed, and the inner
      Acquire took the slots or gave up with the context's error. */
  function AcquireError(fast: bool, granted: bool, failure: Option<Error>, ctxErr: Error): Option<Error> {
    if fast then None
    else if failure.Some? then failure
    else if granted then None
    else Some(ctxErr)
  }

  lemma {:induction false} NoFailure(callbacks: seq<Option<Error>>)
    ensures FirstFailure(callbacks).None? <==> AllNil(callbacks)
    ensures forall i :: FailsFirst(callbacks, i) ==> FirstFailure(callbacks) == callbacks[i]
    decreases |callbacks|
  {
    if callbacks != [] {
      var rest := callbacks[1..];
      NoFailure(rest);
      assert forall i :: 0 < i < |callbacks| ==> callbacks[i] == rest[i - 1];
      forall i | FailsFirst(callbacks, i) ensures FirstFailure(callbacks) == callbacks[i] {
        if i > 0 {
          forall j | 0 <= j < i - 1 ensures rest[j].None? { assert callbacks[j + 1] == rest[j]; }
          assert FailsFirst(rest, i - 1);
        }
      }
    }
  }

  predicate FailsFirst(callbacks: seq<Option<Error>>, i: int) {
    0 <= i < |callbacks| && callbacks[i].Some? && forall j :: 0 <= j < i ==> callbacks[j].None?
  }

  predicate AllNil(callbacks: seq<Option<Error>>) {
    forall i :: 0 <= i < |callbacks| ==> callbacks[i].None?
  }

  /** Acquire returns nil exactly when the slots are held, whatever the other users
      and the context do, exactly when every callback returns nil. */
  lemma {:induction false} NilMeansHeldExactly(callbacks: seq<Option<Error>>)
    ensures AllNil(callbacks) <==>
            forall fast, granted, ctxErr ::
              AcquireError(fast, granted, FirstFailure(callbacks), ctxErr).None? <==> fast || granted
  {
    NoFailure(callbacks);
    if !AllNil(callbacks) {
      assert AcquireError(false, true, FirstFailure(callbacks), Canceled).Some?;
    }
  }

  class Semaphore {
    const limit: int
    var count: int
    var waiters: uint32
    var mine: int         // history: slots of the calling goroutine
    var others: int       // history: slots of all other goroutines
    var inside: nat       // history: 1 while the caller is in the slow path
    var othersInside: nat // history: other goroutines in the slow path
    var asked: nat        // history: how often the caller tried to take slots

    ghost predicate Valid()
      reads this
    {
      && 0 <= mine && 0 <= others && count == mine + others <= limit
      && waiters == (inside + othersInside) % TWO_TO_32
    }

    constructor (limit: int)
      requires limit >= 1
      ensures Valid() && this.limit == limit && count == 0 && waiters == 0 && mine == 0 && inside == 0
    {
      this.limit := limit;
      count, waiters, mine, others, inside, othersInside, asked := 0, 0, 0, 0, 0, 0, 0;
    }

    /** Any number of steps of the other goroutines. */
    method Others()
      requires Valid()
      modifies this
      ensures Valid() && mine == old(mine) && inside == old(inside) && asked == old(asked)
    {
      var held: int := *;
      var queued: int := *;
      if 0 <= held && mine + held <= limit && 0 <= queued {
        others, count := held, mine + held;
        othersInside, waiters := queued, (inside + queued) % TWO_TO_32;
      }
    }

    method TryAcquire(n: int) returns (ok: bool)
      requires Valid() && n >= 1
      modifies this`count, this`mine, this`asked
      ensures Valid() && asked == old(asked) + 1
      ensures ok <==> old(count) + n <= limit
      ensures mine == old(mine) + (if ok then n else 0)
      ensures count == old(count) + (if ok then n else 0)
    {
      ok := count + n <= limit;
      asked := asked + 1;
      if ok {
        count := count + n;
        mine := mine + n;
      }
    }

    method Release(n: int)
      requires Valid() && 1 <= n <= mine
      modifies this`count, this`mine
      ensures Valid() && mine == old(mine) - n && count == old(count) - n
    {
      count := count - n;
      mine := mine - n;
    }

    /** The Acquire of the embedded semaphore: it is woken up to patience times
        before its context ends, and gives up only if the slots fitted at none of them.
        Its caller is counted as a waiter. */
    method InnerAcquire(n: int, patience: nat) returns (granted: bool)
      requires Valid() && n >= 1 && inside == 1
      modifies this
      ensures Valid() && inside == 1
      ensures mine == old(mine) + (if granted then n else 0)
      ensures old(asked) < asked <= old(asked) + patience + 1
      ensures !granted ==> asked == old(asked) + patience + 1 && count + n > limit
      ensures n > limit ==> !granted
    {
      var left := patience;
      Others();
      granted := TryAcquire(n);
      while !granted && left > 0
        invariant Valid() && inside == 1
        invariant mine == old(mine) + (if granted then n else 0)
        invariant !granted ==> count + n > limit
        invariant asked == old(asked) + patience - left + 1
        invariant n > limit ==> !granted
        decreases left
      {
        left := left - 1;
        Others();
        granted := TryAcquire(n);
      }
    }

    /** The waiting callbacks, in the order they end: errgroup keeps the first failure.
        They run while their caller is counted as a waiter. */
    method RunCallbacks(callbacks: seq<Option<Error>>) returns (failure: Option<Error>)
      requires inside == 1
      ensures failure == FirstFailure(callbacks)
    {
      failure := None;
      var i := 0;
      while i < |callbacks|
        invariant 0 <= i <= |callbacks|
        invariant FirstFailure(callbacks) == if failure.Some? then failure else FirstFailure(callbacks[i..])
      {
        assert callbacks[i..][1..] == callbacks[i + 1..];
        if failure.None? {
          failure := callbacks[i];
        }
        i := i + 1;
      }
    }

    /** Acquire. callbacks are the errors the waiting callbacks return, ctxErr the
        error of the context if it ends first; queued tells whether they ran. */
    method Acquire(n: int, callbacks: seq<Option<Error>>, patience: nat, ctxErr: Error)
      returns (err: Option<Error>, queued: bool, granted: bool)
      requires Valid() && n >= 1 && inside == 0
      modifies this
      ensures Valid() && inside == 0
      ensures queued <==> old(count) + n > limit
      ensures mine == old(mine) + (if !queued || granted then n else 0)
      ensures err == AcquireError(!queued, granted, FirstFailure(callbacks), ctxErr)
      ensures AllNil(callbacks) ==> (err.None? <==> mine == old(mine) + n)
      ensures !AllNil(callbacks) && queued ==> err.Some?
      ensures queued ==> forall i :: FailsFirst(callbacks, i) ==> err == callbacks[i]
      ensures queued && !granted && AllNil(callbacks) ==> err == Some(ctxErr)
      ensures n > limit ==> queued && !granted
      // it asks once more than it is woken, and gives up only after the last time
      ensures !queued ==> asked == old(asked) + 1
      ensures queued ==> old(asked) + 2 <= asked <= old(asked) + 2 + patience
      ensures queued && !granted ==> asked == old(asked) + 2 + patience
    {
      NoFailure(callbacks);
      granted := false;
      var ok := TryAcquire(n);
      queued := !ok;
      if ok {
        return None, false, false;
      }
      waiters := Add32(waiters, 1);
      GaugeUp(inside + othersInside);
      inside := inside + 1;
      var failure := RunCallbacks(callbacks);
      granted := InnerAcquire(n, patience);
      Others();
      err := if failure.Some? then failure else if granted then None else Some(ctxErr);
      waiters := Add32(waiters, TWO_TO_32 - 1);
      GaugeBack(inside + othersInside);
      inside := inside - 1;
    }
  }

  lemma {:induction false} GaugeUp(x: int)
    ensures Add32(x % TWO_TO_32, 1) == (x + 1) % TWO_TO_32
  {
  }

  /** Adding 2^32 - 1 takes one away. */
  lemma {:induction false} GaugeBack(x: int)
    ensures Add32(x % TWO_TO_32, TWO_TO_32 - 1) == (x - 1) % TWO_TO_32
  {
  }
}
