/** ConnTracker: the methods, each equal to the operation of the ledger it stands for. */
module ConnTrackers {
  import opened Sums
  import opened TcpInfos
  import opened Ledger
  import opened Totals

  class ConnTracker {
    var conns: seq<Conn>      // the sockets, by connection number
    var active: set<nat>
    var closed: uint64
    var tcpInfoSumClosed: TcpInfo
    var uploadPace: nat

    function Abs(): Net
      reads this
    {
      Net(conns, active, closed, tcpInfoSumClosed, uploadPace)
    }

    ghost predicate Valid()
      reads this
    {
      NetInv(Abs())
    }

    constructor ()
      ensures Valid() && Abs() == EMPTY_NET
    {
      conns, active, closed, tcpInfoSumClosed, uploadPace := [], {}, 0, ZERO_INFO, 0;
      new;
      EmptyLedger(0);
    }

    /** setsockopt fails on the connections in failed; errs are those among them whose
        errors are joined into the result. */
    method SetPacingRate(rate: nat, failed: set<nat>) returns (errs: set<nat>)
      requires Valid()
      modifies this
      ensures Valid()
      ensures Abs() == Ledger.SetPacingRate(old(Abs()), rate, failed)
      ensures errs == if rate == old(uploadPace) then {} else old(active) * failed
    {
      if rate == uploadPace {
        return {};
      }
      SetActiveKeeps(Store(Abs(), rate), rate, failed);
      ghost var stored := Store(Abs(), rate);
      uploadPace := rate;
      assert forall i :: i in active ==> i < |conns|;
      conns, errs := PaceActive(conns, active, rate, failed);
      assert conns == SetActive(stored, rate, failed).conns;
      hide NetInv, Paced;
    }

    /** A dial that nothing else interrupts: dialed is None when the dialer fails or its
        connection cannot be tracked, and ok tells whether setsockopt succeeds. A
        connection that could not be paced is returned together with the error. */
    method DialContext(dialed: Option<TcpInfos.TcpInfo>, ok: bool) returns (conn: Option<nat>, failed: bool)
      requires Valid()
      modifies this
      ensures Valid()
      ensures dialed.None? ==> conn.None? && failed && Abs() == old(Abs())
      ensures dialed.Some? ==>
                && conn == Some(|old(conns)|) && (failed <==> old(uploadPace) > 0 && !ok)
                && Abs() == FinishDial(Register(old(Abs()), dialed.value), conn.value, ok)
    {
      if dialed.None? {
        return None, true;
      }
      var c := |conns|;
      DialKeeps(Abs(), dialed.value, ok);
      conns := conns + [Conn(Registered, 0, true, dialed.value, Idle, false, ZERO_INFO, true)];
      active := active + {c};
      if uploadPace > 0 {
        conns := conns[c := Paced(conns[c], uploadPace, ok).(stage := Ready)];
        return Some(c), !ok;
      }
      conns := conns[c := conns[c].(stage := Ready)];
      return Some(c), false;
    }

    method MarkClosedLocked(c: nat, readable: bool)
      requires c < |conns|
      modifies this
      ensures Abs() == MarkClosed(old(Abs()), c, readable)
    {
      var info := if readable then conns[c].info else ZERO_INFO;
      if readable {
        tcpInfoSumClosed := AddTcpInfo(tcpInfoSumClosed, info);
      } else {
        AddZero(tcpInfoSumClosed);
      }
      conns := conns[c := conns[c].(marked := true, final := info)];
      active := active - {c};
      closed := Add64(closed, 1);
    }

    /** TrackedConn.Close, which nothing else interrupts. */
    method Close(c: nat, readable: bool)
      requires Valid() && c < |conns| && conns[c].stage.Ready? && !conns[c].once.Running?
      modifies this
      ensures Valid()
      ensures Abs() == CloseWhole(old(Abs()), c, readable)
    {
      CloseWholeKeeps(Abs(), c, readable);
      if conns[c].once.Idle? {
        conns := conns[c := conns[c].(once := Running)];
        MarkClosedLocked(c, readable);
        conns := conns[c := conns[c].(once := Done)];
      }
      conns := conns[c := conns[c].(fdOpen := false)];
    }

    method Connections() returns (activeCount: nat, closedCount: uint64)
      requires Valid()
      ensures (activeCount + closedCount) % TWO_TO_64 == |conns| % TWO_TO_64
      ensures activeCount == |active| && closedCount == closed
    {
      LedgerPartition(Tracker(Abs(), []));
      return |active|, closed;
    }

    method TcpInfo(unreadable: set<nat>) returns (sum: TcpInfos.TcpInfo, errs: set<nat>)
      requires Valid()
      ensures errs == active * unreadable
      ensures ClosedPlus(sum, Abs(), active - unreadable)
      ensures unreadable !! active ==> CountsAll(sum, Abs())
    {
      var activeSum;
      assert forall i :: i in active ==> i < |conns|;
      activeSum, errs := SumActive(conns, active, unreadable);
      sum := AddTcpInfo(tcpInfoSumClosed, activeSum);
      WholeSum(Abs(), active - unreadable, activeSum);
      if unreadable !! active {
        assert active - unreadable == active;
        WholeTotal(Abs(), sum);
      }
    }
  }

  /** The loop of SetPacingRate: it visits the active sockets in an arbitrary order. */
  method PaceActive(before: seq<Conn>, active: set<nat>, rate: nat, failed: set<nat>)
    returns (conns: seq<Conn>, errs: set<nat>)
    requires forall i :: i in active ==> i < |before|
    ensures |conns| == |before|
    ensures forall i :: 0 <= i < |before| ==>
              conns[i] == if i in active then Paced(before[i], rate, i !in failed) else before[i]
    ensures errs == active * failed
  {
    conns, errs := before, {};
    var todo := active;
    while todo != {}
      invariant todo <= active && |conns| == |before|
      invariant forall i :: i in errs <==> i in active && i !in todo && i in failed
      invariant forall i :: 0 <= i < |conns| ==>
                  conns[i] == if i in active && i !in todo then Paced(before[i], rate, i !in failed) else before[i]
      decreases |todo|
    {
      var c :| c in todo;
      conns := conns[c := Paced(conns[c], rate, c !in failed)];
      if c in failed {
        errs := errs + {c};
      }
      todo := todo - {c};
    }
    hide Paced;
  }

  /** The loop of TcpInfo: it visits the active sockets in an arbitrary order, and
      getsockopt fails on those in unreadable. */
  method SumActive(conns: seq<Conn>, active: set<nat>, unreadable: set<nat>)
    returns (sum: TcpInfos.TcpInfo, errs: set<nat>)
    requires forall i :: i in active ==> i < |conns|
    ensures SumsTo(sum, conns, active - unreadable)
    ensures errs == active * unreadable
  {
    sum, errs := ZERO_INFO, {};
    var todo := active;
    NothingSummed(conns);
    ghost var seen: set<nat> := {};
    while todo != {}
      invariant todo <= active && seen == active - unreadable - todo
      invariant forall i :: i in errs <==> i in active && i !in todo && i in unreadable
      invariant SumsTo(sum, conns, seen)
      decreases |todo|
    {
      var c :| c in todo;
      todo := todo - {c};
      if c in unreadable {
        errs := errs + {c};
      } else {
        CountOne(conns, seen, c, sum);
        sum := AddTcpInfo(sum, conns[c].info);
        seen := seen + {c};
      }
    }
    assert seen == active - unreadable;
    hide SumsTo, AddTcpInfo, SumOver, Get, Wrap;
  }

  /** Every counter is, modulo its word, the final values of the closed
      connections plus the current values of those in s. */
  ghost predicate ClosedPlus(sum: TcpInfos.TcpInfo, n: Net, s: set<nat>) {
    forall k :: Get(k, sum) == Wrap(k, Sum(n.conns, Left(k)) + SumOver(n.conns, s, k))
  }

  /** Every counter counts every registered connection exactly once, modulo its word. */
  ghost predicate CountsAll(sum: TcpInfos.TcpInfo, n: Net) {
    forall k :: Get(k, sum) == Wrap(k, Total(n, k))
  }

  /** The closed sum and the sum over the connections in s, added by addTcpInfo. */
  lemma {:induction false} WholeSum(n: Net, s: set<nat>, part: TcpInfos.TcpInfo)
    requires NetInv(n) && SumsTo(part, n.conns, s)
    ensures ClosedPlus(AddTcpInfo(n.sumClosed, part), n, s)
  {
    forall k ensures Get(k, AddTcpInfo(n.sumClosed, part))
                  == Wrap(k, Sum(n.conns, Left(k)) + SumOver(n.conns, s, k)) {
      CombineSums(Sum(n.conns, Left(k)), SumOver(n.conns, s, k), n.sumClosed, part, k);
    }
  }

  lemma {:induction false} WholeTotal(n: Net, sum: TcpInfos.TcpInfo)
    requires NetInv(n)
    requires ClosedPlus(sum, n, n.active)
    ensures CountsAll(sum, n)
  {
    forall k ensures Get(k, sum) == Wrap(k, Total(n, k)) { TotalSplits(n.conns, n.active, k); }
  }

  ghost predicate SumsTo(sum: TcpInfos.TcpInfo, conns: seq<Conn>, s: set<nat>) {
    forall k :: Get(k, sum) == Wrap(k, SumOver(conns, s, k))
  }

  lemma {:induction false} NothingSummed(conns: seq<Conn>)
    ensures SumsTo(ZERO_INFO, conns, {})
  {
    forall k ensures Get(k, ZERO_INFO) == Wrap(k, SumOver(conns, {}, k)) {
      SumOverNone(conns, k);
    }
  }

  lemma {:induction false} CountOne(conns: seq<Conn>, seen: set<nat>, c: nat, sum: TcpInfos.TcpInfo)
    requires c < |conns| && c !in seen && SumsTo(sum, conns, seen)
    ensures SumsTo(AddTcpInfo(sum, conns[c].info), conns, seen + {c})
  {
    forall k ensures Get(k, AddTcpInfo(sum, conns[c].info)) == Wrap(k, SumOver(conns, seen + {c}, k)) {
      SumOverTake(conns, seen + {c}, c, k);
      assert seen + {c} - {c} == seen;
      AddStands(sum, SumOver(conns, seen, k), conns[c].info, k);
    }
  }

  lemma {:induction false} CombineSums(x: int, y: int, a: TcpInfos.TcpInfo, b: TcpInfos.TcpInfo, k: Counter)
    requires Get(k, a) == Wrap(k, x) && Get(k, b) == Wrap(k, y)
    ensures Get(k, AddTcpInfo(a, b)) == Wrap(k, x + y)
  {
    WrapAdd(x, Wrap(k, y), k);
    WrapAdd(y, x, k);
  }

  lemma {:induction false} AddZero(a: TcpInfos.TcpInfo)
    ensures AddTcpInfo(a, ZERO_INFO) == a
  {
  }
}
