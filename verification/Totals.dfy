/** What TcpInfo reports: every registered connection counted exactly once. */
module Totals {
  import opened Sums
  import opened TcpInfos
  import opened Ledger

  /** The counter summed over all connections ever registered, without wrap-around. */
  function Total(n: Net, k: Counter): int {
    Sum(n.conns, Share(k))
  }

  /** The current counter summed over the connections whose number is in s. */
  function SumOver(conns: seq<Conn>, s: set<nat>, k: Counter): int {
    if conns == [] then 0
    else SumOver(conns[..|conns| - 1], s, k)
         + (if |conns| - 1 in s then Get(k, conns[|conns| - 1].info) else 0)
  }

  /** Any one member may be counted first: the sum does not depend on an order. */
  lemma {:induction false} SumOverTake(conns: seq<Conn>, s: set<nat>, c: nat, k: Counter)
    requires c in s && c < |conns|
    ensures SumOver(conns, s, k) == Get(k, conns[c].info) + SumOver(conns, s - {c}, k)
  {
    var m := |conns| - 1;
    if c == m {
      SumOverIgnores(conns[..m], s, s - {c}, k);
    } else {
      SumOverTake(conns[..m], s, c, k);
    }
  }

  lemma {:induction false} SumOverIgnores(conns: seq<Conn>, s: set<nat>, s': set<nat>, k: Counter)
    requires forall i :: 0 <= i < |conns| ==> (i in s <==> i in s')
    ensures SumOver(conns, s, k) == SumOver(conns, s', k)
  {
    if conns != [] { SumOverIgnores(conns[..|conns| - 1], s, s', k); }
  }

  lemma {:induction false} SumOverNone(conns: seq<Conn>, k: Counter)
    ensures SumOver(conns, {}, k) == 0
  {
    if conns != [] { SumOverNone(conns[..|conns| - 1], k); }
  }

  /** The closed sum and the active sum are together the sum over all connections. */
  lemma {:induction false} TotalSplits(conns: seq<Conn>, active: set<nat>, k: Counter)
    requires forall i :: 0 <= i < |conns| ==> (i in active <==> !conns[i].marked)
    ensures Sum(conns, Left(k)) + SumOver(conns, active, k) == Sum(conns, Share(k))
  {
    if conns != [] {
      var rest := conns[..|conns| - 1];
      assert forall i :: 0 <= i < |rest| ==> rest[i] == conns[i];
      TotalSplits(rest, active, k);
    }
  }

  /** An event that does not lower counter k of its connection and, when it runs
      markClosed, is one whose getsockopt succeeds. What the other counters do is free. */
  predicate Growing(t: Tracker, e: NetEvent, k: Counter) {
    && (e.Kernel? && e.c < |t.net.conns| ==> Get(k, t.net.conns[e.c].info) <= Get(k, e.info))
    && (e.CloseStep? && e.j < |t.closers| && t.closers[e.j].place.InOnce? ==> e.readable)
  }

  lemma {:induction false} StepGrows(t: Tracker, e: NetEvent, k: Counter)
    requires LedgerInv(t) && NetStep(t, e).Some? && Growing(t, e, k)
    ensures Total(t.net, k) <= Total(NetStep(t, e).value.net, k)
  {
    if e.CloseStep? {
      CloseGrows(t, e.j, e.readable, k);
    } else {
      PlainStepGrows(t, e, k);
    }
  }

  lemma {:induction false} PlainStepGrows(t: Tracker, e: NetEvent, k: Counter)
    requires !e.CloseStep? && NetStep(t, e).Some? && Growing(t, e, k)
    ensures Total(t.net, k) <= Total(NetStep(t, e).value.net, k)
  {
    var n := t.net;
    match e
    case StorePace(rate) =>
    case ApplyPace(rate, failed) => PacingKeepsTotal(n, rate, failed, k);
    case Dial(info) => DialGrows(n, info, k);
    case DialTail(c, ok) => DialTailGrows(n, c, ok, k);
    case Kernel(c, info) => KernelGrows(n, c, info, k);
    case CallClose(c) =>
  }

  lemma {:induction false} PacingKeepsTotal(n: Net, rate: nat, failed: set<nat>, k: Counter)
    ensures Total(n, k) == Total(SetActive(n, rate, failed), k)
  {
    SumPointwise(n.conns, SetActive(n, rate, failed).conns, Share(k));
  }

  lemma {:induction false} KernelGrows(n: Net, c: nat, info: TcpInfo, k: Counter)
    requires c < |n.conns| && Get(k, n.conns[c].info) <= Get(k, info)
    ensures Total(n, k) <= Total(SetConn(n, c, n.conns[c].(info := info)), k)
  {
    ReplaceGrows(n, c, n.conns[c].(info := info), k);
  }

  lemma {:induction false} DialTailGrows(n: Net, c: nat, ok: bool, k: Counter)
    requires c < |n.conns| && DialStep(n, c, ok).Some?
    ensures Total(n, k) <= Total(DialStep(n, c, ok).value, k)
  {
    ReplaceGrows(n, c, DialStep(n, c, ok).value.conns[c], k);
  }

  lemma {:induction false} DialGrows(n: Net, info: TcpInfo, k: Counter)
    ensures Total(n, k) <= Total(Register(n, info), k)
  {
    SumAppend(n.conns, Register(n, info).conns[|n.conns|], Share(k));
  }

  lemma {:induction false} ReplaceGrows(n: Net, c: nat, conn: Conn, k: Counter)
    requires c < |n.conns| && Share(k)(n.conns[c]) <= Share(k)(conn)
    ensures Total(n, k) <= Total(SetConn(n, c, conn), k)
  {
    SumUpdate(n.conns, c, conn, Share(k));
  }

  /** Close hands the current value of a connection over to the closed sum. */
  lemma {:induction false} CloseGrows(t: Tracker, j: nat, readable: bool, k: Counter)
    requires LedgerInv(t) && NetStep(t, CloseStep(j, readable)).Some? && Growing(t, CloseStep(j, readable), k)
    ensures Total(t.net, k) <= Total(NetStep(t, CloseStep(j, readable)).value.net, k)
  {
    var n := t.net;
    var c := t.closers[j].conn;
    var conn := n.conns[c];
    assert CloserOk(n, t.closers[j]);
    match t.closers[j].place
    case Calling =>
      if conn.once.Idle? { ReplaceGrows(n, c, conn.(once := Running), k); }
    case InOnce =>
      ReplaceGrows(n, c, conn.(marked := true, final := conn.info), k);
      assert MarkClosed(n, c, true).conns == SetConn(n, c, conn.(marked := true, final := conn.info)).conns;
    case Marked => ReplaceGrows(n, c, conn.(once := Done), k);
    case PastOnce => ReplaceGrows(n, c, conn.(fdOpen := false), k);
  }

  predicate GrowingRun(t: Tracker, events: seq<NetEvent>, k: Counter) {
    events != [] ==>
      var prefix := events[..|events| - 1];
      && GrowingRun(t, prefix, k)
      && (NetRun(t, prefix).Some? ==> Growing(NetRun(t, prefix).value, events[|events| - 1], k))
  }

  lemma {:induction false} RunGrows(t: Tracker, events: seq<NetEvent>, k: Counter)
    requires LedgerInv(t) && NetRun(t, events).Some? && GrowingRun(t, events, k)
    ensures Total(t.net, k) <= Total(NetRun(t, events).value.net, k)
  {
    if events != [] {
      var prefix := events[..|events| - 1];
      RunGrows(t, prefix, k);
      NetRunKeeps(t, prefix);
      StepGrows(NetRun(t, prefix).value, events[|events| - 1], k);
    }
  }

  /** The reported counter of a ledger, as TcpInfo computes it. */
  function Reported(n: Net, k: Counter): int {
    Wrap(k, Sum(n.conns, Left(k)) + SumOver(n.conns, n.active, k))
  }

  lemma {:induction false} ReportedIsTotal(n: Net, k: Counter)
    requires NetInv(n)
    ensures Reported(n, k) == Wrap(k, Total(n, k))
    ensures 0 <= Total(n, k)
  {
    TotalSplits(n.conns, n.active, k);
    ShareNonNegative(n.conns, k);
  }

  lemma {:induction false} ShareNonNegative(conns: seq<Conn>, k: Counter)
    ensures 0 <= Sum(conns, Share(k))
  {
    assert forall i :: 0 <= i < |conns| ==> Share(k)(conns[i]) >= 0;
    SumBoundsTerms(conns, Share(k));
  }

  /** A counter that only grows on each connection never decreases in the report,
      between two calls, while the true total fits its word. */
  lemma {:induction false} ReportedNeverDecreases(t: Tracker, events: seq<NetEvent>, k: Counter)
    requires LedgerInv(t) && NetRun(t, events).Some? && GrowingRun(t, events, k)
    requires Total(NetRun(t, events).value.net, k) < Modulus(k)
    ensures Reported(t.net, k) <= Reported(NetRun(t, events).value.net, k)
    ensures Reported(t.net, k) == Total(t.net, k)
  {
    var t' := NetRun(t, events).value;
    RunGrows(t, events, k);
    NetRunKeeps(t, events);
    ReportedIsTotal(t.net, k);
    ReportedIsTotal(t'.net, k);
  }
}
