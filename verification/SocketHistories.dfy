/** What a run has done to each connection, read off its events alone: the setsockopt
    calls made on it, and the values of the kernel's counters. */
module SocketHistories {
  import opened Sums
  import opened TcpInfos
  import opened Ledger
  import opened Totals

  // ----- setsockopt

  datatype Sockopt = Sockopt(rate: nat, ok: bool)

  /** The call an event makes on connection c: SetPacingRate calls it on every active
      connection, a dial on its own. */
  function CallOn(t: Tracker, e: NetEvent, c: nat): (calls: seq<Sockopt>)
    ensures |calls| <= 1
  {
    match e
    case ApplyPace(rate, failed) => if c in t.net.active then [Sockopt(rate, c !in failed)] else []
    case DialTail(k, ok) =>
      if k == c < |t.net.conns| && t.net.conns[c].stage.Loaded? then [Sockopt(t.net.conns[c].stage.rate, ok)] else []
    case _ => []
  }

  function Calls(t: Tracker, events: seq<NetEvent>, c: nat): seq<Sockopt> {
    if events == [] then []
    else var prefix := events[..|events| - 1];
         Calls(t, prefix, c)
         + if NetRun(t, prefix).Some? then CallOn(NetRun(t, prefix).value, events[|events| - 1], c) else []
  }

  /** The pace the kernel holds after the calls: that of the last one that succeeded. */
  function KernelPace(calls: seq<Sockopt>): nat {
    if calls == [] then 0
    else var last := calls[|calls| - 1];
         if last.ok then last.rate else KernelPace(calls[..|calls| - 1])
  }

  /** The last call, if any, succeeded. */
  predicate LastOk(calls: seq<Sockopt>) {
    calls != [] ==> calls[|calls| - 1].ok
  }

  lemma {:induction false} StepSets(t: Tracker, e: NetEvent, c: nat)
    requires NetStep(t, e).Some? && c < |t.net.conns|
    ensures var calls := CallOn(t, e, c);
            var conn, conn' := t.net.conns[c], NetStep(t, e).value.net.conns[c];
            && c < |NetStep(t, e).value.net.conns|
            && conn'.pace == (if calls != [] && calls[0].ok then calls[0].rate else conn.pace)
            && conn'.setOk == (if calls != [] then calls[0].ok else conn.setOk)
  {
    hide AddTcpInfo;
    if e.DialTail? && e.c == c { DialPaces(t.net, c, e.ok); }
  }

  lemma {:induction false} NewSets(t: Tracker, e: NetEvent, c: nat)
    requires NetStep(t, e).Some? && |t.net.conns| <= c < |NetStep(t, e).value.net.conns|
    ensures e.Dial? && c == |t.net.conns|
    ensures var conn := NetStep(t, e).value.net.conns[c];
            conn.pace == 0 && conn.setOk && conn.info == e.info && !conn.marked
  {
    hide AddTcpInfo;
  }

  /** In every run a connection carries the pace of the last successful setsockopt on it,
      and is marked as failed exactly when the last one failed. */
  lemma {:induction false} PaceIsLastSet(t: Tracker, events: seq<NetEvent>, c: nat)
    requires LedgerInv(t) && t.net.conns == [] && NetRun(t, events).Some?
    ensures var n := NetRun(t, events).value.net;
            var calls := Calls(t, events, c);
            if c < |n.conns| then n.conns[c].pace == KernelPace(calls) && n.conns[c].setOk == LastOk(calls)
            else calls == []
  {
    if events != [] {
      var prefix, e := events[..|events| - 1], events[|events| - 1];
      var t1 := NetRun(t, prefix).value;
      PaceIsLastSet(t, prefix, c);
      NetRunKeeps(t, prefix);
      OneMoreCall(Calls(t, prefix, c), CallOn(t1, e, c));
      if c < |t1.net.conns| {
        StepSets(t1, e, c);
      } else {
        NothingSet(t1, e, c);
        if c < |NetStep(t1, e).value.net.conns| { NewSets(t1, e, c); }
      }
      hide NetStep, LedgerInv, CallOn, KernelPace, LastOk;
    }
  }

  lemma {:induction false} OneMoreCall(calls: seq<Sockopt>, more: seq<Sockopt>)
    requires |more| <= 1
    ensures KernelPace(calls + more) == if more != [] && more[0].ok then more[0].rate else KernelPace(calls)
    ensures LastOk(calls + more) == if more != [] then more[0].ok else LastOk(calls)
    ensures KernelPace([]) == 0 && LastOk([])
  {
    if more == [] {
      assert calls + more == calls;
    } else {
      assert (calls + more)[..|calls|] == calls;
    }
  }

  lemma {:induction false} NothingSet(t: Tracker, e: NetEvent, c: nat)
    requires LedgerInv(t) && c >= |t.net.conns|
    ensures CallOn(t, e, c) == []
  {
    hide ClosedSum, ClosersInv;
  }

  // ----- TCP_INFO

  /** The counters of connection c as the kernel last set them. */
  function InfoOf(t: Tracker, events: seq<NetEvent>, c: nat): Option<TcpInfo> {
    if events == [] then None
    else
      var prefix, e := events[..|events| - 1], events[|events| - 1];
      if e.Kernel? && e.c == c then Some(e.info)
      else if e.Dial? && NetRun(t, prefix).Some? && |NetRun(t, prefix).value.net.conns| == c then Some(e.info)
      else InfoOf(t, prefix, c)
  }

  /** What markClosed read of connection c, if it has run: its counters then, or none
      when getsockopt failed. */
  function FinalOf(t: Tracker, events: seq<NetEvent>, c: nat): Option<TcpInfo> {
    if events == [] then None
    else
      var prefix, e := events[..|events| - 1], events[|events| - 1];
      if e.CloseStep? && NetRun(t, prefix).Some? && e.j < |NetRun(t, prefix).value.closers|
         && NetRun(t, prefix).value.closers[e.j] == Closer(c, InOnce)
      then Some(if e.readable && InfoOf(t, prefix, c).Some? then InfoOf(t, prefix, c).value else ZERO_INFO)
      else FinalOf(t, prefix, c)
  }

  lemma {:induction false} StepReads(t: Tracker, e: NetEvent, c: nat)
    requires LedgerInv(t) && NetStep(t, e).Some? && c < |t.net.conns|
    ensures c < |NetStep(t, e).value.net.conns|
    ensures var conn, conn' := t.net.conns[c], NetStep(t, e).value.net.conns[c];
            && conn'.info == (if e.Kernel? && e.c == c then e.info else conn.info)
            && if e.CloseStep? && t.closers[e.j] == Closer(c, InOnce) then
                 !conn.marked && conn'.marked && conn'.final == if e.readable then conn.info else ZERO_INFO
               else conn'.marked == conn.marked && conn'.final == conn.final
  {
    hide AddTcpInfo, ClosedSum;
    if e.CloseStep? { assert CloserOk(t.net, t.closers[e.j]); }
  }

  ghost predicate Read(t: Tracker, events: seq<NetEvent>, c: nat)
    requires NetRun(t, events).Some?
  {
    var n := NetRun(t, events).value.net;
    if c < |n.conns| then
      && InfoOf(t, events, c) == Some(n.conns[c].info)
      && FinalOf(t, events, c) == if n.conns[c].marked then Some(n.conns[c].final) else None
    else InfoOf(t, events, c).None? && FinalOf(t, events, c).None?
  }

  lemma {:induction false} RunReads(t: Tracker, events: seq<NetEvent>, c: nat)
    requires LedgerInv(t) && t.net.conns == [] && NetRun(t, events).Some?
    ensures Read(t, events, c)
  {
    if events != [] {
      var prefix, e := events[..|events| - 1], events[|events| - 1];
      var t1 := NetRun(t, prefix).value;
      RunReads(t, prefix, c);
      NetRunKeeps(t, prefix);
      if c < |t1.net.conns| {
        StepReads(t1, e, c);
      } else {
        NothingRead(t1, e, c);
        if c < |NetStep(t1, e).value.net.conns| { NewSets(t1, e, c); }
      }
      hide NetStep, LedgerInv;
    }
  }

  lemma {:induction false} NothingRead(t: Tracker, e: NetEvent, c: nat)
    requires LedgerInv(t) && NetStep(t, e).Some? && c >= |t.net.conns|
    ensures !(e.Kernel? && e.c == c) && !(e.CloseStep? && t.closers[e.j].conn == c)
    ensures e.Dial? && |t.net.conns| == c <==> c < |NetStep(t, e).value.net.conns|
  {
    hide AddTcpInfo, ClosedSum;
  }

  /** What connection c adds to a counter: its value when markClosed read it, else the current one. */
  function Contribution(t: Tracker, events: seq<NetEvent>, k: Counter, c: nat): int {
    if FinalOf(t, events, c).Some? then Get(k, FinalOf(t, events, c).value)
    else if InfoOf(t, events, c).Some? then Get(k, InfoOf(t, events, c).value)
    else 0
  }

  function Contributions(t: Tracker, events: seq<NetEvent>, k: Counter, m: nat): int {
    if m == 0 then 0 else Contributions(t, events, k, m - 1) + Contribution(t, events, k, m - 1)
  }

  /** In every run the report adds up, modulo its word, one value for each connection
      ever dialed: the one markClosed read, or the kernel's current one. */
  lemma {:induction false} ReportIsHistory(t: Tracker, events: seq<NetEvent>, k: Counter)
    requires LedgerInv(t) && t.net.conns == [] && NetRun(t, events).Some?
    ensures var n := NetRun(t, events).value.net;
            Reported(n, k) == Wrap(k, Contributions(t, events, k, |n.conns|))
  {
    var n := NetRun(t, events).value.net;
    NetRunKeeps(t, events);
    ReportedIsTotal(n, k);
    SharesAreContributions(t, events, k, |n.conns|);
    assert n.conns[..|n.conns|] == n.conns;
    hide Contributions, Reported, LedgerInv;
  }

  lemma {:induction false} SharesAreContributions(t: Tracker, events: seq<NetEvent>, k: Counter, m: nat)
    requires LedgerInv(t) && t.net.conns == [] && NetRun(t, events).Some?
    requires m <= |NetRun(t, events).value.net.conns|
    ensures Sum(NetRun(t, events).value.net.conns[..m], Share(k)) == Contributions(t, events, k, m)
  {
    if m > 0 {
      var conns := NetRun(t, events).value.net.conns;
      SharesAreContributions(t, events, k, m - 1);
      RunReads(t, events, m - 1);
      assert conns[..m][..m - 1] == conns[..m - 1];
    }
    hide LedgerInv, InfoOf, FinalOf, NetRun;
  }
}
