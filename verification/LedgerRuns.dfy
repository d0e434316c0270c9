/** The ledger inside the scheduler: every run of the whole, seen from the
    connections, is a run of the ledger. */
module LedgerRuns {
  import opened Sums
  import opened TcpInfos
  import opened Ledger
  import opened Totals
  import opened SocketHistories
  import opened Requests
  import opened Lifecycle
  import opened Scheduler
  import opened Invariants

  /** What the connections see of an event: a store or an application of the pace,
      or the event itself when it is one of theirs. */
  function NetEventOf(s: State, e: Event): seq<NetEvent> {
    match e
    case Req(i, a) => if i < |s.reqs| then NetEventOfPhase(s.reqs[i].phase, a) else []
    case Network(ne) => [ne]
    case _ => []
  }

  /** A run as the connections see it. */
  function NetEvents(c: Conf, events: seq<Event>): seq<NetEvent> {
    if events == [] then []
    else var prefix := events[..|events| - 1];
         NetEvents(c, prefix)
         + if Run(c, prefix).Some? then NetEventOf(Run(c, prefix).value, events[|events| - 1]) else []
  }

  /** Whatever requests do, the connections go through the run of exactly the events
      they see. */
  lemma {:induction false} RunIsLedgerRun(c: Conf, events: seq<Event>)
    requires Run(c, events).Some?
    ensures NetRun(Init(c).sh.tracker, NetEvents(c, events)) == Some(Run(c, events).value.sh.tracker)
  {
    hide Step, NetStep, Init, NetEventOf;
    if events != [] {
      var prefix, e := events[..|events| - 1], events[|events| - 1];
      RunIsLedgerRun(c, prefix);
      StepIsLedgerStep(c, Run(c, prefix).value, e);
      var before, seen := NetEvents(c, prefix), NetEventOf(Run(c, prefix).value, e);
      if seen != [] {
        assert (before + seen)[..|before|] == before;
      } else {
        assert before + seen == before;
      }
    }
  }

  lemma {:induction false} StepIsLedgerStep(c: Conf, s: State, e: Event)
    requires Step(c, s, e).Some?
    ensures var seen := NetEventOf(s, e);
            && |seen| <= 1
            && Some(Step(c, s, e).value.sh.tracker)
               == if seen == [] then Some(s.sh.tracker) else NetStep(s.sh.tracker, seen[0])
  {
    hide Act, NetStep;
    match e
    case Req(i, a) => ActIsLedgerStep(c, s.now, s.sh, s.reqs[i], a);
    case _ =>
  }

  /** In every state of every run: registered connections are the active and the
      closed ones, and no active one, which SetPacingRate and TcpInfo visit, has a
      closed descriptor. */
  lemma {:induction false} ActiveAreOpen(c: Conf, events: seq<Event>)
    requires Run(c, events).Some?
    ensures var n := Run(c, events).value.sh.tracker.net;
            && (|n.active| + n.closed) % TcpInfos.TWO_TO_64 == |n.conns| % TcpInfos.TWO_TO_64
            && (forall k :: k in n.active ==> k < |n.conns| && n.conns[k].fdOpen)
            && n.closed == Sum(n.conns, IsMarked) % TcpInfos.TWO_TO_64
  {
    RunLedger(c, events);
    LedgerPartition(Run(c, events).value.sh.tracker);
    hide Run, ClosedSum, ClosersInv;
  }

  /** In every run each connection carries the pace of the last successful setsockopt
      among those the events made on it, and counts as failed exactly when the last one failed. */
  lemma {:induction false} RunPaceIsLastSet(c: Conf, events: seq<Event>, i: nat)
    requires Run(c, events).Some? && i < |Run(c, events).value.sh.tracker.net.conns|
    ensures var conn := Run(c, events).value.sh.tracker.net.conns[i];
            var calls := Calls(Init(c).sh.tracker, NetEvents(c, events), i);
            conn.pace == KernelPace(calls) && conn.setOk == LastOk(calls)
  {
    StartsEmpty(c);
    RunIsLedgerRun(c, events);
    PaceIsLastSet(Init(c).sh.tracker, NetEvents(c, events), i);
    hide Run, Init, LedgerInv, KernelPace, LastOk;
  }

  lemma {:induction false} StartsEmpty(c: Conf)
    ensures LedgerInv(Init(c).sh.tracker) && Init(c).sh.tracker.net.conns == []
  {
    RunLedger(c, []);
  }

  // ----- what TcpInfo reports along a run

  /** In every run the report adds up, modulo its word, one value for each connection
      ever dialed: the one markClosed read, or the kernel's current one. */
  lemma {:induction false} RunReportIsHistory(c: Conf, events: seq<Event>, k: Counter)
    requires Run(c, events).Some?
    ensures var n := Run(c, events).value.sh.tracker.net;
            Reported(n, k) == Wrap(k, Contributions(Init(c).sh.tracker, NetEvents(c, events), k, |n.conns|))
  {
    StartsEmpty(c);
    RunIsLedgerRun(c, events);
    ReportIsHistory(Init(c).sh.tracker, NetEvents(c, events), k);
    hide Run, Init, LedgerInv, Reported, Contributions;
  }

  /** After the first m events no connection's counter k falls, and no getsockopt of markClosed fails. */
  predicate GrowingSince(c: Conf, events: seq<Event>, m: nat, k: Counter) {
    |events| > m ==>
      var prefix := events[..|events| - 1];
      && GrowingSince(c, prefix, m, k)
      && (Run(c, prefix).Some? ==>
            var s := Run(c, prefix).value;
            forall e :: e in NetEventOf(s, events[|events| - 1]) ==> Growing(s.sh.tracker, e, k))
  }

  lemma {:induction false} RunTotalGrows(c: Conf, events: seq<Event>, m: nat, k: Counter)
    requires m <= |events| && Run(c, events).Some? && GrowingSince(c, events, m, k)
    ensures Run(c, events[..m]).Some?
    ensures Total(Run(c, events[..m]).value.sh.tracker.net, k) <= Total(Run(c, events).value.sh.tracker.net, k)
  {
    hide Step, NetStep, LedgerInv, Growing, Total, NetEventOf;
    if m == |events| {
      assert events[..m] == events;
    } else {
      var prefix, e := events[..|events| - 1], events[|events| - 1];
      assert prefix[..m] == events[..m];
      RunTotalGrows(c, prefix, m, k);
      RunLedger(c, prefix);
      var s := Run(c, prefix).value;
      StepIsLedgerStep(c, s, e);
      var seen := NetEventOf(s, e);
      if seen != [] {
        assert seen[0] in seen;
        StepGrows(s.sh.tracker, seen[0], k);
      }
    }
  }

  /** In every run a counter that only grows on each connection never decreases between
      two calls of TcpInfo, however requests, dials and closes interleave, while the
      true total fits its word. */
  lemma {:induction false} RunReportNeverDecreases(c: Conf, events: seq<Event>, m: nat, k: Counter)
    requires m <= |events| && Run(c, events).Some? && GrowingSince(c, events, m, k)
    requires Total(Run(c, events).value.sh.tracker.net, k) < Modulus(k)
    ensures Run(c, events[..m]).Some?
    ensures Reported(Run(c, events[..m]).value.sh.tracker.net, k) <= Reported(Run(c, events).value.sh.tracker.net, k)
  {
    RunTotalGrows(c, events, m, k);
    RunLedger(c, events[..m]);
    RunLedger(c, events);
    ReportedIsTotal(Run(c, events[..m]).value.sh.tracker.net, k);
    ReportedIsTotal(Run(c, events).value.sh.tracker.net, k);
    hide Run, Total, NetInv, GrowingSince;
  }
}
