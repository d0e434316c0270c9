/** The connection ledger of ConnTracker as a labelled transition system: dialing,
    pacing and closing, each split into the steps other goroutines can see. */
module Ledger {
  import opened Sums
  import opened TcpInfos

  /** How far the tail of DialContext has come for a connection it registered. */
  datatype Stage =
    | Registered         // in the active set
    | Checked            // PacingRate() > 0 was seen
    | Loaded(rate: nat)  // PacingRate() was read again, setsockopt is next
    | Ready              // DialContext has returned

  /** sync.Once: Do returns to nobody before the first call has finished. */
  datatype Once = Idle | Running | Done

  datatype Conn = Conn(
    stage: Stage,
    pace: nat,        // SO_MAX_PACING_RATE, 0 while it was never set
    setOk: bool,      // the last setsockopt on it succeeded
    info: TcpInfo,    // the kernel's counters
    once: Once,
    marked: bool,     // markClosed has run
    final: TcpInfo,   // what markClosed added to the sum
    fdOpen: bool)

  datatype Net = Net(
    conns: seq<Conn>,     // every connection ever registered
    active: set<nat>,
    closed: uint64,
    sumClosed: TcpInfo,
    pace: nat)            // uploadPace

  /** A goroutine inside TrackedConn.Close. */
  datatype Place = Calling | InOnce | Marked | PastOnce | Returned
  datatype Closer = Closer(conn: nat, place: Place)

  datatype Tracker = Tracker(net: Net, closers: seq<Closer>)

  const EMPTY_NET := Net([], {}, 0, ZERO_INFO, 0)

  // ----- the operations

  function Paced(c: Conn, rate: nat, ok: bool): Conn {
    if ok then c.(pace := rate, setOk := true) else c.(setOk := false)
  }

  function Store(n: Net, rate: nat): Net {
    n.(pace := rate)
  }

  /** The loop of SetPacingRate under the lock; setsockopt fails on the connections in failed. */
  function SetActive(n: Net, rate: nat, failed: set<nat>): (n': Net)
    ensures |n'.conns| == |n.conns|
    ensures n' == n.(conns := n'.conns)
    ensures forall i :: 0 <= i < |n.conns| ==>
              n'.conns[i] == if i in n.active then Paced(n.conns[i], rate, i !in failed) else n.conns[i]
  {
    n.(conns := seq(|n.conns|, i requires 0 <= i < |n.conns| =>
                               if i in n.active then Paced(n.conns[i], rate, i !in failed) else n.conns[i]))
  }

  /** SetPacingRate undisturbed. */
  function SetPacingRate(n: Net, rate: nat, failed: set<nat>): Net {
    if rate == n.pace then n else SetActive(Store(n, rate), rate, failed)
  }

  function Register(n: Net, info: TcpInfo): Net {
    n.(conns := n.conns + [Conn(Registered, 0, true, info, Idle, false, ZERO_INFO, true)],
       active := n.active + {|n.conns|})
  }

  /** The next step of DialContext after registering connection c. */
  function DialStep(n: Net, c: nat, ok: bool): Option<Net>
    requires c < |n.conns|
  {
    match n.conns[c].stage
    case Registered => Some(SetConn(n, c, n.conns[c].(stage := if n.pace > 0 then Checked else Ready)))
    case Checked => Some(SetConn(n, c, n.conns[c].(stage := Loaded(n.pace))))
    case Loaded(rate) => Some(SetConn(n, c, Paced(n.conns[c], rate, ok).(stage := Ready)))
    case Ready => None
  }

  function SetConn(n: Net, c: nat, conn: Conn): Net
    requires c < |n.conns|
  {
    n.(conns := n.conns[c := conn])
  }

  /** markClosed, all of it under the lock; getsockopt fails unless readable. */
  function MarkClosed(n: Net, c: nat, readable: bool): Net
    requires c < |n.conns|
  {
    var final := if readable then n.conns[c].info else ZERO_INFO;
    SetConn(n, c, n.conns[c].(marked := true, final := final)).(
      sumClosed := AddTcpInfo(n.sumClosed, final),
      active := n.active - {c},
      closed := Add64(n.closed, 1))
  }

  /** The tail of DialContext undisturbed. */
  function FinishDial(n: Net, c: nat, ok: bool): Net
    requires c < |n.conns|
  {
    SetConn(n, c, if n.pace > 0 then Paced(n.conns[c], n.pace, ok).(stage := Ready)
                  else n.conns[c].(stage := Ready))
  }

  function CloseFd(n: Net, c: nat): Net
    requires c < |n.conns|
  {
    SetConn(n, c, n.conns[c].(fdOpen := false))
  }

  /** A first Close up to the end of its Once. */
  function CloseOnce(n: Net, c: nat, readable: bool): Net
    requires c < |n.conns|
  {
    var marked := MarkClosed(SetConn(n, c, n.conns[c].(once := Running)), c, readable);
    SetConn(marked, c, marked.conns[c].(once := Done))
  }

  /** TrackedConn.Close undisturbed, whether or not it is the first. */
  function CloseWhole(n: Net, c: nat, readable: bool): Net
    requires c < |n.conns|
  {
    CloseFd(if n.conns[c].once.Idle? then CloseOnce(n, c, readable) else n, c)
  }

  // ----- the transition system

  datatype NetEvent =
    | StorePace(rate: nat)
    | ApplyPace(rate: nat, failed: set<nat>)
    | Dial(info: TcpInfo)
    | DialTail(c: nat, ok: bool)
    | Kernel(c: nat, info: TcpInfo)
    | CallClose(c: nat)
    | CloseStep(j: nat, readable: bool)

  /** None when the event cannot happen: a caller of Close must hold the
      connection DialContext returned, and Once makes later callers wait. */
  function NetStep(t: Tracker, e: NetEvent): Option<Tracker> {
    var n := t.net;
    match e
    case StorePace(rate) => Some(t.(net := Store(n, rate)))
    case ApplyPace(rate, failed) => Some(t.(net := SetActive(n, rate, failed)))
    case Dial(info) => Some(t.(net := Register(n, info)))
    case DialTail(c, ok) =>
      if c >= |n.conns| then None
      else var n' := DialStep(n, c, ok);
           if n'.None? then None else Some(t.(net := n'.value))
    case Kernel(c, info) =>
      if c >= |n.conns| || !n.conns[c].fdOpen then None
      else Some(t.(net := SetConn(n, c, n.conns[c].(info := info))))
    case CallClose(c) =>
      if c >= |n.conns| || !n.conns[c].stage.Ready? then None
      else Some(t.(closers := t.closers + [Closer(c, Calling)]))
    case CloseStep(j, readable) =>
      if j >= |t.closers| || t.closers[j].conn >= |n.conns| then None else CloserMove(t, j, readable)
  }

  function CloserMove(t: Tracker, j: nat, readable: bool): Option<Tracker>
    requires j < |t.closers| && t.closers[j].conn < |t.net.conns|
  {
    var n := t.net;
    var c := t.closers[j].conn;
    var conn := n.conns[c];
    match t.closers[j].place
    case Calling =>
      if conn.once.Idle? then Some(Tracker(SetConn(n, c, conn.(once := Running)), Moved(t, j, InOnce)))
      else if conn.once.Done? then Some(Tracker(n, Moved(t, j, PastOnce)))
      else None
    case InOnce => Some(Tracker(MarkClosed(n, c, readable), Moved(t, j, Marked)))
    case Marked => Some(Tracker(SetConn(n, c, conn.(once := Done)), Moved(t, j, PastOnce)))
    case PastOnce => Some(Tracker(SetConn(n, c, conn.(fdOpen := false)), Moved(t, j, Returned)))
    case Returned => None
  }

  function Moved(t: Tracker, j: nat, place: Place): seq<Closer>
    requires j < |t.closers|
  {
    t.closers[j := t.closers[j].(place := place)]
  }

  /** The state after the given events, if each could happen in its turn. */
  function NetRun(t: Tracker, events: seq<NetEvent>): Option<Tracker> {
    if events == [] then Some(t)
    else var before := NetRun(t, events[..|events| - 1]);
         if before.None? then None else NetStep(before.value, events[|events| - 1])
  }

  // ----- the invariant

  function IsMarked(c: Conn): int {
    if c.marked then 1 else 0
  }

  /** What connection c has left in the closed sum. */
  function Left(k: Counter): Conn -> int {
    (c: Conn) => if c.marked then Get(k, c.final) else 0
  }

  /** What connection c adds to the whole: its final value once closed, else its current one. */
  function Share(k: Counter): Conn -> int {
    (c: Conn) => if c.marked then Get(k, c.final) else Get(k, c.info)
  }

  ghost predicate ConnOk(c: Conn) {
    && (c.once.Idle? ==> !c.marked)
    && (c.once.Done? ==> c.marked)
    && (!c.once.Idle? ==> c.stage.Ready?)
    && (!c.fdOpen ==> c.marked)
  }

  /** Active and closed connections partition the registered ones, and the closed
      count and sum are those of the closed part. */
  ghost predicate NetInv(n: Net) {
    && (forall i :: 0 <= i < |n.conns| ==> ConnOk(n.conns[i]))
    && (forall i :: i in n.active <==> 0 <= i < |n.conns| && !n.conns[i].marked)
    && |n.active| + Sum(n.conns, IsMarked) == |n.conns|
    && n.closed == Sum(n.conns, IsMarked) % TWO_TO_64
    && ClosedSum(n)
  }

  ghost predicate ClosedSum(n: Net) {
    forall k :: Get(k, n.sumClosed) == Wrap(k, Sum(n.conns, Left(k)))
  }

  ghost predicate CloserOk(n: Net, g: Closer) {
    && g.conn < |n.conns|
    && n.conns[g.conn].stage.Ready?
    && (g.place.InOnce? ==> n.conns[g.conn].once.Running? && !n.conns[g.conn].marked)
    && (g.place.Marked? ==> n.conns[g.conn].once.Running? && n.conns[g.conn].marked)
    && (g.place.PastOnce? || g.place.Returned? ==> n.conns[g.conn].once.Done?)
    && (g.place.Returned? ==> !n.conns[g.conn].fdOpen)
  }

  predicate Inside(g: Closer) {
    g.place.InOnce? || g.place.Marked?
  }

  ghost predicate ClosersInv(t: Tracker) {
    && (forall j :: 0 <= j < |t.closers| ==> CloserOk(t.net, t.closers[j]))
    && (forall i, j :: 0 <= i < j < |t.closers| && Inside(t.closers[i]) && Inside(t.closers[j]) ==>
          t.closers[i].conn != t.closers[j].conn)
  }

  ghost predicate LedgerInv(t: Tracker) {
    NetInv(t.net) && ClosersInv(t)
  }

  // ----- preservation

  /** A connection list with the same contributions has the same closed sum. */
  lemma {:induction false} ClosedSumKeeps(n: Net, n': Net)
    requires ClosedSum(n) && n'.sumClosed == n.sumClosed
    requires |n'.conns| == |n.conns|
    requires forall i :: 0 <= i < |n.conns| ==>
               n'.conns[i].marked == n.conns[i].marked
               && (n.conns[i].marked ==> n'.conns[i].final == n.conns[i].final)
    ensures ClosedSum(n') && Sum(n'.conns, IsMarked) == Sum(n.conns, IsMarked)
  {
    SumPointwise(n.conns, n'.conns, IsMarked);
    forall k ensures Get(k, n'.sumClosed) == Wrap(k, Sum(n'.conns, Left(k))) {
      SumPointwise(n.conns, n'.conns, Left(k));
    }
  }

  /** Replacing a connection without marking it keeps the ledger. */
  lemma {:induction false} SetConnKeeps(n: Net, c: nat, conn: Conn)
    requires NetInv(n) && c < |n.conns| && ConnOk(conn)
    requires conn.marked == n.conns[c].marked && (conn.marked ==> conn.final == n.conns[c].final)
    ensures NetInv(SetConn(n, c, conn))
  {
    ClosedSumKeeps(n, SetConn(n, c, conn));
  }

  lemma {:induction false} SetActiveKeeps(n: Net, rate: nat, failed: set<nat>)
    requires NetInv(n)
    ensures NetInv(SetActive(n, rate, failed))
  {
    ClosedSumKeeps(n, SetActive(n, rate, failed));
  }

  lemma {:induction false} SumPointwise(s: seq<Conn>, t: seq<Conn>, f: Conn -> int)
    requires |s| == |t| && forall i :: 0 <= i < |s| ==> f(s[i]) == f(t[i])
    ensures Sum(s, f) == Sum(t, f)
  {
    if s != [] {
      var m := |s| - 1;
      assert forall i :: 0 <= i < m ==> s[..m][i] == s[i] && t[..m][i] == t[i];
      SumPointwise(s[..m], t[..m], f);
    }
  }

  lemma {:induction false} RegisterKeeps(n: Net, info: TcpInfo)
    requires NetInv(n)
    ensures NetInv(Register(n, info))
  {
    var n' := Register(n, info);
    SumAppend(n.conns, n'.conns[|n.conns|], IsMarked);
    assert |n'.active| == |n.active| + 1;
    RegisterSums(n, info);
    hide ClosedSum, ConnOk;
  }

  lemma {:induction false} RegisterSums(n: Net, info: TcpInfo)
    requires ClosedSum(n)
    ensures ClosedSum(Register(n, info))
    ensures forall i :: 0 <= i < |n.conns| + 1 ==>
              if i < |n.conns| then Register(n, info).conns[i] == n.conns[i] else ConnOk(Register(n, info).conns[i])
  {
    var n' := Register(n, info);
    forall k ensures Get(k, n'.sumClosed) == Wrap(k, Sum(n'.conns, Left(k))) {
      SumAppend(n.conns, n'.conns[|n.conns|], Left(k));
    }
    hide Wrap, Get;
  }

  /** markClosed moves one connection from the active part to the closed part. */
  lemma {:induction false} MarkClosedKeeps(n: Net, c: nat, readable: bool)
    requires NetInv(n) && c < |n.conns| && !n.conns[c].marked && n.conns[c].once.Running?
    ensures NetInv(MarkClosed(n, c, readable))
  {
    var n' := MarkClosed(n, c, readable);
    SumUpdate(n.conns, c, n'.conns[c], IsMarked);
    CountUp(Sum(n.conns, IsMarked), n.closed);
    assert c in n.active && |n'.active| == |n.active| - 1;
    MarkClosedSums(n, c, readable);
  }

  lemma {:induction false} CountUp(m: int, closed: uint64)
    requires closed == m % TWO_TO_64
    ensures Add64(closed, 1) == (m + 1) % TWO_TO_64
  {
  }

  lemma {:induction false} MarkClosedSums(n: Net, c: nat, readable: bool)
    requires ClosedSum(n) && c < |n.conns| && !n.conns[c].marked
    ensures ClosedSum(MarkClosed(n, c, readable))
  {
    var n' := MarkClosed(n, c, readable);
    forall k ensures Get(k, n'.sumClosed) == Wrap(k, Sum(n'.conns, Left(k))) {
      MarkClosedSum(n, c, readable, k);
    }
  }

  lemma {:induction false} MarkClosedSum(n: Net, c: nat, readable: bool, k: Counter)
    requires c < |n.conns| && !n.conns[c].marked
    requires Get(k, n.sumClosed) == Wrap(k, Sum(n.conns, Left(k)))
    ensures Get(k, MarkClosed(n, c, readable).sumClosed)
         == Wrap(k, Sum(MarkClosed(n, c, readable).conns, Left(k)))
  {
    var added := MarkClosed(n, c, readable).conns[c];
    SumUpdate(n.conns, c, added, Left(k));
    AddStands(n.sumClosed, Sum(n.conns, Left(k)), added.final, k);
  }

  lemma {:induction false} CloserMoveNet(t: Tracker, j: nat, readable: bool)
    requires LedgerInv(t) && j < |t.closers| && CloserMove(t, j, readable).Some?
    ensures NetInv(CloserMove(t, j, readable).value.net)
  {
    var c := t.closers[j].conn;
    var conn := t.net.conns[c];
    assert CloserOk(t.net, t.closers[j]);
    match t.closers[j].place
    case Calling =>
      if conn.once.Idle? { SetConnKeeps(t.net, c, conn.(once := Running)); }
    case InOnce => MarkClosedKeeps(t.net, c, readable);
    case Marked => SetConnKeeps(t.net, c, conn.(once := Done));
    case PastOnce => SetConnKeeps(t.net, c, conn.(fdOpen := false));
  }

  lemma {:induction false} CloserMoveClosers(t: Tracker, j: nat, readable: bool)
    requires ClosersInv(t) && (forall i :: 0 <= i < |t.net.conns| ==> ConnOk(t.net.conns[i]))
    requires j < |t.closers| && CloserMove(t, j, readable).Some?
    ensures ClosersInv(CloserMove(t, j, readable).value)
  {
    var t' := CloserMove(t, j, readable).value;
    var c := t.closers[j].conn;
    var place' := t'.closers[j].place;
    assert CloserOk(t.net, t.closers[j]);
    forall i | 0 <= i < |t.closers| ensures CloserOk(t'.net, t'.closers[i]) {
      assert CloserOk(t.net, t.closers[i]);
      assert i == j || t'.closers[i] == t.closers[i];
    }
  }

  /** Closers do not notice a step that leaves once, marks and descriptors alone. */
  lemma {:induction false} ClosersUnaware(t: Tracker, n: Net)
    requires ClosersInv(t) && |t.net.conns| <= |n.conns|
    requires forall i :: 0 <= i < |t.net.conns| ==>
               && n.conns[i].once == t.net.conns[i].once && n.conns[i].marked == t.net.conns[i].marked
               && n.conns[i].fdOpen == t.net.conns[i].fdOpen
               && (t.net.conns[i].stage.Ready? ==> n.conns[i].stage.Ready?)
    ensures ClosersInv(Tracker(n, t.closers))
  {
  }

  lemma {:induction false} NetStepKeeps(t: Tracker, e: NetEvent)
    requires LedgerInv(t) && NetStep(t, e).Some?
    ensures LedgerInv(NetStep(t, e).value)
  {
    match e
    case CloseStep(j, readable) =>
      CloserMoveNet(t, j, readable);
      CloserMoveClosers(t, j, readable);
    case CallClose(c) =>
    case _ => PlainStepKeeps(t, e);
  }

  lemma {:induction false} PlainStepKeeps(t: Tracker, e: NetEvent)
    requires LedgerInv(t) && NetStep(t, e).Some? && !e.CloseStep? && !e.CallClose?
    ensures LedgerInv(NetStep(t, e).value)
  {
    PlainStepKeepsNet(t, e);
    PlainStepKeepsClosers(t, e);
    hide NetStep, NetInv, ClosersInv;
  }

  lemma {:induction false} PlainStepKeepsNet(t: Tracker, e: NetEvent)
    requires NetInv(t.net) && NetStep(t, e).Some? && !e.CloseStep? && !e.CallClose?
    ensures NetInv(NetStep(t, e).value.net)
  {
    var n := NetStep(t, e).value.net;
    match e
    case StorePace(rate) =>
    case ApplyPace(rate, failed) => SetActiveKeeps(t.net, rate, failed);
    case Dial(info) => RegisterKeeps(t.net, info);
    case DialTail(c, ok) => SetConnKeeps(t.net, c, n.conns[c]);
    case Kernel(c, info) => SetConnKeeps(t.net, c, n.conns[c]);
  }

  lemma {:induction false} PlainStepKeepsClosers(t: Tracker, e: NetEvent)
    requires ClosersInv(t) && NetStep(t, e).Some? && !e.CloseStep? && !e.CallClose?
    ensures ClosersInv(NetStep(t, e).value)
  {
    ClosersUnaware(t, NetStep(t, e).value.net);
    hide ClosersInv;
  }

  /** In every state of every run, however dials, closes and pacing interleave,
      the ledger is consistent. */
  lemma {:induction false} NetRunKeeps(t: Tracker, events: seq<NetEvent>)
    requires LedgerInv(t) && NetRun(t, events).Some?
    ensures LedgerInv(NetRun(t, events).value)
  {
    if events != [] {
      var prefix := events[..|events| - 1];
      NetRunKeeps(t, prefix);
      NetStepKeeps(NetRun(t, prefix).value, events[|events| - 1]);
    }
  }

  lemma {:induction false} EmptyLedger(rate: nat)
    ensures LedgerInv(Tracker(Store(EMPTY_NET, rate), []))
  {
  }

  /** What the invariant says to a caller: registered connections are the active
      and the closed ones, none of the active ones has a closed descriptor, and a
      returned Close has closed exactly its own. */
  lemma {:induction false} LedgerPartition(t: Tracker)
    requires LedgerInv(t)
    ensures (|t.net.active| + t.net.closed) % TWO_TO_64 == |t.net.conns| % TWO_TO_64
    ensures forall c :: c in t.net.active ==> c < |t.net.conns| && t.net.conns[c].fdOpen
    ensures forall j :: 0 <= j < |t.closers| && t.closers[j].place.Returned? ==>
              !t.net.conns[t.closers[j].conn].fdOpen && t.closers[j].conn !in t.net.active
    ensures forall rate, failed, i :: 0 <= i < |t.net.conns| && !t.net.conns[i].fdOpen ==>
              SetActive(t.net, rate, failed).conns[i] == t.net.conns[i]
    ensures forall c :: 0 <= c < |t.net.conns| && !t.net.conns[c].stage.Ready? ==> t.net.conns[c].fdOpen
  {
    var n := t.net;
    var m := Sum(n.conns, IsMarked);
    assert (|n.active| + m % TWO_TO_64) % TWO_TO_64 == (|n.active| + m) % TWO_TO_64;
  }

  // ----- what the calls do to each connection

  /** SetPacingRate of a new rate stores it, and sets it on exactly the active connections
      whose setsockopt succeeds; the others keep their pace, and nothing else changes. */
  lemma {:induction false} SetPacingRatePaces(n: Net, rate: nat, failed: set<nat>)
    requires rate != n.pace
    ensures var n' := SetPacingRate(n, rate, failed);
            && n' == n.(conns := n'.conns, pace := rate) && |n'.conns| == |n.conns|
            && forall i :: 0 <= i < |n.conns| ==>
                 n'.conns[i] == n.conns[i].(
                   pace := if i in n.active && i !in failed then rate else n.conns[i].pace,
                   setOk := if i in n.active then i !in failed else n.conns[i].setOk)
  {
  }

  /** The last step of a dial, and its whole tail, set the rate they read exactly when
      setsockopt succeeds. */
  lemma {:induction false} DialPaces(n: Net, c: nat, ok: bool)
    requires c < |n.conns|
    ensures var conn := n.conns[c];
            conn.stage.Loaded? ==>
              DialStep(n, c, ok) == Some(n.(conns := n.conns[c := conn.(
                stage := Ready, pace := if ok then conn.stage.rate else conn.pace, setOk := ok)]))
    ensures var conn := n.conns[c];
            FinishDial(n, c, ok) == n.(conns := n.conns[c := if n.pace == 0 then conn.(stage := Ready) else conn.(
              stage := Ready, pace := if ok then n.pace else conn.pace, setOk := ok)])
  {
  }

  // ----- undisturbed calls are runs

  /** SetPacingRate and DialContext, when nothing else moves, are the runs of their
      own steps; a SetPacingRate of the stored pace is the run of none. */
  lemma {:induction false} CallsAreRuns(t: Tracker, rate: nat, failed: set<nat>, info: TcpInfo, ok: bool)
    ensures rate != t.net.pace ==>
              NetStep(NetStep(t, StorePace(rate)).value, ApplyPace(rate, failed))
              == Some(t.(net := SetPacingRate(t.net, rate, failed)))
    ensures rate == t.net.pace ==> t.(net := SetPacingRate(t.net, rate, failed)) == t
    ensures var c := |t.net.conns|;
            var dialed := t.(net := FinishDial(Register(t.net, info), c, ok));
            var first := NetStep(NetStep(t, Dial(info)).value, DialTail(c, ok));
            if t.net.pace > 0 then
              NetStep(NetStep(first.value, DialTail(c, ok)).value, DialTail(c, ok)) == Some(dialed)
            else first == Some(dialed)
  {
    var c := |t.net.conns|;
    var n := Register(t.net, info);
    if t.net.pace > 0 {
      var checked := n.conns[c].(stage := Checked);
      var loaded := n.conns[c].(stage := Loaded(n.pace));
      assert n.conns[c := checked][c := loaded] == n.conns[c := loaded];
      var ready := Paced(n.conns[c], n.pace, ok).(stage := Ready);
      assert n.conns[c := loaded][c := ready] == n.conns[c := ready];
      assert Paced(loaded, n.pace, ok).(stage := Ready) == ready;
    }
  }

  /** The next n steps of closer j. */
  function CloseSteps(t: Tracker, j: nat, readable: bool, n: nat): Option<Tracker>
    decreases n
  {
    if n == 0 then Some(t)
    else var t' := NetStep(t, CloseStep(j, readable));
         if t'.None? then None else CloseSteps(t'.value, j, readable, n - 1)
  }

  /** An undisturbed Close is the run of its own steps: four when it is the first
      of its connection, two when another one came before it. */
  lemma {:induction false} CloseIsRun(t: Tracker, c: nat, readable: bool)
    requires LedgerInv(t) && c < |t.net.conns|
    requires t.net.conns[c].stage.Ready? && !t.net.conns[c].once.Running?
    ensures var called := NetStep(t, CallClose(c));
            && called.Some?
            && CloseSteps(called.value, |t.closers|, readable, if t.net.conns[c].once.Idle? then 4 else 2)
               == Some(Tracker(CloseWhole(t.net, c, readable), t.closers + [Closer(c, Returned)]))
  {
    var j := |t.closers|;
    var t0 := NetStep(t, CallClose(c)).value;
    if t.net.conns[c].once.Idle? {
      FirstCloseIsRun(t0, j, readable);
      assert t0.closers[j := Closer(c, Returned)] == t.closers + [Closer(c, Returned)];
    } else {
      LaterCloseIsRun(t0, j, readable);
      assert t0.closers[j := Closer(c, Returned)] == t.closers + [Closer(c, Returned)];
    }
  }

  lemma {:induction false} MovedTwice(t: Tracker, n: Net, j: nat, place: Place, place': Place)
    requires j < |t.closers|
    ensures Moved(Tracker(n, Moved(t, j, place)), j, place') == Moved(t, j, place')
  {
  }

  lemma {:induction false} FirstCloseIsRun(t: Tracker, j: nat, readable: bool)
    requires j < |t.closers| && t.closers[j].place.Calling?
    requires t.closers[j].conn < |t.net.conns| && t.net.conns[t.closers[j].conn].once.Idle?
    ensures CloseSteps(t, j, readable, 4)
         == Some(Tracker(CloseWhole(t.net, t.closers[j].conn, readable), Moved(t, j, Returned)))
  {
    var c := t.closers[j].conn;
    var t1 := Tracker(SetConn(t.net, c, t.net.conns[c].(once := Running)), Moved(t, j, InOnce));
    assert NetStep(t, CloseStep(j, readable)) == Some(t1);
    MovedTwice(t, t1.net, j, InOnce, Marked);
    var t2 := Tracker(MarkClosed(t1.net, c, readable), Moved(t, j, Marked));
    assert NetStep(t1, CloseStep(j, readable)) == Some(t2);
    MovedTwice(t, t2.net, j, Marked, PastOnce);
    var t3 := Tracker(CloseOnce(t.net, c, readable), Moved(t, j, PastOnce));
    assert NetStep(t2, CloseStep(j, readable)) == Some(t3);
    MovedTwice(t, t3.net, j, PastOnce, Returned);
    var t4 := Tracker(CloseWhole(t.net, c, readable), Moved(t, j, Returned));
    assert NetStep(t3, CloseStep(j, readable)) == Some(t4);
    hide NetStep, CloseWhole, CloseOnce;
    assert CloseSteps(t3, j, readable, 1) == Some(t4);
    assert CloseSteps(t2, j, readable, 2) == Some(t4);
    assert CloseSteps(t1, j, readable, 3) == Some(t4);
  }

  lemma {:induction false} LaterCloseIsRun(t: Tracker, j: nat, readable: bool)
    requires j < |t.closers| && t.closers[j].place.Calling?
    requires t.closers[j].conn < |t.net.conns| && t.net.conns[t.closers[j].conn].once.Done?
    ensures CloseSteps(t, j, readable, 2)
         == Some(Tracker(CloseWhole(t.net, t.closers[j].conn, readable), Moved(t, j, Returned)))
  {
    var c := t.closers[j].conn;
    var t1 := Tracker(t.net, Moved(t, j, PastOnce));
    assert NetStep(t, CloseStep(j, readable)) == Some(t1);
    MovedTwice(t, t1.net, j, PastOnce, Returned);
    var t2 := Tracker(CloseWhole(t.net, c, readable), Moved(t, j, Returned));
    assert NetStep(t1, CloseStep(j, readable)) == Some(t2);
    assert CloseSteps(t1, j, readable, 1) == Some(t2);
  }

  /** Every Close after the first leaves the ledger alone; the first moves its
      connection over. */
  lemma {:induction false} CloseCountsOnce(n: Net, c: nat, readable: bool)
    requires NetInv(n) && c < |n.conns| && !n.conns[c].once.Running?
    ensures var n' := CloseWhole(n, c, readable);
            && n'.conns[c].marked && !n'.conns[c].fdOpen && n'.conns[c].once.Done? && c !in n'.active
            && (n.conns[c].marked ==> n' == n.(conns := n'.conns))
            && (!n.conns[c].marked ==>
                  && n'.active == n.active - {c} && n'.closed == Add64(n.closed, 1)
                  && n'.sumClosed == AddTcpInfo(n.sumClosed, if readable then n.conns[c].info else ZERO_INFO))
            && CloseWhole(n', c, readable) == n'
  {
    var n' := CloseWhole(n, c, readable);
    assert n'.conns[c := n'.conns[c]] == n'.conns;
  }

  lemma {:induction false} CloseWholeKeeps(n: Net, c: nat, readable: bool)
    requires NetInv(n) && c < |n.conns| && !n.conns[c].once.Running? && n.conns[c].stage.Ready?
    ensures NetInv(CloseWhole(n, c, readable))
  {
    var m := n;
    if n.conns[c].once.Idle? {
      CloseOnceKeeps(n, c, readable);
      m := CloseOnce(n, c, readable);
    }
    SetConnKeeps(m, c, m.conns[c].(fdOpen := false));
  }

  lemma {:induction false} DialKeeps(n: Net, info: TcpInfo, ok: bool)
    requires NetInv(n)
    ensures NetInv(FinishDial(Register(n, info), |n.conns|, ok))
  {
    RegisterKeeps(n, info);
    var c := |n.conns|;
    var registered := Register(n, info);
    SetConnKeeps(registered, c, FinishDial(registered, c, ok).conns[c]);
  }

  lemma {:induction false} CloseOnceKeeps(n: Net, c: nat, readable: bool)
    requires NetInv(n) && c < |n.conns| && n.conns[c].once.Idle? && n.conns[c].stage.Ready?
    ensures NetInv(CloseOnce(n, c, readable))
    ensures CloseOnce(n, c, readable).conns[c].marked
    ensures CloseOnce(n, c, readable).conns[c].stage.Ready?
  {
    var running := SetConn(n, c, n.conns[c].(once := Running));
    SetConnKeeps(n, c, running.conns[c]);
    MarkClosedKeeps(running, c, readable);
    var marked := MarkClosed(running, c, readable);
    SetConnKeeps(marked, c, marked.conns[c].(once := Done));
  }
}
