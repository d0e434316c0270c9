/** Any number of concurrent requests over the shared semaphore, pacing state,
    connection ledger and counters. */
module Scheduler {
  import opened Sums
  import opened Ledger
  import opened Requests

  datatype State = State(now: int, sh: Shared, reqs: seq<Request>)

  datatype Event =
    | Arrive
    | Req(i: nat, a: Action)
    | Network(e: NetEvent)   // dials, closes and the kernel
    | Tick(d: nat)

  /** updatePacingRate undisturbed. */
  function Repaced(c: Conf, count: nat, n: Net, failed: set<nat>): Net {
    if LimitBytes(c) == 0 then n else SetPacingRate(n, PaceFor(c, count), failed)
  }

  /** NewS3ndHandler has set the pace once, before any connection. */
  function Init(c: Conf): State {
    State(0, Shared(0, 0, Tracker(Repaced(c, 0, EMPTY_NET, {}), []), 0, 0, 0, map[]), [])
  }

  function Step(c: Conf, s: State, e: Event): Option<State> {
    match e
    case Arrive => Some(s.(reqs := s.reqs + [NewRequest(s.now)]))
    case Req(i, a) =>
      if i >= |s.reqs| then None
      else var m := Act(c, s.now, s.sh, s.reqs[i], a);
           if m.None? then None else Some(State(s.now, m.value.sh, s.reqs[i := m.value.r]))
    case Network(e) =>
      if e.StorePace? || e.ApplyPace? then None
      else var t := NetStep(s.sh.tracker, e);
           if t.None? then None else Some(s.(sh := s.sh.(tracker := t.value)))
    case Tick(d) => Some(s.(now := s.now + d))
  }

  /** The state after the given events, if each could happen in its turn: every
      interleaving of every number of requests is such a sequence. */
  function Run(c: Conf, events: seq<Event>): Option<State> {
    if events == [] then Some(Init(c))
    else var before := Run(c, events[..|events| - 1]);
         if before.None? then None else Step(c, before.value, events[|events| - 1])
  }
}
