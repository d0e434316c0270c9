/** Go error trees, errors.Is and errors.As, and the status code a tree is answered with. */
module Errors {
  import opened Sums

  datatype Error =
    | AttemptTimeout                       // errUploadAttemptTimeout
    | QueueTimeout                         // errUploadQueueTimeout
    | Aborted                              // errUploadAborted
    | NoSuchBucket                         // errUploadNoSuchBucket
    | Canceled                             // context.Canceled
    | DeadlineExceeded                     // context.DeadlineExceeded
    | BadRequest(cause: Option<Error>)     // *badrequesterror.BadRequestError
    | Api(code: string, wraps: Option<Error>)  // any smithy.APIError
    | Opaque(id: int)                      // any other leaf
    | Wrapped(inner: Error)                // pkg/errors Wrap and every other single Unwrap
    | Joined(errs: seq<Error>)             // errors.Join and every other multiple Unwrap

  /** Some node of the tree, in depth-first order, satisfies p. */
  predicate Contains(e: Error, p: Error -> bool) {
    p(e) || match e
            case BadRequest(c) => c.Some? && Contains(c.value, p)
            case Api(_, c) => c.Some? && Contains(c.value, p)
            case Wrapped(c) => Contains(c, p)
            case Joined(es) => exists i :: 0 <= i < |es| && Contains(es[i], p)
            case _ => false
  }

  /** errors.Is against a sentinel. */
  predicate Is(e: Error, target: Error) {
    Contains(e, (x: Error) => x == target)
  }

  /** errors.As into a *BadRequestError. */
  predicate AsBadRequest(e: Error) {
    Contains(e, (x: Error) => x.BadRequest?)
  }

  /** errors.As into a smithy.APIError: the code of the first one met depth first. */
  function AsApi(e: Error): Option<string>
    decreases e, 0
  {
    match e
    case Api(code, _) => Some(code)
    case BadRequest(c) => if c.Some? then AsApi(c.value) else None
    case Wrapped(c) => AsApi(c)
    case Joined(es) => AsApiFirst(es)
    case _ => None
  }

  function AsApiFirst(es: seq<Error>): Option<string>
    decreases es, 0
  {
    if es == [] then None
    else var first := AsApi(es[0]);
         if first.Some? then first else AsApiFirst(es[1..])
  }

  predicate IsOwn(e: Error) {
    e.AttemptTimeout? || e.QueueTimeout? || e.Aborted? || e.NoSuchBucket? || e.BadRequest?
  }

  /** An error made outside the repository: its unexported sentinels and its
      bad-request type are nowhere in the tree. */
  predicate Foreign(e: Error) {
    !Contains(e, IsOwn)
  }

  /** The switch of ServeHTTP. */
  function StatusCode(err: Option<Error>): int {
    match err
    case None => 200
    case Some(e) =>
      if AsBadRequest(e) then 400
      else if Is(e, Aborted) then 418
      else if Is(e, QueueTimeout) then 408
      else if Is(e, AttemptTimeout) then 504
      else if Is(e, NoSuchBucket) then 404
      else if AsApi(e).Some? then 502
      else 500
  }

  lemma {:induction false} ContainsWeaken(e: Error, p: Error -> bool, q: Error -> bool)
    requires forall x :: p(x) ==> q(x)
    requires Contains(e, p)
    ensures Contains(e, q)
  {
    if !p(e) {
      match e
      case BadRequest(c) => ContainsWeaken(c.value, p, q);
      case Api(_, c) => ContainsWeaken(c.value, p, q);
      case Wrapped(c) => ContainsWeaken(c, p, q);
      case Joined(es) =>
        var i :| 0 <= i < |es| && Contains(es[i], p);
        ContainsWeaken(es[i], p, q);
    }
  }

  /** A foreign error matches none of the repository's own targets. */
  lemma ForeignMatchesNothing(e: Error)
    requires Foreign(e)
    ensures !AsBadRequest(e)
    ensures !Is(e, Aborted) && !Is(e, QueueTimeout) && !Is(e, AttemptTimeout) && !Is(e, NoSuchBucket)
  {
    var bad := (x: Error) => x.BadRequest?;
    if Contains(e, bad) { ContainsWeaken(e, bad, IsOwn); }
    IsImpliesContains(e, Aborted);
    IsImpliesContains(e, QueueTimeout);
    IsImpliesContains(e, AttemptTimeout);
    IsImpliesContains(e, NoSuchBucket);
  }

  lemma IsImpliesContains(e: Error, target: Error)
    requires IsOwn(target)
    ensures Is(e, target) ==> Contains(e, IsOwn)
  {
    var p := (x: Error) => x == target;
    if Contains(e, p) { ContainsWeaken(e, p, IsOwn); }
  }

  // ----- the nodes of a tree, in the order Is and As visit them

  /** A tree and all it wraps, depth first. */
  function Nodes(e: Error): seq<Error>
    decreases e, 0
  {
    match e
    case BadRequest(c) => [e] + if c.Some? then Nodes(c.value) else []
    case Api(_, c) => [e] + if c.Some? then Nodes(c.value) else []
    case Wrapped(c) => [e] + Nodes(c)
    case Joined(es) => [e] + NodesOf(es)
    case _ => [e]
  }

  function NodesOf(es: seq<Error>): seq<Error>
    decreases es, 0
  {
    if es == [] then [] else Nodes(es[0]) + NodesOf(es[1..])
  }

  lemma {:induction false} NodesOfEach(es: seq<Error>, x: Error)
    ensures x in NodesOf(es) <==> exists i :: 0 <= i < |es| && x in Nodes(es[i])
  {
    if es != [] {
      NodesOfEach(es[1..], x);
      assert forall i :: 0 < i < |es| ==> es[i] == es[1..][i - 1];
      assert x in NodesOf(es) <==> x in Nodes(es[0]) || x in NodesOf(es[1..]);
    }
  }

  /** A tree contains what one of its nodes is. */
  lemma {:induction false} ContainsIsNode(e: Error, p: Error -> bool)
    ensures Contains(e, p) <==> exists x :: x in Nodes(e) && p(x)
  {
    assert e in Nodes(e);
    match e
    case BadRequest(c) => if c.Some? { ContainsIsNode(c.value, p); }
    case Api(_, c) => if c.Some? { ContainsIsNode(c.value, p); }
    case Wrapped(c) => ContainsIsNode(c, p);
    case Joined(es) =>
      forall i | 0 <= i < |es| ensures Contains(es[i], p) <==> exists x :: x in Nodes(es[i]) && p(x) {
        ContainsIsNode(es[i], p);
      }
      JoinedContains(es, p);
    case _ =>
  }

  lemma {:induction false} JoinedContains(es: seq<Error>, p: Error -> bool)
    requires forall i :: 0 <= i < |es| ==> (Contains(es[i], p) <==> exists x :: x in Nodes(es[i]) && p(x))
    ensures (exists i :: 0 <= i < |es| && Contains(es[i], p)) <==> exists x :: x in NodesOf(es) && p(x)
  {
    if i :| 0 <= i < |es| && Contains(es[i], p) {
      var x :| x in Nodes(es[i]) && p(x);
      NodesOfEach(es, x);
    }
    if x :| x in NodesOf(es) && p(x) {
      NodesOfEach(es, x);
      var i :| 0 <= i < |es| && x in Nodes(es[i]);
      assert Contains(es[i], p);
    }
  }

  /** Is finds a target exactly when it is a node of the tree, whatever wraps or joins it. */
  lemma {:induction false} IsFindsNode(e: Error, target: Error)
    ensures Is(e, target) <==> target in Nodes(e)
  {
    var p := (x: Error) => x == target;
    ContainsIsNode(e, p);
    if target in Nodes(e) { assert p(target); }
  }

  /** So it looks through every layer. */
  lemma {:induction false} IsThroughLayers(e: Error, es: seq<Error>, target: Error)
    ensures Is(Wrapped(e), target) <==> target == Wrapped(e) || Is(e, target)
    ensures Is(Joined(es), target) <==> target == Joined(es) || exists i :: 0 <= i < |es| && Is(es[i], target)
  {
    IsFindsNode(e, target);
    IsFindsNode(Wrapped(e), target);
    IsFindsNode(Joined(es), target);
    NodesOfEach(es, target);
    forall i | 0 <= i < |es| ensures Is(es[i], target) <==> target in Nodes(es[i]) { IsFindsNode(es[i], target); }
    hide Is;
  }

  /** Node i is the first API error of the list. */
  predicate FirstApiAt(nodes: seq<Error>, i: int) {
    0 <= i < |nodes| && nodes[i].Api? && forall j :: 0 <= j < i ==> !nodes[j].Api?
  }

  /** As finds the first API error, depth first, and reads its code; it finds none
      exactly when no node is one. */
  lemma {:induction false} AsApiFinds(e: Error)
    ensures forall i :: FirstApiAt(Nodes(e), i) ==> AsApi(e) == Some(Nodes(e)[i].code)
    ensures AsApi(e).None? <==> forall x :: x in Nodes(e) ==> !x.Api?
    decreases e, 0
  {
    match e
    case Api(code, _) => assert Nodes(e)[0] == e;
    case BadRequest(c) =>
      if c.Some? {
        AsApiFinds(c.value);
        FirstApiLater([e], Nodes(c.value));
      }
    case Wrapped(c) =>
      AsApiFinds(c);
      FirstApiLater([e], Nodes(c));
    case Joined(es) =>
      AsApiFirstFinds(es);
      FirstApiLater([e], NodesOf(es));
    case _ =>
  }

  lemma {:induction false} AsApiFirstFinds(es: seq<Error>)
    ensures forall i :: FirstApiAt(NodesOf(es), i) ==> AsApiFirst(es) == Some(NodesOf(es)[i].code)
    ensures AsApiFirst(es).None? <==> forall x :: x in NodesOf(es) ==> !x.Api?
    decreases es, 0
  {
    if es != [] {
      AsApiFinds(es[0]);
      AsApiFirstFinds(es[1..]);
      var head, rest := Nodes(es[0]), NodesOf(es[1..]);
      if AsApi(es[0]).None? {
        FirstApiLater(head, rest);
      } else {
        FirstApiEarlier(head, rest);
      }
    }
  }

  /** After nodes without an API error the first one is the first of the rest. */
  lemma {:induction false} FirstApiLater(before: seq<Error>, rest: seq<Error>)
    requires forall x :: x in before ==> !x.Api?
    ensures forall i :: FirstApiAt(before + rest, i) ==>
              i >= |before| && FirstApiAt(rest, i - |before|) && (before + rest)[i] == rest[i - |before|]
    ensures (forall x :: x in before + rest ==> !x.Api?) <==> forall x :: x in rest ==> !x.Api?
  {
    assert forall j :: 0 <= j < |before| ==> (before + rest)[j] == before[j];
    forall i | FirstApiAt(before + rest, i)
      ensures i >= |before| && FirstApiAt(rest, i - |before|) && (before + rest)[i] == rest[i - |before|]
    {
      forall j | 0 <= j < i - |before| ensures !rest[j].Api? { assert rest[j] == (before + rest)[j + |before|]; }
    }
  }

  lemma {:induction false} FirstApiEarlier(head: seq<Error>, rest: seq<Error>)
    requires exists x :: x in head && x.Api?
    ensures forall i :: FirstApiAt(head + rest, i) ==> FirstApiAt(head, i) && (head + rest)[i] == head[i]
    ensures exists x :: x in head + rest && x.Api?
  {
    var k :| 0 <= k < |head| && head[k].Api?;
    assert (head + rest)[k] == head[k];
    forall i | FirstApiAt(head + rest, i) ensures FirstApiAt(head, i) && (head + rest)[i] == head[i] {
      forall j | 0 <= j < i ensures !head[j].Api? { assert head[j] == (head + rest)[j]; }
    }
  }

  /** Wrapping never changes the code. */
  lemma WrapKeepsCode(e: Error)
    ensures StatusCode(Some(Wrapped(e))) == StatusCode(Some(e))
  {
    var w := Wrapped(e);
    assert AsBadRequest(w) <==> AsBadRequest(e);
    assert Is(w, Aborted) <==> Is(e, Aborted);
    assert Is(w, QueueTimeout) <==> Is(e, QueueTimeout);
    assert Is(w, AttemptTimeout) <==> Is(e, AttemptTimeout);
    assert Is(w, NoSuchBucket) <==> Is(e, NoSuchBucket);
  }

  /** The code of an error is decided by what its nodes are, in this order: a bad request,
      a disconnect, a queue timeout, an attempt timeout, a missing bucket, an API error. */
  lemma CodeOfNodes(e: Error)
    ensures StatusCode(Some(e))
         == if exists x :: x in Nodes(e) && x.BadRequest? then 400
            else if Aborted in Nodes(e) then 418
            else if QueueTimeout in Nodes(e) then 408
            else if AttemptTimeout in Nodes(e) then 504
            else if NoSuchBucket in Nodes(e) then 404
            else if exists x :: x in Nodes(e) && x.Api? then 502
            else 500
  {
    ContainsIsNode(e, (x: Error) => x.BadRequest?);
    IsFindsNode(e, Aborted);
    IsFindsNode(e, QueueTimeout);
    IsFindsNode(e, AttemptTimeout);
    IsFindsNode(e, NoSuchBucket);
    AsApiFinds(e);
    hide Is, AsApi, Nodes;
  }

  lemma NodeOfItself(e: Error)
    ensures e in Nodes(e)
  {
    assert Nodes(e)[0] == e;
  }

  lemma JoinNodes(s: Error, e: Error)
    ensures s in Nodes(Joined([s, e])) && e in Nodes(Joined([s, e]))
  {
    var es := [s, e];
    NodeOfItself(s);
    NodeOfItself(e);
    assert es[0] == s && es[1] == e;
    NodesOfEach(es, s);
    NodesOfEach(es, e);
  }

  /** A foreign error alone is answered with 502 if it carries an API error, else with 500. */
  lemma ForeignCode(e: Error)
    requires Foreign(e)
    ensures StatusCode(Some(e)) == if AsApi(e).Some? then 502 else 500
  {
    ForeignMatchesNothing(e);
  }

  function CodeOfSentinel(s: Error): int {
    match s
    case Aborted => 418
    case QueueTimeout => 408
    case AttemptTimeout => 504
    case _ => 404
  }

  /** A sentinel joined with a foreign error is answered with the sentinel's code. */
  lemma JoinCode(s: Error, e: Error)
    requires s in {Aborted, QueueTimeout, AttemptTimeout, NoSuchBucket}
    requires Foreign(e)
    ensures StatusCode(Some(Joined([s, e]))) == CodeOfSentinel(s)
  {
    ForeignMatchesNothing(e);
    JoinIs(s, e, Aborted);
    JoinIs(s, e, QueueTimeout);
    JoinIs(s, e, AttemptTimeout);
    JoinIs(s, e, NoSuchBucket);
    JoinContains(s, e, (x: Error) => x.BadRequest?);
    assert !AsBadRequest(Joined([s, e]));
  }

  lemma JoinContains(s: Error, e: Error, p: Error -> bool)
    ensures Contains(Joined([s, e]), p) <==> p(Joined([s, e])) || Contains(s, p) || Contains(e, p)
  {
    var es := [s, e];
    assert es[0] == s && es[1] == e;
    assert Contains(Joined(es), p) <==> p(Joined(es)) || Contains(es[0], p) || Contains(es[1], p);
  }

  lemma JoinIs(s: Error, e: Error, t: Error)
    requires s in {Aborted, QueueTimeout, AttemptTimeout, NoSuchBucket}
    requires t in {Aborted, QueueTimeout, AttemptTimeout, NoSuchBucket}
    requires Foreign(e)
    ensures Is(Joined([s, e]), t) <==> s == t
  {
    ForeignMatchesNothing(e);
    JoinContains(s, e, (x: Error) => x == t);
  }
}
