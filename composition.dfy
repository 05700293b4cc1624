/**
  What a handler registered on a router runs: the raw endpoint wrapped by the
  middleware of the registering router and of all its ancestors. Middleware
  and endpoints are opaque labels; a composed endpoint is the term of nested
  wrappings, and Trace says in which order the pieces run when every
  middleware does its pre-call work, calls the endpoint it wraps once, and
  then does its post-call work.
*/
module Composition {

  /** An opaque middleware value (a Go `Middleware`). */
  type Label = nat

  /** An opaque raw endpoint (a Go `Endpoint` passed to Handle). */
  type EndpointId = nat

  datatype Endpoint = Raw(id: EndpointId) | Wrap(mw: Label, inner: Endpoint)

  datatype Event = Pre(mw: Label) | Call(id: EndpointId) | Post(mw: Label)

  /** The order in which a composed endpoint's pieces run. */
  function Trace(e: Endpoint): seq<Event> {
    match e
    case Raw(id) => [Call(id)]
    case Wrap(m, inner) => [Pre(m)] + Trace(inner) + [Post(m)]
  }

  /** One router's middleware list applied to `e` from its last element to
      its first, as the inner loop of applyMiddleware does: the first
      registered middleware ends up outermost. */
  function WrapAll(ms: seq<Label>, e: Endpoint): Endpoint {
    if ms == [] then e else Wrap(ms[0], WrapAll(ms[1..], e))
  }

  /** The outer loop of applyMiddleware: `lists[0]` is the registering
      router's list, `lists[1]` its parent's, and so on up to the root. */
  function ComposeChain(lists: seq<seq<Label>>, e: Endpoint): Endpoint {
    if lists == [] then e else ComposeChain(lists[1..], WrapAll(lists[0], e))
  }

  /** Every middleware of a chain in the order it sees the request: the
      root's list first, the registering router's last, each list in
      registration order. */
  function PreOrder(lists: seq<seq<Label>>): seq<Label> {
    if lists == [] then [] else PreOrder(lists[1..]) + lists[0]
  }

  function PreEvents(ms: seq<Label>): seq<Event> {
    if ms == [] then [] else [Pre(ms[0])] + PreEvents(ms[1..])
  }

  function PostEvents(ms: seq<Label>): seq<Event> {
    if ms == [] then [] else PostEvents(ms[1..]) + [Post(ms[0])]
  }

  lemma {:induction false} WrapAllAppend(a: seq<Label>, b: seq<Label>, e: Endpoint)
    ensures WrapAll(a + b, e) == WrapAll(a, WrapAll(b, e))
  {
    if a == [] {
      assert a + b == b;
    } else {
      assert (a + b)[1..] == a[1..] + b;
      WrapAllAppend(a[1..], b, e);
    }
  }

  /** The nested walk is one wrapping in pre-call order: the composed
      endpoint is the raw endpoint wrapped by PreOrder(lists), outermost
      first. */
  lemma {:induction false} ComposeChainIsWrapAll(lists: seq<seq<Label>>, e: Endpoint)
    ensures ComposeChain(lists, e) == WrapAll(PreOrder(lists), e)
  {
    if lists != [] {
      ComposeChainIsWrapAll(lists[1..], WrapAll(lists[0], e));
      WrapAllAppend(PreOrder(lists[1..]), lists[0], e);
    }
  }

  lemma {:induction false} TraceWrapAll(ms: seq<Label>, e: Endpoint)
    ensures Trace(WrapAll(ms, e)) == PreEvents(ms) + Trace(e) + PostEvents(ms)
  {
    if ms != [] {
      TraceWrapAll(ms[1..], e);
    }
  }

  /** Running a composed endpoint: every pre-call step in PreOrder, then the
      raw endpoint exactly once, then every post-call step. */
  lemma ComposedTrace(lists: seq<seq<Label>>, id: EndpointId)
    ensures Trace(ComposeChain(lists, Raw(id)))
         == PreEvents(PreOrder(lists)) + [Call(id)] + PostEvents(PreOrder(lists))
  {
    ComposeChainIsWrapAll(lists, Raw(id));
    TraceWrapAll(PreOrder(lists), Raw(id));
  }

  /** The i-th pre-call step is that of the i-th middleware in PreOrder. */
  lemma {:induction false} PreEventsAt(ms: seq<Label>, i: nat)
    requires i < |ms|
    ensures |PreEvents(ms)| == |ms| && PreEvents(ms)[i] == Pre(ms[i])
  {
    if i > 0 {
      PreEventsAt(ms[1..], i - 1);
    } else if |ms| > 1 {
      PreEventsAt(ms[1..], 0);
    }
  }

  /** Post-call steps run in exactly the reverse order. */
  lemma {:induction false} PostEventsAt(ms: seq<Label>, i: nat)
    requires i < |ms|
    ensures |PostEvents(ms)| == |ms| && PostEvents(ms)[i] == Post(ms[|ms| - 1 - i])
  {
    if |ms| > 1 {
      PostEventsAt(ms[1..], if i < |ms| - 1 then i else 0);
    }
  }

  lemma {:induction false} PreOrderAppend(a: seq<seq<Label>>, b: seq<seq<Label>>)
    ensures PreOrder(a + b) == PreOrder(b) + PreOrder(a)
  {
    if a == [] {
      assert a + b == b;
    } else {
      assert (a + b)[1..] == a[1..] + b;
      PreOrderAppend(a[1..], b);
    }
  }

  /** Ancestors before descendants: all middleware of the routers from
      position j up to the root sees the request before any middleware of
      the routers below position j. */
  lemma AncestorsRunFirst(lists: seq<seq<Label>>, j: nat)
    requires j <= |lists|
    ensures PreOrder(lists) == PreOrder(lists[j..]) + PreOrder(lists[..j])
  {
    assert lists == lists[..j] + lists[j..];
    PreOrderAppend(lists[..j], lists[j..]);
  }

  /** Only middleware registered on the chain takes part: a middleware runs
      iff it is in the list of one of the chain's routers. */
  lemma {:induction false} PreOrderMembers(lists: seq<seq<Label>>, m: Label)
    ensures m in PreOrder(lists) <==> exists i :: 0 <= i < |lists| && m in lists[i]
  {
    if lists != [] {
      PreOrderMembers(lists[1..], m);
      if m in PreOrder(lists[1..]) {
        var i :| 0 <= i < |lists[1..]| && m in lists[1..][i];
        assert m in lists[i + 1];
      }
      if exists i :: 0 <= i < |lists| && m in lists[i] {
        var i :| 0 <= i < |lists| && m in lists[i];
        if i > 0 {
          assert m in lists[1..][i - 1];
        }
      }
    }
  }

  /** With no middleware anywhere on the chain, the composed endpoint is the
      raw endpoint itself. */
  lemma {:induction false} NoMiddlewareIsRaw(lists: seq<seq<Label>>, e: Endpoint)
    requires forall i :: 0 <= i < |lists| ==> lists[i] == []
    ensures ComposeChain(lists, e) == e
  {
    if lists != [] {
      NoMiddlewareIsRaw(lists[1..], e);
    }
  }

  /** Appending `ms` to the list at position j of the chain (a `Use` on that
      ancestor, done after `Handle`) inserts `ms` just after that router's
      earlier middleware and before everything registered below it. */
  lemma LaterUseOnAncestor(lists: seq<seq<Label>>, j: nat, ms: seq<Label>)
    requires j < |lists|
    ensures PreOrder(lists[j := lists[j] + ms])
         == PreOrder(lists[j + 1..]) + lists[j] + ms + PreOrder(lists[..j])
  {
    var updated := lists[j := lists[j] + ms];
    AncestorsRunFirst(updated, j);
    assert updated[j..] == [lists[j] + ms] + lists[j + 1..];
    assert updated[..j] == lists[..j];
    assert PreOrder(updated[j..]) == PreOrder(lists[j + 1..]) + (lists[j] + ms);
  }

  /** A router below the root with exactly one middleware on the chain,
      on either of the two: that middleware wraps the endpoint. */
  lemma OneMiddlewareTrace(lists: seq<seq<Label>>, m: Label, id: EndpointId)
    requires lists == [[m], []] || lists == [[], [m]]
    ensures Trace(ComposeChain(lists, Raw(id))) == [Pre(m), Call(id), Post(m)]
  {
    assert |lists[1..][1..]| == 0;
    assert PreOrder(lists[1..]) == lists[1];
    assert PreOrder(lists) == [m];
    ComposedTrace(lists, id);
    var ms: seq<Label> := [m];
    assert |ms[1..]| == 0;
    assert PreEvents(ms) == [Pre(m)] && PostEvents(ms) == [Post(m)];
  }

  /** Two nested groups below a root with no middleware, the outer group
      with m1 and the inner with m2: m1's pre-call step, m2's, the endpoint,
      m2's post-call step, m1's. */
  lemma NestedGroupsTrace(m1: Label, m2: Label, id: EndpointId)
    ensures Trace(ComposeChain([[m2], [m1], []], Raw(id)))
         == [Pre(m1), Pre(m2), Call(id), Post(m2), Post(m1)]
  {
    var lists: seq<seq<Label>> := [[m2], [m1], []];
    assert |lists[1..][1..][1..]| == 0;
    assert PreOrder(lists[1..][1..]) == [];
    assert PreOrder(lists[1..]) == [] + [m1];
    assert PreOrder(lists) == [m1] + [m2];
    ComposedTrace(lists, id);
    var order: seq<Label> := [m1, m2];
    var last: seq<Label> := [m2];
    assert order[1..] == last && last[1..] == [];
    assert PreEvents(last) == [Pre(m2)] && PostEvents(last) == [Post(m2)];
    assert PreEvents(order) == [Pre(m1)] + PreEvents(last);
    assert PostEvents(order) == PostEvents(last) + [Post(m1)];
  }
}
