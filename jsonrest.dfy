/**
  The router of package jsonrest: a tree of routers linked by parent
  pointers, each with its own middleware list; registration of endpoints
  with the underlying gin engine; the per-request metadata store; and the
  part of a handler that composes the endpoint at call time and picks the
  response.

  The gin engine is modelled only as what the package hands to it: a log of
  registered routes and the choice of not-found handler.
*/
module Jsonrest {
  import opened Wrappers
  import opened Fields
  import opened Composition
  import opened Render

  /** An opaque gin.HandlerFunc (a not-found override). */
  type HandlerId = nat

  /** The package's only Option: WithNotFoundHandler. `None` is a nil handler. */
  datatype RouterOption = WithNotFoundHandler(handler: Option<HandlerId>)

  /** What the gin engine does when no route matches. */
  datatype NoRoute = GinDefault | JsonNotFound | CustomNotFound(handler: HandlerId)

  /** How a request no route matches is answered: gin's own plain 404, the
      package's JSON reply (status and body), or the user's handler. */
  datatype NoRouteAnswer = GinPlain404 | JsonReply(reply: (int, ErrorValue)) | Delegated(handler: HandlerId)

  /** The answer the engine gives to an unmatched request under `c`. */
  function NoRouteReply(c: NoRoute): (r: NoRouteAnswer)
    ensures r.JsonReply? <==> c == JsonNotFound
    ensures c == JsonNotFound ==> r.reply.0 == 404 && r.reply.1 == ErrorValue(404, "not_found", "url not found")
    ensures r.Delegated? <==> c.CustomNotFound?
    ensures c.CustomNotFound? ==> r.handler == c.handler
  {
    match c
    case GinDefault => GinPlain404
    case JsonNotFound => JsonReply(DefaultNotFoundReply())
    case CustomNotFound(h) => Delegated(h)
  }

  /** The handler endpointToHandler builds for a route: its closure captures
      the raw endpoint, the route's path and the registering router; the
      middleware is looked up through that router each time it is called. */
  datatype Handler = Handler(endpoint: EndpointId, path: string, node: Router)

  datatype Route = Route(verb: string, path: string, handler: Handler)

  /** The gin engine, as seen by the package. */
  class Engine {
    var routes: seq<Route>
    var noRoute: NoRoute

    constructor ()
      ensures routes == [] && noRoute == GinDefault
    {
      routes := [];
      noRoute := GinDefault;
    }

    method Handle(verb: string, path: string, handler: Handler)
      modifies this
      ensures routes == old(routes) + [Route(verb, path, handler)]
      ensures noRoute == old(noRoute)
    {
      routes := routes + [Route(verb, path, handler)];
    }

    method SetNoRoute(choice: NoRoute)
      modifies this
      ensures noRoute == choice && routes == old(routes)
    {
      noRoute := choice;
    }
  }

  class Router {
    var dumpErrors: bool
    var notFound: Option<HandlerId>
    var middleware: seq<Label>
    const engine: Engine
    const parent: Router?
    /** The routers above this one, parent first, root last. */
    ghost const ancestors: seq<Router>

    /** The parent chain is finite and acyclic (its length strictly
        decreases along it) and the whole tree shares one engine. */
    ghost predicate Linked()
      decreases |ancestors|
    {
      if parent == null then ancestors == []
      else ancestors == [parent] + parent.ancestors && engine == parent.engine && parent.Linked()
    }

    /** The routers applyMiddleware visits: this one, then up to the root. */
    ghost function Chain(): seq<Router> {
      [this] + ancestors
    }

    constructor Root(engine: Engine)
      ensures this.engine == engine && parent == null && ancestors == []
      ensures middleware == [] && !dumpErrors && notFound == None
      ensures Linked()
    {
      this.engine := engine;
      parent := null;
      ancestors := [];
      middleware := [];
      dumpErrors := false;
      notFound := None;
    }

    constructor Child(p: Router)
      requires p.Linked()
      ensures engine == p.engine && parent == p && ancestors == [p] + p.ancestors
      ensures middleware == [] && dumpErrors == p.dumpErrors && notFound == None
      ensures Linked()
    {
      engine := p.engine;
      parent := p;
      ancestors := [p] + p.ancestors;
      middleware := [];
      dumpErrors := p.dumpErrors;
      notFound := None;
    }

    /** An Option applied to the router being built. */
    method ApplyOption(option: RouterOption)
      modifies this
      ensures notFound == option.handler
      ensures middleware == old(middleware) && dumpErrors == old(dumpErrors)
    {
      notFound := option.handler;
    }

    /** Router.Use: appends `ms`, in order, to this router's own list. */
    method Use(ms: seq<Label>)
      modifies this
      ensures middleware == old(middleware) + ms
      ensures dumpErrors == old(dumpErrors) && notFound == old(notFound)
    {
      middleware := middleware + ms;
    }

    /** Router.Group: a fresh child that shares the engine, copies
        DumpErrors and starts with no middleware of its own; the caller is
        left as it was. */
    method Group() returns (g: Router)
      requires Linked()
      ensures fresh(g) && g.Linked()
      ensures g.parent == this && g.engine == engine && g.Chain() == [g] + Chain()
      ensures g.middleware == [] && g.dumpErrors == dumpErrors && g.notFound == None
      ensures unchanged(this)
    {
      g := new Router.Child(this);
    }

    /** Router.Handle: registers the handler for `endpoint` with the engine. */
    method Handle(verb: string, path: string, endpoint: EndpointId)
      modifies engine
      ensures engine.routes == old(engine.routes) + [Route(verb, path, Handler(endpoint, path, this))]
      ensures engine.noRoute == old(engine.noRoute)
    {
      engine.Handle(verb, path, Handler(endpoint, path, this));
    }

    method Get(path: string, endpoint: EndpointId)
      modifies engine
      ensures engine.routes == old(engine.routes) + [Route("GET", path, Handler(endpoint, path, this))]
      ensures engine.noRoute == old(engine.noRoute)
    {
      Handle("GET", path, endpoint);
    }

    method Head(path: string, endpoint: EndpointId)
      modifies engine
      ensures engine.routes == old(engine.routes) + [Route("HEAD", path, Handler(endpoint, path, this))]
      ensures engine.noRoute == old(engine.noRoute)
    {
      Handle("HEAD", path, endpoint);
    }

    method Post(path: string, endpoint: EndpointId)
      modifies engine
      ensures engine.routes == old(engine.routes) + [Route("POST", path, Handler(endpoint, path, this))]
      ensures engine.noRoute == old(engine.noRoute)
    {
      Handle("POST", path, endpoint);
    }

    /** Router.Routes: registers every entry of the route map, visiting the
        keys in an order it does not promise. At the first key that does not
        split into exactly two tokens it stops, returning that key (the Go
        code panics there); the entries visited before it stay registered.
        `order` is the order in which keys were registered. */
    method Routes(m: map<string, EndpointId>) returns (bad: Option<string>, ghost order: seq<string>)
      modifies engine
      ensures forall k :: k in order ==> k in m && ParseRouteKey(k).Some?
      ensures forall i, j :: 0 <= i < j < |order| ==> order[i] != order[j]
      ensures engine.routes == old(engine.routes) + RoutesFor(order, m, this)
      ensures engine.noRoute == old(engine.noRoute)
      ensures bad.None? ==> forall k :: k in m ==> k in order
      ensures bad.Some? ==> bad.value in m && ParseRouteKey(bad.value).None?
      ensures bad.None? <==> forall k :: k in m ==> ParseRouteKey(k).Some?
    {
      var remaining := m.Keys;
      bad, order := None, [];
      while remaining != {}
        invariant remaining <= m.Keys
        invariant forall k :: k in m ==> (k in order <==> k !in remaining)
        invariant forall k :: k in order ==> k in m && ParseRouteKey(k).Some?
        invariant forall i, j :: 0 <= i < j < |order| ==> order[i] != order[j]
        invariant engine.routes == old(engine.routes) + RoutesFor(order, m, this)
        invariant engine.noRoute == old(engine.noRoute)
        decreases remaining
      {
        var key :| key in remaining;
        var parsed := ParseRouteKey(key);
        if parsed.None? {
          bad := Some(key);
          return;
        }
        Handle(parsed.value.verb, parsed.value.path, m[key]);
        RoutesForAppend(order, key, m, this);
        order := order + [key];
        remaining := remaining - {key};
      }
    }
  }

  /** The two tokens of a route-map key. */
  datatype RouteKey = RouteKey(verb: string, path: string)

  /** The key check of Router.Routes: split on runs of white space; exactly
      two tokens are a method and a path, anything else is malformed. */
  function ParseRouteKey(key: string): (r: Option<RouteKey>)
    ensures r.Some? <==> |Split(key)| == 2
    ensures r.Some? ==> [r.value.verb, r.value.path] == Split(key)
  {
    var parts := Split(key);
    if |parts| != 2 then None else Some(RouteKey(parts[0], parts[1]))
  }

  /** The route that Routes registers for one well-formed key. */
  function RouteFor(key: string, endpoint: EndpointId, node: Router): Route
    requires ParseRouteKey(key).Some?
  {
    var k := ParseRouteKey(key).value;
    Route(k.verb, k.path, Handler(endpoint, k.path, node))
  }

  function RoutesFor(order: seq<string>, m: map<string, EndpointId>, node: Router): seq<Route>
    requires forall k :: k in order ==> k in m && ParseRouteKey(k).Some?
  {
    if order == [] then []
    else RoutesFor(order[..|order| - 1], m, node) + [RouteFor(order[|order| - 1], m[order[|order| - 1]], node)]
  }

  lemma RoutesForAppend(order: seq<string>, key: string, m: map<string, EndpointId>, node: Router)
    requires forall k :: k in order ==> k in m && ParseRouteKey(k).Some?
    requires key in m && ParseRouteKey(key).Some?
    ensures RoutesFor(order + [key], m, node) == RoutesFor(order, m, node) + [RouteFor(key, m[key], node)]
  {
    assert (order + [key])[..|order|] == order;
  }

  /** A method and a path separated by any non-empty run of white space,
      with any white space around them, form a valid key naming them; so
      `"GET  /ping"` registers GET on /ping. */
  lemma ParseSpacedKey(pre: string, verb: string, mid: string, path: string, post: string)
    requires AllSpace(pre) && AllSpace(mid) && AllSpace(post) && mid != []
    requires verb != [] && NoSpace(verb) && path != [] && NoSpace(path)
    ensures ParseRouteKey(pre + verb + mid + path + post) == Some(RouteKey(verb, path))
  {
    SplitTwoWords(pre, verb, mid, path, post);
  }

  /** Writing a parsed key back with one space reads back the same. */
  lemma ParseRouteKeyRoundTrip(key: string)
    requires ParseRouteKey(key).Some?
    ensures var k := ParseRouteKey(key).value;
            ParseRouteKey(k.verb + " " + k.path) == Some(k)
  {
    var k := ParseRouteKey(key).value;
    assert Split(key)[0] == k.verb && Split(key)[1] == k.path;
    assert AllSpace(" ");
    ParseSpacedKey([], k.verb, " ", k.path, []);
    assert [] + k.verb + " " + k.path + [] == k.verb + " " + k.path;
  }

  /** Keys of the package's own RouteMap example: any run of spaces
      between the method and the path. */
  lemma RouteMapExampleKeys()
    ensures ParseRouteKey("GET  /ping") == Some(RouteKey("GET", "/ping"))
    ensures ParseRouteKey("HEAD /api/check") == Some(RouteKey("HEAD", "/api/check"))
  {
    assert AllSpace("  ") && AllSpace(" ");
    assert "GET  /ping" == [] + "GET" + "  " + "/ping" + [];
    ParseSpacedKey([], "GET", "  ", "/ping", []);
    assert "HEAD /api/check" == [] + "HEAD" + " " + "/api/check" + [];
    ParseSpacedKey([], "HEAD", " ", "/api/check", []);
  }

  /** Malformed keys: an empty key and a key with the path alone. */
  lemma MalformedKeyExamples()
    ensures ParseRouteKey("") == None
    ensures ParseRouteKey("  /ping ") == None
  {
    OneTokenKey();
  }

  lemma OneTokenKey()
    ensures Split("  /ping ") == ["/ping"]
  {
    assert AllSpace("  ") && AllSpace(" ");
    assert "  /ping " == "  " + ("/ping" + " ");
    SplitSkipsSpaces("  ", "/ping" + " ");
    SplitTakesWord("/ping", " ");
    assert " " == " " + [];
    SplitSkipsSpaces(" ", []);
  }

  /** A key with a third token, such as "GET /a /b", is malformed. */
  lemma ThreeTokenKeyRejected(a: string, b: string, c: string)
    requires a != [] && NoSpace(a) && b != [] && NoSpace(b) && c != [] && NoSpace(c)
    ensures ParseRouteKey(a + " " + b + " " + c) == None
  {
    var sp := " ";
    assert AllSpace(sp);
    var rest := b + sp + c;
    assert rest == [] + b + sp + c + [];
    SplitTwoWords([], b, sp, c, []);
    assert a + " " + b + " " + c == a + (sp + rest);
    SplitTakesWord(a, sp + rest);
    SplitSkipsSpaces(sp, rest);
  }

  /** The middleware lists of `nodes`, as they are now. */
  ghost function MiddlewareOf(nodes: seq<Router>): (r: seq<seq<Label>>)
    reads set n | n in nodes
    ensures |r| == |nodes|
    ensures forall i :: 0 <= i < |nodes| ==> r[i] == nodes[i].middleware
  {
    if nodes == [] then [] else [nodes[0].middleware] + MiddlewareOf(nodes[1..])
  }

  /** Every ancestor of a linked router is linked, and its own ancestors are
      the ones above it in the chain. */
  lemma {:induction false} AncestorLinked(a: Router, k: nat)
    requires a.Linked() && k < |a.ancestors|
    ensures a.ancestors[k].Linked() && a.ancestors[k].ancestors == a.ancestors[k + 1..]
    decreases |a.ancestors|
  {
    if k > 0 {
      AncestorLinked(a.parent, k - 1);
    }
  }

  /** The chain of a linked router holds no router twice: the walk up the
      parent pointers ends at the root without meeting a router again. */
  lemma ChainDistinct(a: Router)
    requires a.Linked()
    ensures forall i, j :: 0 <= i < j < |a.Chain()| ==> a.Chain()[i] != a.Chain()[j]
  {
    forall i | 0 <= i < |a.Chain()|
      ensures |a.Chain()[i].ancestors| == |a.ancestors| - i
    {
      if i > 0 {
        AncestorLinked(a, i - 1);
      }
    }
  }

  /** The body of the closure built by applyMiddleware, run on every call:
      from router `r` up to the root, each router's middleware wraps the
      endpoint from its last element to its first. */
  method ApplyMiddleware(e: Endpoint, r: Router) returns (composed: Endpoint)
    requires r.Linked()
    ensures composed == ComposeChain(MiddlewareOf(r.Chain()), e)
  {
    composed := e;
    var node: Router := r;
    while true
      invariant node.Linked()
      invariant ComposeChain(MiddlewareOf(node.Chain()), composed) == ComposeChain(MiddlewareOf(r.Chain()), e)
      decreases |node.ancestors|
    {
      ghost var before := composed;
      var i := |node.middleware|;
      while i > 0
        invariant 0 <= i <= |node.middleware|
        invariant composed == WrapAll(node.middleware[i..], before)
      {
        i := i - 1;
        assert node.middleware[i..][1..] == node.middleware[i + 1..];
        composed := Wrap(node.middleware[i], composed);
      }
      assert node.middleware[0..] == node.middleware;
      assert MiddlewareOf(node.Chain())[1..] == MiddlewareOf(node.ancestors);
      if node.parent == null {
        break;
      }
      node := node.parent;
    }
  }

  /** A call of a registered handler: compose the endpoint from the current
      middleware lists, run it (`run` stands for what the endpoint and its
      middleware do), and answer with the registering router's current
      DumpErrors. */
  method ServeHandler<V, E, H>(h: Handler, run: Endpoint -> Outcome<V, E>,
                               translate: (E, bool) -> H, statusOf: H -> int) returns (resp: Response<V, H>)
    requires h.node.Linked()
    ensures resp == Respond(run(ComposeChain(MiddlewareOf(h.node.Chain()), Raw(h.endpoint))),
                            h.node.dumpErrors, translate, statusOf)
  {
    var composed := ApplyMiddleware(Raw(h.endpoint), h.node);
    resp := Respond(run(composed), h.node.dumpErrors, translate, statusOf);
  }

  /** With no middleware on the chain, a handler answers 200 with exactly
      the raw endpoint's result whenever the endpoint returns a nil error. */
  lemma PlainEndpointPassesThrough<V, E, H>(lists: seq<seq<Label>>, id: EndpointId, result: V,
                                            run: Endpoint -> Outcome<V, E>, dumpErrors: bool,
                                            translate: (E, bool) -> H, statusOf: H -> int)
    requires forall i :: 0 <= i < |lists| ==> lists[i] == []
    requires run(Raw(id)) == Returned(result, None)
    ensures Respond(run(ComposeChain(lists, Raw(id))), dumpErrors, translate, statusOf)
         == Response(StatusOK, ResultBody(result))
  {
    NoMiddlewareIsRaw(lists, Raw(id));
  }

  /** The not-found handler the package installs: the last option's
      handler, if it is not nil. */
  function NotFoundAfter(options: seq<RouterOption>): (h: Option<HandlerId>)
    ensures h.Some? ==> exists i :: 0 <= i < |options| && options[i].handler == h
  {
    if options == [] then None else options[|options| - 1].handler
  }

  /** NewRouter: a root router on a fresh engine, the options applied in
      order, then the JSON 404 handler installed unless an option gave a
      non-nil not-found handler. */
  method NewRouter(options: seq<RouterOption>) returns (r: Router)
    ensures fresh(r) && fresh(r.engine) && r.Linked()
    ensures r.parent == null && r.middleware == [] && !r.dumpErrors
    ensures r.notFound == NotFoundAfter(options)
    ensures r.engine.routes == []
    ensures r.engine.noRoute == if r.notFound == None then JsonNotFound else CustomNotFound(r.notFound.value)
    ensures NoRouteReply(r.engine.noRoute) ==
      if NotFoundAfter(options) == None then JsonReply(DefaultNotFoundReply())
      else Delegated(NotFoundAfter(options).value)
  {
    var engine := new Engine();
    r := new Router.Root(engine);
    for i := 0 to |options|
      invariant r.notFound == NotFoundAfter(options[..i])
      invariant r.middleware == [] && !r.dumpErrors
      invariant engine.routes == [] && engine.noRoute == GinDefault
    {
      r.ApplyOption(options[i]);
      assert options[..i + 1][..i] == options[..i];
    }
    assert options[..|options|] == options;
    if r.notFound == None {
      engine.SetNoRoute(JsonNotFound);
    } else {
      engine.SetNoRoute(CustomNotFound(r.notFound.value));
    }
  }

  /** A later option overrides an earlier one, and without options the
      JSON 404 handler is used. */
  lemma LastNotFoundOptionWins(options: seq<RouterOption>, h: Option<HandlerId>)
    ensures NotFoundAfter(options + [WithNotFoundHandler(h)]) == h
    ensures NotFoundAfter([]) == None
  {
  }

  /** A Request: its route pattern and the per-request metadata store. */
  class Request<K(==, !new), V> {
    const route: string
    var meta: map<K, V>

    constructor (route: string)
      ensures this.route == route && meta == map[]
      ensures forall k :: Get(k) == None
    {
      this.route := route;
      meta := map[];
    }

    /** Request.Get: the value stored for `key`, or None (nil) if there is none. */
    function Get(key: K): (r: Option<V>)
      reads this
      ensures r.Some? <==> key in meta
      ensures r.Some? ==> r.value == meta[key]
    {
      if key in meta then Some(meta[key]) else None
    }

    /** Request.Set: stores `val` for `key`, replacing any earlier value and
        leaving every other key as it was. */
    method Set(key: K, val: V)
      modifies this
      ensures meta == old(meta)[key := val]
      ensures Get(key) == Some(val)
      ensures forall k :: k != key ==> Get(k) == old(Get(k))
    {
      meta := meta[key := val];
    }
  }

  /** The chain of a group made directly from a root router. */
  lemma GroupOfRoot(g: Router)
    requires g.Linked() && g.parent != null && g.parent.parent == null
    ensures MiddlewareOf(g.Chain()) == [g.middleware, g.parent.middleware]
  {
    assert g.Chain() == [g, g.parent];
  }

  /** The package's simple GET test: one route, no middleware, the endpoint
      returns a result and a nil error; the answer is 200 with that result. */
  method SimpleGetScenario<V, E, H>(id: EndpointId, result: V, run: Endpoint -> Outcome<V, E>,
                                    translate: (E, bool) -> H, statusOf: H -> int) returns (resp: Response<V, H>)
    requires run(Raw(id)) == Returned(result, None)
    ensures resp == Response(StatusOK, ResultBody(result))
  {
    var r := NewRouter([]);
    r.Get("/hello", id);
    var h := r.engine.routes[0].handler;
    resp := ServeHandler(h, run, translate, statusOf);
    assert MiddlewareOf(h.node.Chain()) == [[]];
    PlainEndpointPassesThrough([[]], id, result, run, r.dumpErrors, translate, statusOf);
  }

  /** The package's group middleware test: middleware used on one group
      runs for that group's route and never for a sibling group's. */
  method SiblingGroupsScenario(m: Label, e1: EndpointId, e2: EndpointId)
    returns (withMiddleware: Endpoint, withoutMiddleware: Endpoint)
    ensures Trace(withMiddleware) == [Pre(m), Call(e1), Post(m)]
    ensures withoutMiddleware == Raw(e2)
  {
    var r := NewRouter([]);
    var a := r.Group();
    a.Use([m]);
    assert a.middleware == [m];
    a.Get("/withmiddleware", e1);
    var b := r.Group();
    b.Get("/withoutmiddleware", e2);
    var h1 := r.engine.routes[0].handler;
    var h2 := r.engine.routes[1].handler;
    assert h1 == Handler(e1, "/withmiddleware", a) && h2 == Handler(e2, "/withoutmiddleware", b);
    withMiddleware := ApplyMiddleware(Raw(h1.endpoint), h1.node);
    GroupOfRoot(a);
    assert a.middleware == [m] && r.middleware == [];
    OneMiddlewareTrace(MiddlewareOf(a.Chain()), m, e1);
    withoutMiddleware := ApplyMiddleware(Raw(h2.endpoint), h2.node);
    GroupOfRoot(b);
    assert b.middleware == [] && r.middleware == [];
    NoMiddlewareIsRaw(MiddlewareOf(b.Chain()), Raw(e2));
  }

  /** A `Use` on a router that is not on `a`'s chain (a sibling group, or a
      group below `a`) leaves the middleware lists `a`'s handlers compose
      unchanged, so it never takes part in a call of a route of `a`. */
  method UseOffChain(a: Router, b: Router, ms: seq<Label>)
    requires b !in a.Chain()
    modifies b
    ensures b.middleware == old(b.middleware) + ms
    ensures MiddlewareOf(a.Chain()) == old(MiddlewareOf(a.Chain()))
  {
    b.Use(ms);
  }

  /** A `Use` on the router at position j of `a`'s chain changes exactly
      that router's list among the lists `a`'s handlers compose. */
  method UseOnChain(a: Router, b: Router, ghost j: nat, ms: seq<Label>)
    requires a.Linked() && j < |a.Chain()| && b == a.Chain()[j]
    modifies b
    ensures b.middleware == old(b.middleware) + ms
    ensures MiddlewareOf(a.Chain()) == old(MiddlewareOf(a.Chain()))[j := old(b.middleware) + ms]
  {
    ChainDistinct(a);
    b.Use(ms);
  }

  /** Middleware used on any router of a route's chain after the route was
      registered wraps that route on its next call: just inside that
      router's earlier middleware and outside everything below it. */
  method LateUseOnChain(h: Handler, b: Router, ghost j: nat, ms: seq<Label>) returns (composed: Endpoint)
    requires h.node.Linked() && j < |h.node.Chain()| && b == h.node.Chain()[j]
    modifies b
    ensures composed == WrapAll(PreOrder(old(MiddlewareOf(h.node.Chain()))[j + 1..]) + old(b.middleware) + ms
                                + PreOrder(old(MiddlewareOf(h.node.Chain()))[..j]), Raw(h.endpoint))
  {
    ghost var lists := MiddlewareOf(h.node.Chain());
    UseOnChain(h.node, b, j, ms);
    composed := ApplyMiddleware(Raw(h.endpoint), h.node);
    ComposeChainIsWrapAll(MiddlewareOf(h.node.Chain()), Raw(h.endpoint));
    LaterUseOnAncestor(lists, j, ms);
  }

  /** The package's not-found tests: without options an unmatched request
      gets the JSON 404 reply; with a handler, that handler answers it. */
  method NotFoundScenario(h: HandlerId) returns (plain: NoRouteAnswer, custom: NoRouteAnswer)
    ensures plain == JsonReply((404, ErrorValue(404, "not_found", "url not found")))
    ensures custom == Delegated(h)
  {
    var r := NewRouter([]);
    plain := NoRouteReply(r.engine.noRoute);
    var s := NewRouter([WithNotFoundHandler(Some(h))]);
    custom := NoRouteReply(s.engine.noRoute);
  }

  /** Middleware used on the root after a group's route was registered
      still wraps that route on its next call. */
  method LateUseScenario(m: Label, id: EndpointId) returns (composed: Endpoint)
    ensures Trace(composed) == [Pre(m), Call(id), Post(m)]
  {
    var r := NewRouter([]);
    var g := r.Group();
    g.Get("/late", id);
    r.Use([m]);
    var h := r.engine.routes[0].handler;
    assert h.node == g;
    composed := ApplyMiddleware(Raw(id), g);
    GroupOfRoot(g);
    assert r.middleware == [m];
    OneMiddlewareTrace(MiddlewareOf(g.Chain()), m, id);
  }

  /** Unlike middleware, DumpErrors is copied when the group is made: a
      later change on the parent does not reach the group. */
  method DumpErrorsCopiedAtGroup() returns (parentFlag: bool, groupFlag: bool)
    ensures parentFlag && !groupFlag
  {
    var r := NewRouter([]);
    var g := r.Group();
    r.dumpErrors := true;
    parentFlag, groupFlag := r.dumpErrors, g.dumpErrors;
  }

  /** The metadata store: a value set is read back, a second Set
      overwrites it, and a key never set reads as nil. */
  method MetaStoreScenario<K(==, !new), V>(k1: K, k2: K, v1: V, v2: V)
    returns (first: Option<V>, second: Option<V>, other: Option<V>)
    requires k1 != k2
    ensures first == Some(v1) && second == Some(v2) && other == None
  {
    var req := new Request<K, V>("/users/:id");
    req.Set(k1, v1);
    first := req.Get(k1);
    req.Set(k1, v2);
    second := req.Get(k1);
    other := req.Get(k2);
  }
}
