# jsonrest router core, modelled in Dafny

Package `jsonrest` lets an application register endpoints of the shape
"context and request in, result or error out" on a router. Routers form a
tree: `Group` makes a child router and `Use` adds middleware to a router.
When a registered endpoint is called, it is first wrapped by the middleware
of the router it was registered on and of every ancestor of that router.
The result is then answered as JSON: status 200 with the result, the
translated error's status, or status 500 for a panic.

The model covers:

- the router tree and the composition of middleware (`Jsonrest.Router`,
  `Jsonrest.ApplyMiddleware`, module `Composition`);
- route-map key parsing (`Jsonrest.ParseRouteKey`, `Jsonrest.Router.Routes`,
  with the whitespace splitter of Go's `strings.Fields` in module `Fields`);
- router construction and its options (`Jsonrest.NewRouter`);
- the per-request metadata store (`Jsonrest.Request`);
- the choice of response and the `BindBody` error message (module `Render`).

Middleware and endpoints are opaque labels. A composed endpoint is a term
`Raw(id)` or `Wrap(mw, inner)`. `Trace` gives the order in which the pieces
run when every middleware does its pre-call work, calls the endpoint it
wraps once, and then does its post-call work.

The parent chain is a `const parent` plus a ghost list `ancestors`.
`Linked()` ties the two together and makes the chain finite and acyclic
(`ChainDistinct`).
The gin engine appears only as what the package gives it: a log of
registered routes (`Jsonrest.Engine`) and the choice of not-found handler.

Some functions live in package files that are not part of this model:
`translateError`, `jsonErrorDetails`, the HTTP error type and its `Status`,
and `unknownError`. They are function parameters or type parameters here.
The values built by `BadRequest(msg).Wrap(err)` and `Error(status, code,
message)` are symbolic datatype terms.

Three behaviours of the code a reader may not expect:

- `Group` copies `DumpErrors` from its parent when the group is made
  (jsonrest.go:187, `DumpErrorsCopiedAtGroup`). Only middleware is looked up
  through the parent at call time.
- `Routes` checks each route-map key as it reaches it in map order and
  panics at the first malformed one (jsonrest.go:204-210). Keys reached
  before it stay registered (`Router.Routes` returns that key).
- The default not-found reply is written with gin's `c.JSON(404, ...)`
  (jsonrest.go:307), not through the package's own JSON writer.

## Model

| member | source | states |
|---|---|---|
| `Fields.Split` | jsonrest.go:205 | every token is non-empty and holds no white space |
| `Fields.SplitKeepsEveryNonSpace` | jsonrest.go:205 | the tokens, concatenated, are exactly the key's non-space characters in order |
| `Fields.SplitSkipsSpaces` | jsonrest.go:205 | leading white space of any length does not change the tokens |
| `Fields.SplitTakesWord` | jsonrest.go:205 | a space-free word ending at white space or at the end of the string is one token |
| `Fields.SplitTwoWords` | jsonrest.go:205 | two words separated by any non-empty run of white space, with optional white space around them, split into exactly those two words |
| `Composition.ComposeChainIsWrapAll` | jsonrest.go:247-257 | the nested walk (up the chain, each list last-to-first) equals one wrapping by all middleware in pre-call order: root first, each list in registration order |
| `Composition.TraceWrapAll` | jsonrest.go:248-250 | one router's list runs its pre-call steps in registration order and its post-call steps in reverse order around the inner endpoint |
| `Composition.ComposedTrace` | jsonrest.go:247-259 | a call runs every pre-call step in that order, then the raw endpoint once, then every post-call step |
| `Composition.PreEventsAt` | jsonrest.go:247-259 | the i-th pre-call step belongs to the i-th middleware in pre-call order |
| `Composition.PostEventsAt` | jsonrest.go:247-259 | post-call steps run in exactly the reverse of the pre-call order |
| `Composition.AncestorsRunFirst` | jsonrest.go:247-257 | all middleware from chain position j up to the root runs before any middleware below position j |
| `Composition.PreOrderMembers` | jsonrest.go:247-257 | a middleware takes part in a call iff it is in the list of a router on the chain |
| `Composition.NoMiddlewareIsRaw` | jsonrest.go:247-259 | with every list on the chain empty, the composed endpoint is the raw endpoint |
| `Composition.LaterUseOnAncestor` | jsonrest.go:243-259 | appending middleware to an ancestor's list puts it after that ancestor's earlier middleware and before everything registered below it |
| `Composition.NestedGroupsTrace` | jsonrest.go:247-259 | two nested groups below a root with no middleware, the outer group with m1 and the inner group with m2: m1 pre, m2 pre, endpoint, m2 post, m1 post |
| `Render.Respond` | jsonrest.go:266-284 | a nil error gives 200 with the result; an error gives the translated error with its status; a panic gives 500 with unknownError; each case iff its condition |
| `Render.DumpErrorsOnlyAffectsErrors` | jsonrest.go:278-284 | DumpErrors changes nothing about a successful call or a panic |
| `Render.ResultIgnoredOnError` | jsonrest.go:278-282 | when an error is returned, the result returned with it is ignored |
| `Render.BindMessage` | jsonrest.go:35-38 | the message starts with "malformed or unexpected json" and is exactly that text iff the details are empty; otherwise ": " follows it |
| `Render.DetailsRoundTrip` | jsonrest.go:35-38 | the details can be read back from the message, so different details give different messages |
| `Render.BindBody` | jsonrest.go:32-43 | a nil bind error gives nil; any other error gives a bad request that wraps it, with a message whose details are jsonErrorDetails of that error |
| `Render.BindBodyOfBadJson` | jsonrest_test.go:49-58 | the test's invalid body gives the fixed text, a colon and the decoder's offset-8 details, as the test expects |
| `Render.DefaultNotFoundReply` | jsonrest.go:305-308 | the default not-found reply is status 404 with Error(404, "not_found", "url not found") |
| `Jsonrest.Engine.constructor` | jsonrest.go:159 | a new engine has no routes and gin's own not-found behaviour |
| `Jsonrest.Engine.Handle` | jsonrest.go:233 | the route is appended to the registration log and nothing else changes |
| `Jsonrest.Engine.SetNoRoute` | jsonrest.go:166-170 | the not-found choice is replaced and the routes are kept |
| `Jsonrest.Router.Root` | jsonrest.go:160 | a root router: no parent, no middleware, DumpErrors off, no not-found override |
| `Jsonrest.Router.Child` | jsonrest.go:184-188 | a child shares the parent's engine, copies DumpErrors, has no middleware and has the parent's chain above it |
| `Jsonrest.Router.ApplyOption` | jsonrest.go:151-155 | WithNotFoundHandler sets the not-found handler (nil included) and nothing else |
| `Jsonrest.Router.Use` | jsonrest.go:176-178 | the list becomes the old list followed by the new middleware in order; DumpErrors, the not-found handler, the parent and every other router are unchanged |
| `Jsonrest.Router.Group` | jsonrest.go:183-189 | a fresh router whose parent is the caller, on the same engine, with empty middleware and the caller's DumpErrors; the caller is unchanged |
| `Jsonrest.Router.Handle` | jsonrest.go:230-234 | one route is registered, holding the raw endpoint, the path and the registering router; the middleware is not fixed here |
| `Jsonrest.Router.Get` | jsonrest.go:215-217 | Handle with method GET |
| `Jsonrest.Router.Head` | jsonrest.go:220-222 | Handle with method HEAD |
| `Jsonrest.Router.Post` | jsonrest.go:225-227 | Handle with method POST |
| `Jsonrest.Router.Routes` | jsonrest.go:203-212 | keys are visited in some order without repeats; each well-formed key registers its method and path; the first malformed key stops the loop and is returned; no key is returned iff every key is well formed, and then every key is registered |
| `Jsonrest.ParseRouteKey` | jsonrest.go:205-209 | a key is accepted iff it splits into exactly two tokens, and then the method and path are those tokens |
| `Jsonrest.ParseSpacedKey` | jsonrest.go:193-198 | a method and a path separated by any run of white space, with white space allowed around them, parse to that method and path |
| `Jsonrest.ParseRouteKeyRoundTrip` | jsonrest.go:205-209 | writing a parsed key back with one space parses to the same method and path |
| `Jsonrest.RouteMapExampleKeys` | jsonrest.go:193-198 | "GET  /ping" and "HEAD /api/check" from the RouteMap example are accepted |
| `Jsonrest.MalformedKeyExamples` | jsonrest.go:205-207 | an empty key and a key with a path alone are rejected |
| `Jsonrest.ThreeTokenKeyRejected` | jsonrest.go:205-207 | a key with a third token is rejected |
| `Jsonrest.ApplyMiddleware` | jsonrest.go:242-261 | the walk returns the chain's composition built from the routers' current middleware lists |
| `Jsonrest.ServeHandler` | jsonrest.go:265-285 | a call answers with Respond applied to the outcome of the endpoint composed now, using the registering router's DumpErrors as it is now |
| `Jsonrest.PlainEndpointPassesThrough` | jsonrest.go:247-284 | with no middleware on the chain and a nil error, the answer is 200 with exactly the raw endpoint's result |
| `Jsonrest.NotFoundAfter` | jsonrest.go:162-164 | an installed not-found handler is one that some option gave |
| `Jsonrest.NewRouter` | jsonrest.go:158-173 | a fresh root router on a fresh engine; options applied in order; the JSON 404 handler is installed iff no option is given or the last WithNotFoundHandler given is nil, else that last handler; an unmatched request is then answered with the JSON 404 reply or delegated to that handler |
| `Jsonrest.NoRouteReply` | jsonrest.go:166-170 | an unmatched request gets the JSON reply exactly under the JSON not-found choice, and that reply is 404 with code "not_found" and message "url not found"; it is delegated exactly under a user handler, to that handler |
| `Jsonrest.NotFoundScenario` | jsonrest_test.go:111-136 | a router made without options answers an unmatched request 404 with "not_found" and "url not found"; one made with a handler hands it to that handler |
| `Jsonrest.LastNotFoundOptionWins` | jsonrest.go:162-164 | the last WithNotFoundHandler wins, and with no options there is no override |
| `Jsonrest.SimpleGetScenario` | jsonrest_test.go:20-29 | a GET route with no middleware whose endpoint succeeds answers 200 with its result |
| `Jsonrest.SiblingGroupsScenario` | jsonrest_test.go:215-239 | middleware on one group wraps that group's route and not its sibling's |
| `Jsonrest.LateUseScenario` | jsonrest.go:243-259 | middleware added to the root after a group's route was registered wraps that route on the next call |
| `Jsonrest.ChainDistinct` | jsonrest.go:247-257 | the routers the walk up the parent pointers visits are pairwise distinct |
| `Jsonrest.UseOnChain` | jsonrest.go:176-178 | a Use on the router at position j of a router's chain replaces exactly the j-th of the lists its handlers compose by that list followed by the new middleware |
| `Jsonrest.LateUseOnChain` | jsonrest.go:243-259 | middleware used on any router of a route's chain after the route was registered wraps it on the next call, just inside that router's earlier middleware and outside everything below it |
| `Jsonrest.UseOffChain` | jsonrest.go:243-259 | a Use on a router that is not on a router's chain, such as a sibling group, leaves the middleware lists that router's handlers compose unchanged |
| `Jsonrest.DumpErrorsCopiedAtGroup` | jsonrest.go:183-189 | setting DumpErrors on a parent after Group does not change the group's |
| `Jsonrest.MetaStoreScenario` | jsonrest.go:96-99 | Set then Get reads the value back, a second Set overwrites it, and a key never set reads as nil |
| `Jsonrest.Request.constructor` | jsonrest.go:274-277 | a new request carries the route's path and an empty store: every Get is nil |
| `Jsonrest.Request.Get` | jsonrest.go:55-59 | the value stored for the key if one was stored, and nothing otherwise |
| `Jsonrest.Request.Set` | jsonrest.go:96-99 | afterwards Get of the key is the new value and Get of every other key is as before |

## Left out

- The gin engine: path matching, `ServeHTTP`, and gin's own checks when a route is registered. It is modelled only as a log of registered routes and the not-found choice.
- `BasicAuth`, `Header`, `Param`, `Query`, `Raw`, `URL`, `Method` and `SetResponseHeader`: they only wrap net/http and gin. `Route` is the `route` field of `Request`.
- `FormFile`: multipart parsing is I/O.
- `sendJSON`: JSON encoding, the two-space indent, the content-type header and writing the response. So is a panic inside `sendJSON` itself, which would be recovered after a partial write.
- Panic logging and the stack trace printed on a panic.
- `sync.Map`: the metadata store is a plain sequential map. Concurrent requests are not modelled.
- `Jsonrest.Request`: its keys are values of a type with equality (`K(==)`). Go's `Get` and `Set` take any `interface{}` key, and `Load` or `Store` panics on a key whose dynamic type cannot be compared (a slice, map or func); inside an endpoint the recover turns that into a 500. That panic is not modelled.
- `translateError`, `Error`, `BadRequest`, `Wrap`, `jsonErrorDetails`, `unknownError`: defined outside this model. They are parameters or symbolic terms with no invented behaviour.
- The cancellation context passed to endpoints. The `Request` given to the endpoint is not built in `ServeHandler`: `run` stands for the whole call.
- Options other than `WithNotFoundHandler`. A caller can write any `func(*Router)`; only the package's own option is modelled.
- Go map iteration order in `Routes`. The model picks keys nondeterministically, and its contract holds for every order.
- Go strings are bytes. Keys here are sequences of Unicode scalar values, so keys that are not valid UTF-8 are not modelled.
- `Jsonrest.Request.Get`: Go's `Get` drops the found flag of `Load`, so it returns nil both for a key never set and for a key set to nil. The model's `Option` keeps these two apart; a stored nil is `Some` of that value.
- `Composition.Trace`: it describes middleware that calls the endpoint it wraps exactly once. Middleware that answers without calling it, or calls it twice, is outside what `Trace` shows. The composed term is still exact for such middleware.
