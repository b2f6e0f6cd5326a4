# Router dispatch model (deno-framework `src/router.ts`)

This project models the router of a small Deno HTTP framework and proves properties of the model. The router has two parts:

- **The route table.** An ordered list of middleware entries. A map from a lowercase method key (`get`, `post`, `put`, `patch`, `delete`) to an ordered list of route entries. `use` appends to the middleware list. The verb methods are meant to append to the list under the verb's lowercase key, but as written they throw (see "## Findings").
- **The dispatch walk.** `handle` copies the middleware, followed by the routes under the lowercased request method, into a per-request queue. Its inner `next` callback then shifts entries off that queue:
  - an entry whose matcher rejects `req.url` is dropped;
  - for a matching entry, `req.params` is set from the match and the handler is invoked;
  - `next(error)` or a synchronous throw gives the fixed 500 response;
  - an exhausted queue gives the fixed 404 response.

Modules:

- `Wrappers` (`wrappers.dfy`): `Option` and `Result`.
- `RouteTable` (`route_table.dfy`): entries, the verbs and their keys, the fresh route map, `push`, lowercasing, and the per-request queue.
- `Walk` (`walk.dfy`): the request and response records, handler outcomes, the `next` recursion as the function `Run`, and the lemmas about it.
- `Routing` (`routing.dfy`): the `Router` class. Its fields are updated in place by the registration methods. `Handle` walks the queue with a loop and is proved equal to `Run`.

Abstractions:

- **Handlers** are identities (`HandlerId`). What a handler does is a parameter `act: (queue position, request) -> Outcome`. The outcome is one of:
  - `Respond(body)`: sends a body;
  - `Continue`: calls `next()`;
  - `ContinueErr`: calls `next(error)` with a truthy error;
  - `Throw`: throws synchronously;
  - `Stall`: does none of these.
- **The pattern compiler** (`match(path)` at registration) is a parameter `compiles: string -> bool`. A pattern it rejects makes `use(p, h)` and the corrected verb registration throw the `MalformedPattern` fault. The verb methods as written throw the `undefined` list fault first, whatever the pattern.
- **The path matcher** (`match` from path_to_regexp) is a parameter `m: (pattern, url) -> Option<Params>`. The model assumes nothing about it. In particular, it does not assume that the root pattern `/` matches every url. Matching is against the full `req.url`, query string included.
- **The response** is its `status` field (200 by default) plus a log of `Sent(status, body)` transmissions.

## Model

| member | source | states |
|---|---|---|
| `RouteTable.EmptyTable` | src/router.ts:42-48 | the fresh route map has exactly the keys get, post, put, patch, delete, each bound to an empty list |
| `Routing.Router.constructor` | src/router.ts:40-48 | a new router has no middleware, its route map is the fresh map, and the class invariant (exactly those five keys) holds |
| `Routing.Router.Use` | src/router.ts:50-62 | `use(h)` appends `{path: '/', handler: h}` at the end of the middleware (the root pattern always compiles); earlier entries and the route map are unchanged, so the class invariant is kept |
| `Routing.Router.UseAt` | src/router.ts:50-62 | `use(p, h)` succeeds exactly when `p` compiles; it then appends `{path: p, handler: h}` at the end of the middleware; a pattern that does not compile throws and leaves the middleware as it was; the route map is never changed, so the class invariant is kept |
| `RouteTable.Pushed` | src/router.ts:66 | `routes[key].push({…, match: match(path)})` succeeds exactly when the key exists and the pattern compiles; it then adds the route at the end of that list, keeps the key set, and leaves every other list alone; a missing key throws first, and otherwise a pattern that does not compile throws |
| `Routing.Router.Register` | src/router.ts:65-88 | a push onto `routes[key]` changes the route map exactly as `Pushed` does and never touches the middleware; the key set is always kept; on either fault it throws and leaves the map unchanged |
| `Routing.Router.AddRouteAsWritten` | src/router.ts:65-88 | `get`/`post`/`put`/`patch`/`delete` as written push under `GET`/`POST`/…; on any router the constructor built, this always fails with the `undefined` list fault, whatever the pattern, and the table is unchanged |
| `Routing.Router.AddRoute` | src/router.ts:65-88 | corrected registration under the lowercase key: it succeeds exactly when the pattern compiles (otherwise it throws and the table is unchanged); on success it appends the route at the end of that verb's list, and the queue of a request with that verb's method token ends with the new route |
| `RouteTable.ToLower` | src/router.ts:91 | `toLowerCase`: same length, every character lowercased |
| `RouteTable.TokenLowersToKey` | src/router.ts:91 | lowercasing a verb's method token (`GET`) gives the key `handle` reads (`get`), and the token itself is not a key of the route map |
| `RouteTable.AsWrittenRouteNeverQueued` | src/router.ts:66 | on a five-key route map the as-written push under `GET` throws, whether or not the pattern compiles, and a `GET` request's queue is the middleware plus the untouched `get` list |
| `RouteTable.Queue` | src/router.ts:91-94 | the dispatch queue is all middleware followed by `routes[lowercase(method)]`, in registration order; it is a fault exactly when the route map has no such key |
| `RouteTable.PushedRouteQueuedLast` | src/router.ts:94 | a route pushed under the key a request method lowercases to is queued for that request last, after everything queued before |
| `RouteTable.UsedEntryQueuedBeforeRoutes` | src/router.ts:94 | a newly used middleware entry is queued for every known method, after the earlier middleware and before every route |
| `Walk.Incoming` | src/request.ts:15-21 | the request record copies the method and url of the transport request and has no params |
| `Walk.FreshResponse` | src/response.ts:12-14 | a new response has status 200 and has sent nothing |
| `Walk.Send` | src/response.ts:16-22 | `send` transmits the body once with the status current at the call, keeps the status, and keeps earlier transmissions |
| `Walk.ErrorHandler` | src/router.ts:119-122 | the error handler sets status 500 and sends `Server Error` once, whatever the error |
| `Walk.NotFoundHandler` | src/router.ts:124-127 | the not-found handler sets status 404 and sends `Not Found` once |
| `Walk.Run` | src/router.ts:96-115 | the walk from any cursor: exhaustion consumes the whole queue and gives exactly one 404 `Not Found`; an error gives exactly one 500 `Server Error` and stops right after the failing entry, however many entries remain; a handler's own response is the only transmission; a stalled request sends nothing; method and url are untouched |
| `Walk.InvokedWithinShifted` | src/router.ts:99-109 | every invoked entry is one that `stack.shift()` took off during this walk |
| `Walk.InvokedInOrder` | src/router.ts:99-109 | handlers run at strictly increasing queue positions, so each entry at most once and never out of order |
| `Walk.InvokedEntriesMatch` | src/router.ts:103-109 | each invoked handler's entry is one whose matcher accepted `req.url`, and the handler saw exactly that match's params |
| `Walk.SkippedEntriesDoNotMatch` | src/router.ts:103-105 | every entry taken off the queue whose handler did not run is one whose matcher rejected `req.url` |
| `Walk.FirstMatchIsInvoked` | src/router.ts:99-109 | the first entry whose matcher accepts the url is the first one invoked, so an earlier general pattern shadows a later specific one |
| `Walk.NoMatchIsNotFound` | src/router.ts:99-105 | when no remaining entry matches, no handler runs, `req` is unchanged and the result is the 404 response |
| `Walk.ContinuedBeforeLast` | src/router.ts:96-112 | every invoked handler except the last called `next()` without an error, given the request carrying its own match's params |
| `Walk.LastOutcomeDecidesEnd` | src/router.ts:96-127 | the last handler's outcome decides the ending (its own response, 500 after `next(error)` or a throw, 404 after `next()`, nothing after a stall), and a responding handler's body is the one sent; with no handler invoked the ending is 404 |
| `Walk.ParamsAfterWalk` | src/router.ts:107-108 | after the walk, `req.params` holds the params of the last invocation, overwriting earlier ones; when no handler ran, the request is untouched, so on a request from `Incoming` `req.params` is still unset |
| `Routing.Router.Handle` | src/router.ts:90-116 | `handle` fails with the spread fault `Queue` reports exactly when the lowercased method has no key; otherwise its loop over the per-request copy of `Queue`'s result produces exactly the walk `Run` describes from cursor 0 with a fresh request; the route table is read, never changed |
| `Routing.SkipStep` | src/router.ts:103-105 | shifting a non-matching entry leaves the rest of the walk as it is |
| `Routing.ContinueStep` | src/router.ts:107-109 | a matching entry whose handler calls `next()` is recorded before the rest of the walk |
| `Routing.HaltStep` | src/router.ts:107-112 | a matching entry whose handler does anything but call `next()` ends the walk with that handler |
| `Routing.ExhaustStep` | src/router.ts:99-101 | shifting from an empty queue ends the walk in the 404 response |

Three behaviours of the code that the model keeps as they are:

- **Unknown method.** For a method other than the five, such as `HEAD` or `OPTIONS`, `this.routes[method]` is `undefined`, so the spread at src/router.ts:94 throws before any handler runs and no response is sent. Inherited object properties such as `constructor` are not iterable either, so they throw too. `Queue` and `Handle` return `Err` in that case.
- **Root middleware.** Whether a `/` middleware matches a url is decided by the path matcher (src/router.ts:60, 103), so the model leaves it to `m` and assumes nothing about it.
- **Double send.** `send` has no guard against a second call (src/response.ts:16-31). The model's outcomes never send twice, so `Run` proves at most one transmission only for those outcomes.

## Left out

- Pattern compilation and matching (path_to_regexp). Both are uninterpreted parameters: `compiles` says whether `match(path)` accepts a pattern at registration, and `m` applies a compiled pattern to a url at dispatch.
- UseAt, AddRoute: the compiler's error message is not modelled; a pattern that fails to compile is only the `MalformedPattern(path)` fault. The model also assumes that `m` is the matcher `match(path)` would have compiled for each pattern `compiles` accepts.
- Asynchronous handlers. A handler that awaits and calls `next` later, or whose promise rejects, escapes the `try` at src/router.ts:107-112. Only synchronous outcomes are modelled.
- Handlers that combine actions, such as sending and then calling `next()`, throwing after `next()`, setting `res.status` before sending, or writing `req.params`. Each handler has exactly one of the five outcomes.
- `ContinueErr` stands for `next(error)` with a truthy error. A falsy argument such as `next(null)` behaves like `Continue` and is modelled as `Continue`.
- ToLower: it lowercases ASCII letters only. JavaScript's `toLowerCase` also maps non-ASCII letters, but none of them lowercases to a string made of the letters of `get`, `post`, `put`, `patch` or `delete`, so which key `handle` reads is the same.
- Transport I/O: `request.respond`, headers, `json` and `JSON.stringify` (src/response.ts). A response is its status plus a log of `(status, body)` transmissions.
- Request fields other than method, url and params (headers, contentLength, body).
- src/middleware.ts `body`: async stream reading, `TextDecoder` and `JSON.parse`. Note that it returns without calling `next` when `contentLength` is null, which is the `Stall` outcome.
- src/app.ts: a forwarding facade plus `listen`, which is network I/O. Its own defects are not router logic: `use` drops its second argument, and `listen` passes an unbound `router.handle`.
- framework.ts: re-exports only.
- Concurrency: interleaving concurrent requests, and registering routes while requests are in flight.
- Object identity of the per-request queue. Sequences are values, so copying the table at src/router.ts:94 and consuming the copy cannot affect the table. This is immediate in the model and is not stated as a separate property.

## Findings

| source | as written | input that shows it | evidently intended | confidence | as-written member | corrected member |
|---|---|---|---|---|---|---|
| src/router.ts:66 | `get`, `post`, `put`, `patch` and `delete` push onto `this.routes.GET`, `.POST`, `.PUT`, `.PATCH`, `.DELETE` (lines 66, 71, 76, 81, 86). The route map only has lowercase keys (lines 43-47), so the property is `undefined` and `push` throws a TypeError | `Router().get('/ping', h)` on a fresh router throws; if the caller catches the throw, a later `GET /ping` request gets 404 because the `get` list is still empty | push onto the lowercase key, the one `handle` reads after `toLowerCase()` (lines 91, 94) | high; not executed | `Routing.Router.AddRouteAsWritten`, `RouteTable.AsWrittenRouteNeverQueued` | `Routing.Router.AddRoute`, `RouteTable.PushedRouteQueuedLast` |
