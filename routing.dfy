/**
 * The `Router` object: its middleware list and route map, updated in place
 * by the registration methods, and `handle`, which snapshots the queue for
 * one request and walks it with the `next` loop.
 */
module Routing {
  import opened Wrappers
  import opened RouteTable
  import opened Walk

  class Router {
    /** Middleware entries in registration order. */
    var middleware: seq<Route>
    /** Route lists keyed by method key, each in registration order. */
    var routes: Table

    /** The route map keeps exactly the keys a fresh router has; no operation adds or removes one. */
    ghost predicate Valid()
      reads this
    {
      routes.Keys == RouteKeys
    }

    /** `Router()`: no middleware, and the five lowercase keys each bound to an empty list. */
    constructor ()
      ensures Valid()
      ensures middleware == []
      ensures routes == EmptyTable()
      ensures forall k :: k in routes ==> routes[k] == []
    {
      middleware := [];
      routes := EmptyTable();
    }

    /** `use(handler)`: a root-path middleware entry at the end of the list; the pattern `/` always compiles. */
    method Use(handler: HandlerId)
      modifies this`middleware
      ensures old(Valid()) ==> Valid()
      ensures middleware == old(middleware) + [Route("/", handler)]
      ensures routes == old(routes)
    {
      middleware := middleware + [Route("/", handler)];
    }

    /**
     * `use(path, handler)`: a middleware entry for `path` at the end of the
     * list; `match(path)` runs before the push, so a pattern that does not
     * compile throws and the list is left as it was.
     */
    method UseAt(path: string, handler: HandlerId, compiles: Compiles) returns (r: Result<(), Fault>)
      modifies this`middleware
      ensures old(Valid()) ==> Valid()
      ensures r.Ok? <==> compiles(path)
      ensures r.Err? ==> r.error == MalformedPattern(path) && middleware == old(middleware)
      ensures r.Ok? ==> middleware == old(middleware) + [Route(path, handler)]
      ensures routes == old(routes)
    {
      if !compiles(path) {
        return Err(MalformedPattern(path));
      }
      middleware := middleware + [Route(path, handler)];
      r := Ok(());
    }

    /**
     * `this.routes[key].push(...)`: appends under `key` when the map has it and
     * the pattern compiles; otherwise the push throws (an `undefined` list
     * first, then a malformed pattern), and nothing changes.
     */
    method Register(key: string, path: string, handler: HandlerId, compiles: Compiles) returns (r: Result<(), Fault>)
      modifies this`routes
      ensures routes.Keys == old(routes).Keys
      ensures r.Ok? <==> key in old(routes) && compiles(path)
      ensures r.Err? ==> r.error == Pushed(old(routes), key, Route(path, handler), compiles).error && routes == old(routes)
      ensures r.Ok? ==> routes == Pushed(old(routes), key, Route(path, handler), compiles).value
    {
      var pushed := Pushed(routes, key, Route(path, handler), compiles);
      if pushed.Ok? {
        routes := pushed.value;
        r := Ok(());
      } else {
        r := Err(pushed.error);
      }
    }

    /**
     * `get`/`post`/`put`/`patch`/`delete` as written: they push under the
     * upper-case method token, a key a router never has, so on a valid router
     * the registration throws and the route table is left as it was.
     */
    method AddRouteAsWritten(v: Verb, path: string, handler: HandlerId, compiles: Compiles) returns (r: Result<(), Fault>)
      requires Valid()
      modifies this`routes
      ensures Valid()
      ensures r == Err(UndefinedRouteList(MethodToken(v)))
      ensures routes == old(routes)
    {
      TokenLowersToKey(v);
      r := Register(MethodToken(v), path, handler, compiles);
    }

    /**
     * The registration the route map and `handle` evidently intend: push under
     * the lowercase key, which a request whose method token is the verb's reads.
     */
    method AddRoute(v: Verb, path: string, handler: HandlerId, compiles: Compiles) returns (r: Result<(), Fault>)
      requires Valid()
      modifies this`routes
      ensures Valid()
      ensures r.Ok? <==> compiles(path)
      ensures r.Err? ==> r.error == MalformedPattern(path) && routes == old(routes)
      ensures r.Ok? ==> routes == old(routes)[TableKey(v) := old(routes)[TableKey(v)] + [Route(path, handler)]]
      ensures r.Ok? ==> Queue(middleware, routes, MethodToken(v)) == Ok(middleware + old(routes)[TableKey(v)] + [Route(path, handler)])
    {
      TokenLowersToKey(v);
      r := Register(TableKey(v), path, handler, compiles);
      if r.Ok? {
        PushedRouteQueuedLast(middleware, old(routes), TableKey(v), Route(path, handler), MethodToken(v), compiles);
      }
    }

    /**
     * `handle(request)`: the queue is the middleware followed by the routes
     * under the lowercased method, copied for this request; the `next`
     * recursion is the loop below. A method the route map has no key for
     * makes the spread throw before any handler runs.
     */
    method Handle(request: ServerRequest, m: Matcher, act: Behaviour) returns (r: Result<Dispatch, Fault>)
      ensures r.Err? <==> ToLower(request.httpMethod) !in routes
      ensures r.Err? ==> r.error == Queue(middleware, routes, request.httpMethod).error
      ensures r.Ok? ==> r.value == Run(Queue(middleware, routes, request.httpMethod).value, 0, Incoming(request), m, act)
    {
      var queued := Queue(middleware, routes, request.httpMethod);
      if queued.Err? {
        return Err(queued.error);
      }
      var stack := queued.value;
      var req := Incoming(request);
      var res := FreshResponse();
      ghost var walk := Run(stack, 0, req, m, act);
      var calls: seq<Call> := [];
      var i := 0;
      var end := NotFound;
      var running := true;
      while running
        invariant i <= |stack|
        invariant running ==> res == FreshResponse()
        invariant running ==> walk == Resume(calls, Run(stack, i, req, m, act))
        invariant !running ==> walk == Dispatch(calls, req, res, i, end)
        decreases |stack| - i, running
      {
        if i == |stack| {
          // the queue is exhausted: `notFoundHandler`
          ExhaustStep(calls, stack, req, m, act);
          res := NotFoundHandler(res);
          end := NotFound;
          running := false;
        } else {
          var route := stack[i];
          i := i + 1;
          var found := m(route.path, req.url);
          if found.None? {
            SkipStep(stack, i - 1, req, m, act);
          } else {
            var params := found.value;
            ghost var prior := req;
            req := req.(params := Some(params));
            var outcome := act(i - 1, req);
            ghost var before := calls;
            calls := calls + [Call(i - 1, params)];
            if outcome.Continue? {
              ContinueStep(before, stack, i - 1, prior, m, act, params);
            } else {
              HaltStep(before, stack, i - 1, prior, m, act, params);
              match outcome {
                case Respond(body) => res := Send(res, body);
                case ContinueErr => res := ErrorHandler(res);  // `next(error)`
                case Throw => res := ErrorHandler(res);        // the `catch` around the handler call
                case _ =>                                      // neither sends nor continues
              }
              end := EndAfter(outcome);
              running := false;
            }
          }
        }
      }
      r := Ok(Dispatch(calls, req, res, i, end));
    }
  }

  /** An entry whose matcher rejects the url is shifted off without changing the rest of the walk. */
  lemma SkipStep(q: seq<Route>, i: nat, req: Request, m: Matcher, act: Behaviour)
    requires i < |q| && m(q[i].path, req.url).None?
    ensures Run(q, i, req, m, act) == Run(q, i + 1, req, m, act)
  {
  }

  /** A matching entry whose handler calls `next()` is recorded in front of the rest of the walk. */
  lemma ContinueStep(calls: seq<Call>, q: seq<Route>, i: nat, req: Request, m: Matcher, act: Behaviour, p: Params)
    requires i < |q| && m(q[i].path, req.url) == Some(p)
    requires act(i, req.(params := Some(p))).Continue?
    ensures Resume(calls, Run(q, i, req, m, act))
         == Resume(calls + [Call(i, p)], Run(q, i + 1, req.(params := Some(p)), m, act))
  {
  }

  /** A matching entry whose handler does anything but call `next()` ends the walk with it. */
  lemma HaltStep(calls: seq<Call>, q: seq<Route>, i: nat, req: Request, m: Matcher, act: Behaviour, p: Params)
    requires i < |q| && m(q[i].path, req.url) == Some(p)
    requires !act(i, req.(params := Some(p))).Continue?
    ensures var o := act(i, req.(params := Some(p)));
      Resume(calls, Run(q, i, req, m, act))
      == Dispatch(calls + [Call(i, p)], req.(params := Some(p)), Settled(o), i + 1, EndAfter(o))
  {
  }

  /** Shifting from an empty queue ends the walk in the 404 response. */
  lemma ExhaustStep(calls: seq<Call>, q: seq<Route>, req: Request, m: Matcher, act: Behaviour)
    ensures Resume(calls, Run(q, |q|, req, m, act)) == Dispatch(calls, req, NotFoundHandler(FreshResponse()), |q|, NotFound)
  {
  }

  /** The walk that remains after the handlers of `calls` each called `next()`. */
  function Resume(calls: seq<Call>, rest: Dispatch): Dispatch
  {
    rest.(calls := calls + rest.calls)
  }
}
