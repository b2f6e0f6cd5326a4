/**
 * The dispatch walk of `handle`: the inner `next` callback consumes the
 * per-request queue front to back, skips entries whose matcher rejects the
 * url, sets `req.params` and invokes the handler of a matching entry, and
 * ends in the handler's own response, the fixed 500 response, the fixed 404
 * response, or a request nobody answers.
 */
module Walk {
  import opened Wrappers
  import opened RouteTable

  /** The transport request: the fields the router reads. */
  datatype ServerRequest = ServerRequest(httpMethod: string, url: string)

  /** The router's request record; `params` is absent until a match sets it. */
  datatype Request = Request(httpMethod: string, url: string, params: Option<Params>)

  /** One transmission: the status current when `send` ran, and the body. */
  datatype Sent = Sent(status: int, body: string)

  /** The response record: its status field and every body sent so far. */
  datatype Response = Response(status: int, sent: seq<Sent>)

  /**
   * What a handler does synchronously once invoked: sends a body, calls
   * `next()`, calls `next(error)`, throws, or returns having done neither.
   */
  datatype Outcome = Respond(body: string) | Continue | ContinueErr | Throw | Stall

  /** The behaviour of the handler at a queue position, given the request it sees. */
  type Behaviour = (nat, Request) -> Outcome

  /** How a walk ends. */
  datatype End = Responded | Failed | NotFound | Stalled

  /** One handler invocation: the queue position of its entry and the params `req.params` held when it ran. */
  datatype Call = Call(pos: nat, params: Params)

  /**
   * The record of one walk: the handler invocations in the order they
   * happened, the final request and response, how many queue entries were
   * shifted off, and how the walk ended.
   */
  datatype Dispatch = Dispatch(calls: seq<Call>, req: Request, res: Response, consumed: nat, end: End)

  const DefaultStatus := 200
  const ServerErrorBody := "Server Error"
  const NotFoundBody := "Not Found"

  /** The request record built from the transport request: `params` is not set. */
  function Incoming(request: ServerRequest): (r: Request)
    ensures r.httpMethod == request.httpMethod && r.url == request.url && r.params.None?
  {
    Request(request.httpMethod, request.url, None)
  }

  /** The response record of a new request: status 200, nothing sent. */
  function FreshResponse(): (r: Response)
    ensures r.status == DefaultStatus && r.sent == []
  {
    Response(DefaultStatus, [])
  }

  /** `res.send(body)`: one transmission with the current status; the status is kept. */
  function Send(res: Response, body: string): (r: Response)
    ensures r.status == res.status
    ensures |r.sent| == |res.sent| + 1 && r.sent[..|res.sent|] == res.sent
    ensures r.sent[|res.sent|] == Sent(res.status, body)
  {
    Response(res.status, res.sent + [Sent(res.status, body)])
  }

  /** `errorHandler`: status 500 and one `Server Error` transmission, whatever the error was. */
  function ErrorHandler(res: Response): (r: Response)
    ensures r.status == 500
    ensures |r.sent| == |res.sent| + 1 && r.sent[..|res.sent|] == res.sent
    ensures r.sent[|res.sent|] == Sent(500, ServerErrorBody)
  {
    Send(res.(status := 500), ServerErrorBody)
  }

  /** `notFoundHandler`: status 404 and one `Not Found` transmission. */
  function NotFoundHandler(res: Response): (r: Response)
    ensures r.status == 404
    ensures |r.sent| == |res.sent| + 1 && r.sent[..|res.sent|] == res.sent
    ensures r.sent[|res.sent|] == Sent(404, NotFoundBody)
  {
    Send(res.(status := 404), NotFoundBody)
  }

  /** How a walk ends when `o` is the outcome of the last handler it invoked. */
  function EndAfter(o: Outcome): End
  {
    match o
    case Respond(_) => Responded
    case Continue => NotFound
    case ContinueErr => Failed
    case Throw => Failed
    case Stall => Stalled
  }

  /**
   * The response an outcome that stops the walk leaves behind: the handler's
   * own `send`, or `errorHandler` after `next(error)` or a throw caught by
   * `handle`, or nothing sent at all.
   */
  function Settled(o: Outcome): Response
  {
    match o
    case Respond(body) => Send(FreshResponse(), body)
    case ContinueErr => ErrorHandler(FreshResponse())
    case Throw => ErrorHandler(FreshResponse())
    case _ => FreshResponse()
  }

  /** The queue positions of a sequence of invocations. */
  ghost function Positions(calls: seq<Call>): set<nat>
  {
    set c | c in calls :: c.pos
  }

  /** All positions lie within `[lo, hi)`. */
  ghost predicate Within(calls: seq<Call>, lo: nat, hi: nat)
  {
    forall k :: 0 <= k < |calls| ==> lo <= calls[k].pos < hi
  }

  /** Positions strictly increase: no entry runs twice and none runs before an earlier one. */
  ghost predicate Increasing(calls: seq<Call>)
  {
    forall k, l :: 0 <= k < l < |calls| ==> calls[k].pos < calls[l].pos
  }

  /** Each invocation is of a queue entry whose matcher accepted `url` with exactly the params the handler saw. */
  ghost predicate EveryCallMatches(q: seq<Route>, calls: seq<Call>, url: string, m: Matcher)
  {
    forall k :: 0 <= k < |calls| ==> calls[k].pos < |q| && m(q[calls[k].pos].path, url) == Some(calls[k].params)
  }

  /** Each position in `[i, d.consumed)` whose handler did not run holds an entry whose matcher rejected `url`. */
  ghost predicate EverySkippedRejects(q: seq<Route>, i: nat, d: Dispatch, url: string, m: Matcher)
  {
    forall j :: i <= j < d.consumed && j < |q| && j !in Positions(d.calls) ==> m(q[j].path, url).None?
  }

  /** Every invoked handler but the last, given the request with its own match's params, called `next()`. */
  ghost predicate AllButLastContinued(calls: seq<Call>, req: Request, act: Behaviour)
  {
    forall k :: 0 <= k < |calls| - 1 ==> act(calls[k].pos, req.(params := Some(calls[k].params))) == Continue
  }

  /**
   * `next()` called when `i` entries of queue `q` have been shifted off and
   * the request record is `req`: the rest of the walk. The response is
   * fresh, since only a terminal step ever touches it. Every walk sends
   * exactly one response, except one whose last handler neither responds nor
   * continues; a walk that ends other than by exhaustion stops right after
   * its last invoked entry, whatever is left in the queue.
   */
  function Run(q: seq<Route>, i: nat, req: Request, m: Matcher, act: Behaviour): (d: Dispatch)
    requires i <= |q|
    ensures i <= d.consumed <= |q|
    ensures d.end != NotFound ==> |d.calls| > 0 && d.consumed == d.calls[|d.calls| - 1].pos + 1
    ensures d.end == NotFound ==> d.consumed == |q| && d.res == Response(404, [Sent(404, NotFoundBody)])
    ensures d.end == Failed ==> d.res == Response(500, [Sent(500, ServerErrorBody)])
    ensures d.end == Responded ==> d.res.status == DefaultStatus && |d.res.sent| == 1 && d.res.sent[0].status == DefaultStatus
    ensures d.end == Stalled ==> d.res == FreshResponse()
    ensures d.req.httpMethod == req.httpMethod && d.req.url == req.url
    decreases |q| - i
  {
    if i == |q| then
      Dispatch([], req, NotFoundHandler(FreshResponse()), |q|, NotFound)
    else
      match m(q[i].path, req.url)
      case None => Run(q, i + 1, req, m, act)
      case Some(p) =>
        var req' := req.(params := Some(p));
        var o := act(i, req');
        if o.Continue? then
          var rest := Run(q, i + 1, req', m, act);
          rest.(calls := [Call(i, p)] + rest.calls)
        else
          Dispatch([Call(i, p)], req', Settled(o), i + 1, EndAfter(o))
  }

  /** Every invoked entry is one of the entries shifted off during the walk. */
  lemma {:induction false} InvokedWithinShifted(q: seq<Route>, i: nat, req: Request, m: Matcher, act: Behaviour)
    requires i <= |q|
    ensures Within(Run(q, i, req, m, act).calls, i, Run(q, i, req, m, act).consumed)
    decreases |q| - i
  {
    if i < |q| {
      match m(q[i].path, req.url)
      case None => InvokedWithinShifted(q, i + 1, req, m, act);
      case Some(p) =>
        var req' := req.(params := Some(p));
        if act(i, req').Continue? {
          InvokedWithinShifted(q, i + 1, req', m, act);
          var rest := Run(q, i + 1, req', m, act);
          var d := Run(q, i, req, m, act);
          assert d.calls == [Call(i, p)] + rest.calls;
          forall k | 0 < k < |d.calls|
            ensures i <= d.calls[k].pos < d.consumed
          {
            assert d.calls[k] == rest.calls[k - 1];
          }
        }
    }
  }

  /** Handlers run in queue order, each at most once: the invoked positions strictly increase. */
  lemma {:induction false} InvokedInOrder(q: seq<Route>, i: nat, req: Request, m: Matcher, act: Behaviour)
    requires i <= |q|
    ensures Increasing(Run(q, i, req, m, act).calls)
    decreases |q| - i
  {
    if i < |q| {
      match m(q[i].path, req.url)
      case None => InvokedInOrder(q, i + 1, req, m, act);
      case Some(p) =>
        var req' := req.(params := Some(p));
        if act(i, req').Continue? {
          InvokedInOrder(q, i + 1, req', m, act);
          InvokedWithinShifted(q, i + 1, req', m, act);
          var rest := Run(q, i + 1, req', m, act);
          var d := Run(q, i, req, m, act);
          assert d.calls == [Call(i, p)] + rest.calls;
          forall k, l | 0 <= k < l < |d.calls|
            ensures d.calls[k].pos < d.calls[l].pos
          {
            assert d.calls[l] == rest.calls[l - 1];
            if k > 0 {
              assert d.calls[k] == rest.calls[k - 1];
            }
          }
        }
    }
  }

  /** Every invoked handler belongs to an entry whose matcher accepted the url, and it saw exactly that match's params. */
  lemma {:induction false} InvokedEntriesMatch(q: seq<Route>, i: nat, req: Request, m: Matcher, act: Behaviour)
    requires i <= |q|
    ensures EveryCallMatches(q, Run(q, i, req, m, act).calls, req.url, m)
    decreases |q| - i
  {
    if i < |q| {
      match m(q[i].path, req.url)
      case None => InvokedEntriesMatch(q, i + 1, req, m, act);
      case Some(p) =>
        var req' := req.(params := Some(p));
        if act(i, req').Continue? {
          InvokedEntriesMatch(q, i + 1, req', m, act);
          var rest := Run(q, i + 1, req', m, act);
          var d := Run(q, i, req, m, act);
          assert d.calls == [Call(i, p)] + rest.calls;
          forall k | 0 < k < |d.calls|
            ensures d.calls[k].pos < |q| && m(q[d.calls[k].pos].path, req.url) == Some(d.calls[k].params)
          {
            assert d.calls[k] == rest.calls[k - 1];
          }
        }
    }
  }

  /** An entry that was shifted off but whose handler did not run is one whose matcher rejected the url. */
  lemma {:induction false} SkippedEntriesDoNotMatch(q: seq<Route>, i: nat, req: Request, m: Matcher, act: Behaviour)
    requires i <= |q|
    ensures EverySkippedRejects(q, i, Run(q, i, req, m, act), req.url, m)
    decreases |q| - i
  {
    if i < |q| {
      match m(q[i].path, req.url)
      case None => SkippedEntriesDoNotMatch(q, i + 1, req, m, act);
      case Some(p) =>
        var req' := req.(params := Some(p));
        if act(i, req').Continue? {
          SkippedEntriesDoNotMatch(q, i + 1, req', m, act);
          var rest := Run(q, i + 1, req', m, act);
          assert Positions(Run(q, i, req, m, act).calls) == {i} + Positions(rest.calls);
        }
    }
  }

  /**
   * First match wins: when `j` is the first entry from `i` on whose matcher
   * accepts the url, the first handler invoked is the one at `j`, however
   * specific a later matching entry is.
   */
  lemma {:induction false} FirstMatchIsInvoked(q: seq<Route>, i: nat, req: Request, m: Matcher, act: Behaviour, j: nat)
    requires i <= j < |q|
    requires m(q[j].path, req.url).Some?
    requires forall k :: i <= k < j ==> m(q[k].path, req.url).None?
    ensures |Run(q, i, req, m, act).calls| > 0
    ensures Run(q, i, req, m, act).calls[0] == Call(j, m(q[j].path, req.url).value)
    decreases j - i
  {
    if i < j {
      FirstMatchIsInvoked(q, i + 1, req, m, act, j);
    }
  }

  /** When no remaining entry matches, no handler runs and the request gets the 404 response. */
  lemma {:induction false} NoMatchIsNotFound(q: seq<Route>, i: nat, req: Request, m: Matcher, act: Behaviour)
    requires i <= |q|
    requires forall k :: i <= k < |q| ==> m(q[k].path, req.url).None?
    ensures Run(q, i, req, m, act) == Dispatch([], req, Response(404, [Sent(404, NotFoundBody)]), |q|, NotFound)
    decreases |q| - i
  {
    if i < |q| {
      NoMatchIsNotFound(q, i + 1, req, m, act);
    }
  }

  /** Every invoked handler but the last one called `next()` without an error. */
  lemma {:induction false} ContinuedBeforeLast(q: seq<Route>, i: nat, req: Request, m: Matcher, act: Behaviour)
    requires i <= |q|
    ensures AllButLastContinued(Run(q, i, req, m, act).calls, req, act)
    decreases |q| - i
  {
    if i < |q| {
      match m(q[i].path, req.url)
      case None => ContinuedBeforeLast(q, i + 1, req, m, act);
      case Some(p) =>
        var req' := req.(params := Some(p));
        if act(i, req').Continue? {
          ContinuedBeforeLast(q, i + 1, req', m, act);
          var rest := Run(q, i + 1, req', m, act);
          var d := Run(q, i, req, m, act);
          assert d.calls == [Call(i, p)] + rest.calls;
          forall k | 0 < k < |d.calls| - 1
            ensures act(d.calls[k].pos, req.(params := Some(d.calls[k].params))) == Continue
          {
            assert d.calls[k] == rest.calls[k - 1];
            assert req'.(params := Some(d.calls[k].params)) == req.(params := Some(d.calls[k].params));
          }
        }
    }
  }

  /**
   * The last invoked handler's outcome decides how the walk ends, and a
   * handler that responded is the one whose body was sent; with no handler
   * invoked the walk ends in the 404.
   */
  lemma {:induction false} LastOutcomeDecidesEnd(q: seq<Route>, i: nat, req: Request, m: Matcher, act: Behaviour)
    requires i <= |q|
    ensures Run(q, i, req, m, act).calls == [] ==> Run(q, i, req, m, act).end == NotFound
    ensures var d := Run(q, i, req, m, act);
      d.calls != [] ==>
        var o := act(d.calls[|d.calls| - 1].pos, req.(params := Some(d.calls[|d.calls| - 1].params)));
        EndAfter(o) == d.end && (o.Respond? ==> d.res.sent == [Sent(DefaultStatus, o.body)])
    decreases |q| - i
  {
    if i < |q| {
      match m(q[i].path, req.url)
      case None => LastOutcomeDecidesEnd(q, i + 1, req, m, act);
      case Some(p) =>
        var req' := req.(params := Some(p));
        if act(i, req').Continue? {
          LastOutcomeDecidesEnd(q, i + 1, req', m, act);
          var rest := Run(q, i + 1, req', m, act);
          var d := Run(q, i, req, m, act);
          if rest.calls != [] {
            assert d.calls[|d.calls| - 1] == rest.calls[|rest.calls| - 1];
            assert req'.(params := Some(rest.calls[|rest.calls| - 1].params))
                == req.(params := Some(rest.calls[|rest.calls| - 1].params));
          }
        }
    }
  }

  /** After the walk `req.params` holds the params of the last invocation, or is untouched when no handler ran. */
  lemma {:induction false} ParamsAfterWalk(q: seq<Route>, i: nat, req: Request, m: Matcher, act: Behaviour)
    requires i <= |q|
    ensures var d := Run(q, i, req, m, act);
      d.req == if d.calls == [] then req else req.(params := Some(d.calls[|d.calls| - 1].params))
    decreases |q| - i
  {
    if i < |q| {
      match m(q[i].path, req.url)
      case None => ParamsAfterWalk(q, i + 1, req, m, act);
      case Some(p) =>
        var req' := req.(params := Some(p));
        if act(i, req').Continue? {
          ParamsAfterWalk(q, i + 1, req', m, act);
        }
    }
  }
}
