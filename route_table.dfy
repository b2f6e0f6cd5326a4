/**
 * The route table of the router: middleware entries and the per-method
 * route lists, the HTTP verbs the registration API offers, the key under
 * which each list lives, and the dispatch queue built for one request.
 */
module RouteTable {
  import opened Wrappers

  /** Parameters captured by a path match, name to captured text. */
  type Params = map<string, string>

  /** Identity of a registered handler closure; what it does is supplied separately. */
  type HandlerId = nat

  /**
   * One registered entry. The source also stores `match(path)`, compiled at
   * registration: a pattern that fails to compile makes the registration throw
   * (see `Compiles`), and for one that compiles the model keeps the path and
   * applies the matcher at dispatch time.
   */
  datatype Route = Route(path: string, handler: HandlerId)

  /** The route map: method key to the routes registered under it, in registration order. */
  type Table = map<string, seq<Route>>

  /** The external pattern matcher: pattern, then candidate url; `None` when it does not match. */
  type Matcher = (string, string) -> Option<Params>

  /**
   * The external pattern compiler's verdict: whether `match(path)` accepts the
   * pattern (`/:` with no parameter name, for instance, is rejected with a throw).
   */
  type Compiles = string -> bool

  /**
   * A fault the JavaScript runtime raises: a property of `undefined` was used
   * as a list, or the pattern compiler threw on a malformed pattern.
   */
  datatype Fault = UndefinedRouteList(key: string) | MalformedPattern(path: string)

  /** The five verbs with a registration method. */
  datatype Verb = Get | Post | Put | Patch | Delete

  /** The HTTP method token of a verb; it is also the property name the registration methods push onto. */
  function MethodToken(v: Verb): string
  {
    match v
    case Get => "GET"
    case Post => "POST"
    case Put => "PUT"
    case Patch => "PATCH"
    case Delete => "DELETE"
  }

  /** The key under which a fresh router keeps the route list of a verb, and which `handle` reads. */
  function TableKey(v: Verb): string
  {
    match v
    case Get => "get"
    case Post => "post"
    case Put => "put"
    case Patch => "patch"
    case Delete => "delete"
  }

  /** The keys a freshly built router's route map has. */
  const RouteKeys: set<string> := {"get", "post", "put", "patch", "delete"}

  /** The route map of a freshly built router: each of the five keys bound to an empty list. */
  function EmptyTable(): (t: Table)
    ensures t.Keys == RouteKeys
    ensures forall k :: k in t ==> t[k] == []
  {
    map["get" := [], "post" := [], "put" := [], "patch" := [], "delete" := []]
  }

  function LowerChar(c: char): char
  {
    if 'A' <= c <= 'Z' then (c as int + 32) as char else c
  }

  /**
   * `String.prototype.toLowerCase` on the ASCII letters. Non-ASCII letters are
   * left alone; no non-ASCII letter lowercases to a letter of the five keys.
   */
  function ToLower(s: string): (r: string)
    ensures |r| == |s|
    ensures forall k :: 0 <= k < |s| ==> r[k] == LowerChar(s[k])
  {
    if s == [] then [] else [LowerChar(s[0])] + ToLower(s[1..])
  }

  /** Lowercasing a verb's method token gives exactly the table key of that verb, and the token itself is no key. */
  lemma TokenLowersToKey(v: Verb)
    ensures ToLower(MethodToken(v)) == TableKey(v)
    ensures TableKey(v) in RouteKeys
    ensures MethodToken(v) !in RouteKeys
  {
  }

  /**
   * Registration as written pushes under the upper-case method token, which a
   * fresh-shaped route map lacks, so the push throws, whether or not the pattern
   * compiles; the queue a request with
   * that very method token gets is the lowercase list, untouched.
   */
  lemma AsWrittenRouteNeverQueued(middleware: seq<Route>, t: Table, v: Verb, r: Route, compiles: Compiles)
    requires t.Keys == RouteKeys
    ensures Pushed(t, MethodToken(v), r, compiles) == Err(UndefinedRouteList(MethodToken(v)))
    ensures Queue(middleware, t, MethodToken(v)) == Ok(middleware + t[TableKey(v)])
  {
    TokenLowersToKey(v);
  }

  /**
   * `t[key].push({path, handler, match: match(path)})`: the list gains `r` at
   * its end and nothing else changes. JavaScript resolves `t[key].push` before
   * it evaluates the argument, so a missing key throws first; otherwise a
   * pattern that does not compile throws before anything is pushed.
   */
  function Pushed(t: Table, key: string, r: Route, compiles: Compiles): (res: Result<Table, Fault>)
    ensures res.Ok? <==> key in t && compiles(r.path)
    ensures key !in t ==> res == Err(UndefinedRouteList(key))
    ensures key in t && !compiles(r.path) ==> res == Err(MalformedPattern(r.path))
    ensures res.Ok? ==> res.value.Keys == t.Keys && res.value[key] == t[key] + [r]
    ensures res.Ok? ==> forall k :: k in t && k != key ==> res.value[k] == t[k]
  {
    if key !in t then Err(UndefinedRouteList(key))
    else if !compiles(r.path) then Err(MalformedPattern(r.path))
    else Ok(t[key := t[key] + [r]])
  }

  /**
   * The per-request dispatch queue: every middleware entry, then the routes
   * under the lowercased request method, each in registration order. Spreading the
   * list of a key the map lacks throws.
   */
  function Queue(middleware: seq<Route>, t: Table, token: string): (r: Result<seq<Route>, Fault>)
    ensures r.Ok? <==> ToLower(token) in t
    ensures r.Err? ==> r.error == UndefinedRouteList(ToLower(token))
    ensures r.Ok? ==> |r.value| == |middleware| + |t[ToLower(token)]|
    ensures r.Ok? ==> r.value[..|middleware|] == middleware && r.value[|middleware|..] == t[ToLower(token)]
  {
    var key := ToLower(token);
    if key in t then Ok(middleware + t[key]) else Err(UndefinedRouteList(key))
  }

  /**
   * A route pushed under the key a request's method token lowercases to is queued for
   * that request after everything that was queued before.
   */
  lemma PushedRouteQueuedLast(middleware: seq<Route>, t: Table, key: string, r: Route, token: string, compiles: Compiles)
    requires key in t && ToLower(token) == key && compiles(r.path)
    ensures Pushed(t, key, r, compiles).Ok?
    ensures Queue(middleware, Pushed(t, key, r, compiles).value, token) == Ok(Queue(middleware, t, token).value + [r])
  {
    assert middleware + (t[key] + [r]) == (middleware + t[key]) + [r];
  }

  /** A middleware entry appended last is queued after the earlier middleware and before every route, for every known method. */
  lemma UsedEntryQueuedBeforeRoutes(middleware: seq<Route>, t: Table, r: Route, token: string)
    requires ToLower(token) in t
    ensures Queue(middleware + [r], t, token) == Ok(middleware + [r] + t[ToLower(token)])
    ensures Queue(middleware + [r], t, token).value[|middleware|] == r
  {
  }
}
