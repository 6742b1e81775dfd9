/**
 * `createRouter(baseServerUrl)` (src/router/index.ts, and its older copy in
 * src/routes/router.ts): a router holding the four health-check routes, and
 * the per-request handler that resolves the request URL, finds a route,
 * calls its handler once, and turns anything thrown into an error response.
 */
module Dispatch {
  import opened Wrappers
  import opened Text
  import opened Errors
  import opened StatusCodes
  import opened Patterns
  import opened Rules
  import opened Routing
  import opened Responses

  /** The parts of an incoming request the router reads. */
  datatype Request = Request(url: string, httpMethod: string)

  /** One invocation of a route handler, with the request and the match context. */
  datatype Call = Call(handler: Handler, request: Request, context: Context)

  /**
   * What handling one request did: the route-handler calls made, the error the
   * `catch` block received (if any), and the final reply. A final `Threw` is the
   * request handler's promise rejecting with no response written.
   */
  datatype Outcome = Outcome(calls: seq<Call>, caught: Option<Thrown>, reply: Reply)

  /**
   * The request-time runtime: `new URL(url, base).href` (which may throw), the
   * application's named route handlers, and the `TypeError` thrown by spreading
   * a missing status-table entry.
   */
  datatype Host = Host(
    resolve: (string, string) -> Result<string, Thrown>,
    run: (string, Request, Context) -> Reply,
    notIterable: Thrown)

  /**
   * Spreading `undefined` throws the runtime's `TypeError`: an `Error` with a
   * message, never a `CustomError`.
   */
  predicate NotIterableIsTypeError(host: Host)
  {
    host.notIterable.Error? && !host.notIterable.IsCustom()
  }

  /** `healthCheck`: 204 with an empty plain-text body. */
  function HealthCheckReply(codes: Table, host: Host): (r: Reply)
    ensures 204 in codes && WellFormed(codes) ==>
      r.Sent? && r.response.statusCode == 204 && r.response.contentLength == 0 && r.response.contentType == "text/plain"
  {
    WriteText(codes, 204, "", host.notIterable)
  }

  /** Awaiting a route handler. */
  function RunHandler(handler: Handler, request: Request, context: Context, codes: Table, host: Host): Reply
  {
    match handler
    case HealthCheck => HealthCheckReply(codes, host)
    case RouteHandler(name) => host.run(name, request, context)
  }

  /** The `try`/`catch`: a throw inside the `try` block is handed to `errorHandler`. */
  function Guarded(calls: seq<Call>, attempt: Reply, codes: Table, host: Host): (o: Outcome)
    ensures o.calls == calls
    ensures attempt.Sent? ==> o.caught.None? && o.reply == attempt
    ensures attempt.Threw? ==> o.caught == Some(attempt.error) && o.reply == ErrorHandler(attempt.error, codes, host.notIterable)
  {
    match attempt
    case Sent(_) => Outcome(calls, None, attempt)
    case Threw(error) => Outcome(calls, Some(error), ErrorHandler(error, codes, host.notIterable))
  }

  /** Node's reason phrase for 500, which its rejection handler sends as the body. */
  const INTERNAL_SERVER_ERROR := "Internal Server Error"

  /**
   * What the client receives. The configuration turns on `captureRejections`
   * before the server is created, so when the request handler's promise
   * rejects before anything was written, the server's rejection handler
   * removes every header it set and ends the response with 500 and Node's
   * reason phrase as the body (no `content-type`, written here as "").
   */
  function ClientResponse(reply: Reply): (r: Response)
    ensures reply.Sent? ==> r == reply.response
    ensures reply.Threw? ==>
      && r.statusCode == 500 && r.statusMessage == INTERNAL_SERVER_ERROR
      && r.body == INTERNAL_SERVER_ERROR && r.contentLength == 21 && r.contentType == ""
  {
    match reply
    case Sent(response) => response
    case Threw(_) =>
      InternalServerErrorLength();
      Response(500, INTERNAL_SERVER_ERROR, Utf8Length(INTERNAL_SERVER_ERROR), "", INTERNAL_SERVER_ERROR)
  }

  /** Node sets `content-length` from the body it ends with: 21 ASCII bytes. */
  lemma InternalServerErrorLength()
    ensures Utf8Length(INTERNAL_SERVER_ERROR) == 21
  {
    assert IsAscii(INTERNAL_SERVER_ERROR) && |INTERNAL_SERVER_ERROR| == 21;
    AsciiUtf8Length(INTERNAL_SERVER_ERROR);
  }

  /**
   * The specification of the request handler: at most one route-handler call,
   * and the handler ends without a response only after catching an error.
   */
  function Handle(routes: seq<Rule>, baseServerUrl: string, request: Request, engine: Engine, codes: Table, host: Host): (o: Outcome)
    ensures |o.calls| <= 1
    ensures o.reply.Threw? ==> o.caught.Some?
    ensures o.calls == [] && o.caught.None? ==>
      host.resolve(request.url, baseServerUrl).Success? &&
      o.reply == RouteNotFound(host.resolve(request.url, baseServerUrl).value, codes, host.notIterable)
  {
    match host.resolve(request.url, baseServerUrl)
    case Failure(error) => Guarded([], Threw(error), codes, host)
    case Success(url) =>
      match Lookup(routes, url, request.httpMethod, engine)
      case None => Guarded([], RouteNotFound(url, codes, host.notIterable), codes, host)
      case Some(found) =>
        Guarded([Call(found.route.handler, request, found.patternResult)],
                RunHandler(found.route.handler, request, found.patternResult, codes, host), codes, host)
  }

  /** The rules `registerHealthCheckRoutes` adds, in order: HEAD /alive, GET /alive, HEAD /ready, GET /ready. */
  function HealthRoutes(healthCheck: Handler): (routes: seq<Rule>)
    ensures |routes| == 4
    ensures forall i :: 0 <= i < |routes| ==>
      && routes[i].handler == healthCheck
      && routes[i].httpMethod == (if i % 2 == 0 then "HEAD" else "GET")
      && routes[i].pattern == LiteralPathname(if i < 2 then "/alive" else "/ready")
  {
    [ Rule("HEAD", LiteralPathname("/alive"), healthCheck),
      Rule("GET", LiteralPathname("/alive"), healthCheck),
      Rule("HEAD", LiteralPathname("/ready"), healthCheck),
      Rule("GET", LiteralPathname("/ready"), healthCheck) ]
  }

  /** A built-in health route: upper-case method, `{ pathname }` literal, no base, no options. */
  function HealthParams(httpMethod: string, pathname: string, healthCheck: Handler): RuleParams
  {
    RuleParams(httpMethod, PathnameInit(pathname), None, None, healthCheck)
  }

  lemma HealthRuleCompiles(httpMethod: string, pathname: string, healthCheck: Handler, engine: Engine)
    requires httpMethod == "HEAD" || httpMethod == "GET"
    requires pathname == "/alive" || pathname == "/ready"
    ensures NewRule(HealthParams(httpMethod, pathname, healthCheck), engine) ==
      Success(Rule(httpMethod, LiteralPathname(pathname), healthCheck))
  {
    assert Upper(httpMethod) == httpMethod;
    assert IsCanonicalPathname(pathname);
  }

  /**
   * `registerHealthCheckRoutes(router, healthCheck)`: four chained `register`
   * calls, appending the health routes in order and returning the router.
   */
  method RegisterHealthCheckRoutes(router: Router, healthCheck: Handler, engine: Engine) returns (result: Result<Router, Thrown>)
    modifies router
    ensures router.routes == old(router.routes) + HealthRoutes(healthCheck)
    ensures result == Success(router)
  {
    HealthRuleCompiles("HEAD", "/alive", healthCheck, engine);
    HealthRuleCompiles("GET", "/alive", healthCheck, engine);
    HealthRuleCompiles("HEAD", "/ready", healthCheck, engine);
    HealthRuleCompiles("GET", "/ready", healthCheck, engine);
    // each `register` returns the router itself, and the next call is made on it
    var r1 := router.Register(HealthParams("HEAD", "/alive", healthCheck), engine);
    var r2 := r1.value.Register(HealthParams("GET", "/alive", healthCheck), engine);
    var r3 := r2.value.Register(HealthParams("HEAD", "/ready", healthCheck), engine);
    result := r3.value.Register(HealthParams("GET", "/ready", healthCheck), engine);
  }

  /** What `createRouter` returns: the router and the request handler bound to the base URL. */
  class App {
    const router: Router
    const baseServerUrl: string

    constructor (router: Router, baseServerUrl: string)
      ensures this.router == router && this.baseServerUrl == baseServerUrl
    {
      this.router := router;
      this.baseServerUrl := baseServerUrl;
    }

    /**
     * The request handler: resolve the URL against the base, `find` with the
     * resolved href and the request method, then answer 404 or call the route's
     * handler; anything thrown goes to `errorHandler`.
     */
    method HandleRequest(request: Request, engine: Engine, codes: Table, host: Host) returns (outcome: Outcome)
      ensures outcome == Handle(router.routes, baseServerUrl, request, engine, codes, host)
    {
      var resolved := host.resolve(request.url, baseServerUrl);
      if resolved.Failure? {
        return Guarded([], Threw(resolved.error), codes, host);
      }
      var url := resolved.value;
      var result := router.Find(url, request.httpMethod, engine);
      if result.None? {
        return Guarded([], RouteNotFound(url, codes, host.notIterable), codes, host);
      }
      var route, context := result.value.route, result.value.patternResult;
      outcome := Guarded([Call(route.handler, request, context)],
                         RunHandler(route.handler, request, context, codes, host), codes, host);
    }
  }

  /** `createRouter(baseServerUrl)`: a fresh router holding exactly the four health routes. */
  method CreateRouter(baseServerUrl: string, engine: Engine) returns (app: App)
    ensures fresh(app) && fresh(app.router)
    ensures app.router.routes == HealthRoutes(HealthCheck) && app.baseServerUrl == baseServerUrl
  {
    var router := new Router();
    var _ := RegisterHealthCheckRoutes(router, HealthCheck, engine);
    app := new App(router, baseServerUrl);
  }

  /**
   * At most one route handler is called per request, and one is called exactly
   * when the URL resolves and some route matches.
   */
  lemma AtMostOneHandlerCall(routes: seq<Rule>, baseServerUrl: string, request: Request, engine: Engine, codes: Table, host: Host)
    ensures var o := Handle(routes, baseServerUrl, request, engine, codes, host);
      && |o.calls| <= 1
      && (|o.calls| == 1 <==>
            host.resolve(request.url, baseServerUrl).Success? &&
            Lookup(routes, host.resolve(request.url, baseServerUrl).value, request.httpMethod, engine).Some?)
  {
  }

  /**
   * No match: no handler is called and, with 404 in the table, the reply is the
   * not-found response naming the resolved URL.
   */
  lemma NoMatchIsNotFound(routes: seq<Rule>, baseServerUrl: string, request: Request, engine: Engine, codes: Table, host: Host)
    requires host.resolve(request.url, baseServerUrl).Success?
    requires forall j :: 0 <= j < |routes| ==>
      !Matches(routes[j], host.resolve(request.url, baseServerUrl).value, request.httpMethod, engine)
    requires 404 in codes && WellFormed(codes)
    ensures var o := Handle(routes, baseServerUrl, request, engine, codes, host);
      && o.calls == [] && o.caught.None? && o.reply.Sent?
      && o.reply.response.statusCode == 404
      && o.reply.response.body == NotFoundMessage(host.resolve(request.url, baseServerUrl).value)
      && o.reply.response.contentLength == Utf8Length(host.resolve(request.url, baseServerUrl).value) + 35
  {
  }

  /**
   * A match calls the handler of the earliest matching route exactly once, with
   * that route's match context.
   */
  lemma MatchCallsFirstRouteHandler(routes: seq<Rule>, baseServerUrl: string, request: Request, engine: Engine, codes: Table, host: Host, i: nat)
    requires host.resolve(request.url, baseServerUrl).Success?
    requires i < |routes| && Matches(routes[i], host.resolve(request.url, baseServerUrl).value, request.httpMethod, engine)
    requires forall j :: 0 <= j < i ==>
      !Matches(routes[j], host.resolve(request.url, baseServerUrl).value, request.httpMethod, engine)
    ensures Handle(routes, baseServerUrl, request, engine, codes, host).calls ==
      [Call(routes[i].handler, request, Match(routes[i], host.resolve(request.url, baseServerUrl).value, request.httpMethod, engine).value)]
  {
    FirstMatchIsLeast(routes, i, host.resolve(request.url, baseServerUrl).value, request.httpMethod, engine);
  }

  /**
   * Exactly one response is written per request, unless `errorHandler` itself
   * throws because the status it picked for the caught error is not in the table.
   */
  lemma OneResponsePerRequest(routes: seq<Rule>, baseServerUrl: string, request: Request, engine: Engine, codes: Table, host: Host)
    ensures var o := Handle(routes, baseServerUrl, request, engine, codes, host);
      o.reply.Threw? <==>
        o.caught.Some? && (if o.caught.value.IsCustom() then GetStatusCode(o.caught.value) else 500) !in codes
  {
  }

  /**
   * Without 404 in the table, a URL no route matches makes `routeNotFound`
   * throw the `TypeError`; the `catch` block hands it to `errorHandler`, which
   * answers 500 with the `TypeError`'s message when the table knows 500.
   */
  lemma MissingNotFoundCodeAnswersTypeError(routes: seq<Rule>, baseServerUrl: string, request: Request, engine: Engine, codes: Table, host: Host)
    requires NotIterableIsTypeError(host)
    requires host.resolve(request.url, baseServerUrl).Success?
    requires Lookup(routes, host.resolve(request.url, baseServerUrl).value, request.httpMethod, engine).None?
    requires 404 !in codes && 500 in codes && WellFormed(codes)
    ensures var o := Handle(routes, baseServerUrl, request, engine, codes, host);
      && o.calls == [] && o.caught == Some(host.notIterable)
      && o.reply.Sent? && o.reply.response.statusCode == 500
      && o.reply.response.body == host.notIterable.message
  {
  }

  /**
   * Every request gets exactly one response on the wire: the one the handler
   * wrote, or, when `errorHandler` itself threw because the status it picked is
   * not in the table, Node's 500 `Internal Server Error`.
   */
  lemma EveryRequestAnswered(routes: seq<Rule>, baseServerUrl: string, request: Request, engine: Engine, codes: Table, host: Host)
    ensures var o := Handle(routes, baseServerUrl, request, engine, codes, host);
      && (o.reply.Sent? ==> ClientResponse(o.reply) == o.reply.response)
      && (o.caught.Some? && (if o.caught.value.IsCustom() then GetStatusCode(o.caught.value) else 500) !in codes ==>
            ClientResponse(o.reply).statusCode == 500 && ClientResponse(o.reply).body == INTERNAL_SERVER_ERROR)
  {
    OneResponsePerRequest(routes, baseServerUrl, request, engine, codes, host);
  }

  /**
   * A route handler that throws a `CustomError` with a known code gets that
   * status and the error's message; the handler was still called once.
   */
  lemma CustomErrorStatusReachesClient(routes: seq<Rule>, baseServerUrl: string, request: Request, engine: Engine, codes: Table, host: Host, code: int, message: string)
    requires WellFormed(codes) && code in codes
    requires host.resolve(request.url, baseServerUrl).Success?
    requires var found := Lookup(routes, host.resolve(request.url, baseServerUrl).value, request.httpMethod, engine);
      found.Some? && found.value.route.handler.RouteHandler? &&
      host.run(found.value.route.handler.name, request, found.value.patternResult).Threw? &&
      host.run(found.value.route.handler.name, request, found.value.patternResult).error.IsCustom() &&
      GetStatusCode(host.run(found.value.route.handler.name, request, found.value.patternResult).error) == code &&
      host.run(found.value.route.handler.name, request, found.value.patternResult).error.message == message
    ensures var o := Handle(routes, baseServerUrl, request, engine, codes, host);
      && |o.calls| == 1
      && o.reply.Sent? && o.reply.response.statusCode == code && o.reply.response.body == message
  {
  }

  /**
   * The built-in table answers a URL whose pathname is `/alive`: the GET rule
   * for `GET`, in any letter case, and the HEAD rule for `HEAD`.
   */
  lemma HealthRoutesAlive(url: string, parts: UrlParts, engine: Engine)
    requires engine.parse(url) == Some(parts) && parts.pathname == "/alive"
    ensures Lookup(HealthRoutes(HealthCheck), url, "GET", engine) == Some(Found(HealthRoutes(HealthCheck)[1], ContextOf(LiteralPathnameResult(parts))))
    ensures Lookup(HealthRoutes(HealthCheck), url, "get", engine) == Lookup(HealthRoutes(HealthCheck), url, "GET", engine)
    ensures Lookup(HealthRoutes(HealthCheck), url, "HEAD", engine) == Some(Found(HealthRoutes(HealthCheck)[0], ContextOf(LiteralPathnameResult(parts))))
  {
    var routes := HealthRoutes(HealthCheck);
    assert Upper("GET") == "GET" && Upper("get") == "GET" && Upper("HEAD") == "HEAD";
    LookupIgnoresMethodCase(routes, url, "get", "GET", engine);
    assert Match(routes[0], url, "HEAD", engine) == Some(ContextOf(LiteralPathnameResult(parts)));
    FirstMatchIsLeast(routes, 0, url, "HEAD", engine);
    assert !Matches(routes[0], url, "GET", engine);
    assert Match(routes[1], url, "GET", engine) == Some(ContextOf(LiteralPathnameResult(parts)));
    FirstMatchIsLeast(routes, 1, url, "GET", engine);
  }

  /** No built-in rule is registered for `POST`. */
  lemma HealthRoutesRejectPost(url: string, engine: Engine)
    ensures Lookup(HealthRoutes(HealthCheck), url, "POST", engine) == None
  {
    var routes := HealthRoutes(HealthCheck);
    assert Upper("POST") == "POST";
    forall j | 0 <= j < |routes| ensures !Matches(routes[j], url, "POST", engine) {
      assert routes[j].httpMethod == "HEAD" || routes[j].httpMethod == "GET";
    }
  }

  /** A pathname other than `/alive` and `/ready` matches no built-in rule, whatever the method. */
  lemma HealthRoutesRejectOtherPaths(url: string, parts: UrlParts, httpMethod: string, engine: Engine)
    requires engine.parse(url) == Some(parts) && parts.pathname != "/alive" && parts.pathname != "/ready"
    ensures Lookup(HealthRoutes(HealthCheck), url, httpMethod, engine) == None
  {
    var routes := HealthRoutes(HealthCheck);
    forall j | 0 <= j < |routes| ensures !Matches(routes[j], url, httpMethod, engine) {
      assert routes[j].pattern == LiteralPathname("/alive") || routes[j].pattern == LiteralPathname("/ready");
      assert Exec(routes[j].pattern, url, engine).None?;
    }
  }

  /**
   * The request-level scenario: `GET /alive` calls the health check once and
   * gets 204 with `content-length: 0`; `POST /alive` gets the 404 response.
   */
  lemma HealthCheckRequests(baseServerUrl: string, path: string, url: string, parts: UrlParts, engine: Engine, codes: Table, host: Host)
    requires host.resolve(path, baseServerUrl) == Success(url)
    requires engine.parse(url) == Some(parts) && parts.pathname == "/alive"
    requires 204 in codes && 404 in codes && WellFormed(codes)
    ensures var o := Handle(HealthRoutes(HealthCheck), baseServerUrl, Request(path, "GET"), engine, codes, host);
      && |o.calls| == 1 && o.calls[0].handler == HealthCheck
      && o.reply.Sent? && o.reply.response.statusCode == 204 && o.reply.response.contentLength == 0
    ensures var o := Handle(HealthRoutes(HealthCheck), baseServerUrl, Request(path, "POST"), engine, codes, host);
      && o.calls == [] && o.reply.Sent? && o.reply.response.statusCode == 404
      && o.reply.response.body == NotFoundMessage(url)
  {
    HealthRoutesAlive(url, parts, engine);
    HealthRoutesRejectPost(url, engine);
  }
}
