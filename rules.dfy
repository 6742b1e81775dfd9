/**
 * One routing rule: `PathRule` in src/router/router.ts and its older copy
 * `PatternParser` in src/router/path-rule.ts, which behave identically. A rule
 * stores its method upper-cased, its compiled pattern and its handler.
 */
module Rules {
  import opened Wrappers
  import opened Text
  import opened Errors
  import opened Patterns

  /** A route handler: the built-in health check, or an application handler known by name. */
  datatype Handler = HealthCheck | RouteHandler(name: string)

  /** The match context handed to a handler: the named groups of each URL component. */
  datatype Context = Context(
    protocol: Groups, username: Groups, password: Groups, hostname: Groups,
    port: Groups, pathname: Groups, search: Groups, hash: Groups)

  datatype Rule = Rule(httpMethod: string, pattern: Pattern, handler: Handler)

  /** The constructor's parameter object; `baseUrl` and `options` are optional. */
  datatype RuleParams = RuleParams(
    httpMethod: string, pattern: PatternSource, baseUrl: Option<string>,
    options: Option<PatternOptions>, handler: Handler)

  const DEFAULT_OPTIONS := PatternOptions(false)

  /** `if (baseUrl)`: a base is passed on only when it is present and not empty. */
  function EffectiveBase(baseUrl: Option<string>): (base: Option<string>)
    ensures base.Some? <==> baseUrl.Some? && baseUrl.value != ""
    ensures base.Some? ==> base == baseUrl
  {
    if baseUrl.Some? && baseUrl.value != "" then baseUrl else None
  }

  /** `options = { ignoreCase: false }`: the default applies only when no options are given. */
  function EffectiveOptions(options: Option<PatternOptions>): (o: PatternOptions)
    ensures options.None? ==> !o.ignoreCase
    ensures options.Some? ==> o == options.value
  {
    if options.None? then DEFAULT_OPTIONS else options.value
  }

  /**
   * The constructor: the method upper-cased, the pattern compiled (throwing
   * what the compiler throws), the handler kept as given.
   */
  function NewRule(params: RuleParams, engine: Engine): (r: Result<Rule, Thrown>)
    ensures var compiled := Compile(params.pattern, EffectiveBase(params.baseUrl), EffectiveOptions(params.options), engine);
      && (r.Success? <==> compiled.Success?)
      && (r.Success? ==> r.value == Rule(Upper(params.httpMethod), compiled.value, params.handler))
      && (r.Failure? ==> r.error == compiled.error)
  {
    var httpMethod := Upper(params.httpMethod);
    var pattern :- Compile(params.pattern, EffectiveBase(params.baseUrl), EffectiveOptions(params.options), engine);
    Success(Rule(httpMethod, pattern, params.handler))
  }

  /** The eight group maps of an `exec` result, protocol through hash. */
  function ContextOf(result: ExecResult): Context
  {
    Context(
      result.protocol.groups, result.username.groups, result.password.groups, result.hostname.groups,
      result.port.groups, result.pathname.groups, result.search.groups, result.hash.groups)
  }

  /**
   * `match(url, method)`: no match unless the upper-cased request method is the
   * rule's method and the pattern both tests and executes successfully; a match
   * is the group maps of the `exec` result.
   */
  function Match(rule: Rule, url: string, httpMethod: string, engine: Engine): (ctx: Option<Context>)
    ensures ctx.Some? <==> Upper(httpMethod) == rule.httpMethod && Exec(rule.pattern, url, engine).Some?
    ensures ctx.Some? ==> ctx.value == ContextOf(Exec(rule.pattern, url, engine).value)
  {
    if Upper(httpMethod) != rule.httpMethod then None
    else if !Test(rule.pattern, url, engine) then None
    else
      match Exec(rule.pattern, url, engine)
      case None => None
      case Some(result) => Some(ContextOf(result))
  }

  /** Matching sees the request method only through its upper-cased form. */
  lemma MatchIgnoresMethodCase(rule: Rule, url: string, m1: string, m2: string, engine: Engine)
    requires Upper(m1) == Upper(m2)
    ensures Match(rule, url, m1, engine) == Match(rule, url, m2, engine)
  {
  }

  /**
   * On a method mismatch the pattern is never consulted: the answer is no
   * match whatever the URL machinery would say.
   */
  lemma MethodMismatchSkipsPattern(rule: Rule, url: string, httpMethod: string, e1: Engine, e2: Engine)
    requires Upper(httpMethod) != rule.httpMethod
    ensures Match(rule, url, httpMethod, e1) == None && Match(rule, url, httpMethod, e2) == None
  {
  }

  /** A rule registered for `GET` answers a request whose method is written `get`. */
  lemma LowerCaseMethodMatches(params: RuleParams, url: string, engine: Engine)
    requires params.httpMethod == "GET" && NewRule(params, engine).Success?
    ensures Match(NewRule(params, engine).value, url, "get", engine) == Match(NewRule(params, engine).value, url, "GET", engine)
    ensures Match(NewRule(params, engine).value, url, "get", engine).Some? <==> Exec(NewRule(params, engine).value.pattern, url, engine).Some?
  {
    assert Upper("get") == "GET";
    assert Upper("GET") == "GET";
  }
}
