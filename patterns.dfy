/**
 * The URL patterns routes are compiled into. The runtime's `URLPattern`
 * compiler and URL parser are foreign: `Engine` holds them as opaque total
 * functions. The one template shape the router registers itself,
 * `{ pathname: '/alive' }`, is modelled directly: the pathname must equal the
 * literal and every other component is a wildcard.
 */
module Patterns {
  import opened Wrappers
  import opened Errors

  /** Named captures of one URL component: name -> captured text, or absent (`undefined`). */
  type Groups = map<string, Option<string>>

  /** The eight components the runtime's URL parser splits an absolute URL into. */
  datatype UrlParts = UrlParts(
    protocol: string, username: string, password: string, hostname: string,
    port: string, pathname: string, search: string, hash: string)

  datatype ComponentResult = ComponentResult(input: string, groups: Groups)

  /** `URLPattern.exec(...)`'s result, without its `inputs`. */
  datatype ExecResult = ExecResult(
    protocol: ComponentResult, username: ComponentResult, password: ComponentResult,
    hostname: ComponentResult, port: ComponentResult, pathname: ComponentResult,
    search: ComponentResult, hash: ComponentResult)

  datatype PatternOptions = PatternOptions(ignoreCase: bool)

  /** What a rule's `pattern` argument is: `{ pathname: p }`, or any other template (string or init object). */
  datatype PatternSource = PathnameInit(pathname: string) | OtherSource(text: string)

  /** A compiled `URLPattern`. */
  datatype Pattern =
    | LiteralPathname(pathname: string)
    | Compiled(source: PatternSource, baseUrl: Option<string>, options: PatternOptions)

  /** The runtime's URL parser and its `URLPattern` compiler and matcher. */
  datatype Engine = Engine(
    parse: string -> Option<UrlParts>,
    compileError: (PatternSource, Option<string>, PatternOptions) -> Option<Thrown>,
    exec: (PatternSource, Option<string>, PatternOptions, string) -> Option<ExecResult>)

  /**
   * A character that stands for itself in a pathname template and that URL
   * canonicalisation leaves alone: an ASCII letter or digit, `-`, `_`, `~` or `/`.
   * Pattern syntax (`:*(){}\?+`), `.` (dot segments) and anything percent-encoded
   * are excluded.
   */
  predicate IsCanonicalPathChar(c: char)
  {
    'a' <= c <= 'z' || 'A' <= c <= 'Z' || '0' <= c <= '9' || c == '-' || c == '_' || c == '~' || c == '/'
  }

  /**
   * A pathname template that is already in canonical form and holds no pattern
   * syntax: it begins with `/` and every character stands for itself.
   */
  predicate IsCanonicalPathname(p: string)
  {
    |p| >= 1 && p[0] == '/' && forall i :: 0 <= i < |p| ==> IsCanonicalPathChar(p[i])
  }

  /** The part of `url` that matched, captured under the wildcard's group name `0`. */
  function Wildcard(component: string): ComponentResult
  {
    ComponentResult(component, map["0" := Some(component)])
  }

  /** `exec` of `{ pathname: p }` on a URL whose pathname is `p`. */
  function LiteralPathnameResult(parts: UrlParts): ExecResult
  {
    ExecResult(
      Wildcard(parts.protocol), Wildcard(parts.username), Wildcard(parts.password),
      Wildcard(parts.hostname), Wildcard(parts.port), ComponentResult(parts.pathname, map[]),
      Wildcard(parts.search), Wildcard(parts.hash))
  }

  /** A `{ pathname }` template the model compiles itself: canonical, no base, case-sensitive. */
  predicate IsLiteralTemplate(source: PatternSource, baseUrl: Option<string>, options: PatternOptions)
  {
    source.PathnameInit? && baseUrl.None? && !options.ignoreCase && IsCanonicalPathname(source.pathname)
  }

  /**
   * `new URLPattern(source, baseUrl, options)`: a canonical `{ pathname }`
   * template with no base and case-sensitive matching compiles to a
   * literal-pathname pattern; anything else is compiled, or rejected, by the
   * runtime.
   */
  function Compile(source: PatternSource, baseUrl: Option<string>, options: PatternOptions, engine: Engine): (p: Result<Pattern, Thrown>)
    ensures IsLiteralTemplate(source, baseUrl, options) ==> p == Success(LiteralPathname(source.pathname))
    ensures !IsLiteralTemplate(source, baseUrl, options) ==>
      && (p.Failure? <==> engine.compileError(source, baseUrl, options).Some?)
      && (p.Success? ==> p.value == Compiled(source, baseUrl, options))
    ensures p.Failure? ==> Some(p.error) == engine.compileError(source, baseUrl, options)
  {
    if IsLiteralTemplate(source, baseUrl, options) then
      Success(LiteralPathname(source.pathname))
    else
      match engine.compileError(source, baseUrl, options)
      case Some(error) => Failure(error)
      case None => Success(Compiled(source, baseUrl, options))
  }

  /** `pattern.exec(url)`; `None` is `null`. */
  function Exec(p: Pattern, url: string, engine: Engine): (r: Option<ExecResult>)
    ensures p.LiteralPathname? ==>
      (r.Some? <==> engine.parse(url).Some? && engine.parse(url).value.pathname == p.pathname)
    ensures p.LiteralPathname? && r.Some? ==> r.value.pathname == ComponentResult(p.pathname, map[])
    ensures p.Compiled? ==> r == engine.exec(p.source, p.baseUrl, p.options, url)
  {
    match p
    case LiteralPathname(pathname) =>
      (match engine.parse(url)
       case None => None
       case Some(parts) => if parts.pathname == pathname then Some(LiteralPathnameResult(parts)) else None)
    case Compiled(source, baseUrl, options) => engine.exec(source, baseUrl, options, url)
  }

  /** `pattern.test(url)`: exactly when `exec` finds a match. */
  predicate Test(p: Pattern, url: string, engine: Engine)
    ensures p.LiteralPathname? ==>
      (Test(p, url, engine) <==> engine.parse(url).Some? && engine.parse(url).value.pathname == p.pathname)
  {
    Exec(p, url, engine).Some?
  }

  /**
   * A literal-pathname pattern matches a URL exactly when the URL parses and its
   * pathname equals the literal; it captures nothing from the pathname and
   * captures every other component whole under the group `0`.
   */
  lemma LiteralPathnameExec(path: string, url: string, engine: Engine)
    ensures Test(LiteralPathname(path), url, engine) <==>
      engine.parse(url).Some? && engine.parse(url).value.pathname == path
    ensures Test(LiteralPathname(path), url, engine) ==>
      var r := Exec(LiteralPathname(path), url, engine).value;
      var parts := engine.parse(url).value;
      && r.pathname == ComponentResult(parts.pathname, map[])
      && r.protocol.groups == map["0" := Some(parts.protocol)]
      && r.username.groups == map["0" := Some(parts.username)]
      && r.password.groups == map["0" := Some(parts.password)]
      && r.hostname.groups == map["0" := Some(parts.hostname)]
      && r.port.groups == map["0" := Some(parts.port)]
      && r.search.groups == map["0" := Some(parts.search)]
      && r.hash.groups == map["0" := Some(parts.hash)]
  {
  }
}
