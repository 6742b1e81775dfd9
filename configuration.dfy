/**
 * Start-up configuration (src/utilities/configuration.ts): every required
 * environment variable must be set and non-empty, the numeric ones must parse
 * as numbers, and the result is assembled once into a read-only record.
 * `process.env` is a map; `Number(...)` is the `parse` oracle (`None` = NaN);
 * `process.exit(1)` with its `console.error` text is an `Exit` value.
 */
module Configuration {
  import opened Wrappers
  import opened Text

  type Env = map<string, string>

  /** What the process does instead of starting: exit status and the text written to stderr. */
  datatype Exit = Exit(code: int, stderr: string)

  const HTTP_SERVER_PORT := "HTTP_SERVER_PORT"
  const HTTP_SERVER_BASE_URL := "HTTP_SERVER_BASE_URL"
  const HTTP_SERVER_ROUTE := "HTTP_SERVER_ROUTE"
  const HTTP_SERVER_MAX_HEADERS_COUNT := "HTTP_SERVER_MAX_HEADERS_COUNT"
  const HTTP_SERVER_HEADERS_TIMEOUT := "HTTP_SERVER_HEADERS_TIMEOUT"
  const HTTP_SERVER_REQUEST_TIMEOUT := "HTTP_SERVER_REQUEST_TIMEOUT"
  const HTTP_SERVER_TIMEOUT := "HTTP_SERVER_TIMEOUT"
  const HTTP_SERVER_MAX_REQUESTS_PER_SOCKET := "HTTP_SERVER_MAX_REQUESTS_PER_SOCKET"
  const HTTP_SERVER_KEEP_ALIVE_TIMEOUT := "HTTP_SERVER_KEEP_ALIVE_TIMEOUT"
  const HTTP_SERVER_KEEP_ALIVE_TIMEOUT_BUFFER := "HTTP_SERVER_KEEP_ALIVE_TIMEOUT_BUFFER"
  const HTTP_SERVER_FORCE_CLOSE_TIMEOUT := "HTTP_SERVER_FORCE_CLOSE_TIMEOUT"
  const NODE_MAX_SOCKETS := "NODE_MAX_SOCKETS"
  const NODE_MAX_TOTAL_SOCKETS := "NODE_MAX_TOTAL_SOCKETS"
  const NODE_DEFAULT_HIGH_WATERMARK := "NODE_DEFAULT_HIGH_WATERMARK"
  const NODE_PIPE_TIMEOUT := "NODE_PIPE_TIMEOUT"

  /** `REQUIRED_ENVIRONMENT_VARIABLES`, in declaration order. */
  const REQUIRED_ENVIRONMENT_VARIABLES: seq<string> := [
    HTTP_SERVER_PORT, HTTP_SERVER_BASE_URL, HTTP_SERVER_ROUTE,
    HTTP_SERVER_MAX_HEADERS_COUNT, HTTP_SERVER_HEADERS_TIMEOUT, HTTP_SERVER_REQUEST_TIMEOUT,
    HTTP_SERVER_TIMEOUT, HTTP_SERVER_MAX_REQUESTS_PER_SOCKET, HTTP_SERVER_KEEP_ALIVE_TIMEOUT,
    HTTP_SERVER_KEEP_ALIVE_TIMEOUT_BUFFER, HTTP_SERVER_FORCE_CLOSE_TIMEOUT,
    NODE_MAX_SOCKETS, NODE_MAX_TOTAL_SOCKETS, NODE_DEFAULT_HIGH_WATERMARK, NODE_PIPE_TIMEOUT
  ]

  /** The keys the constructor converts with `#toNumber`, in the order it converts them. */
  const NUMERIC_KEYS: seq<string> := [
    HTTP_SERVER_PORT, HTTP_SERVER_MAX_HEADERS_COUNT, HTTP_SERVER_HEADERS_TIMEOUT,
    HTTP_SERVER_REQUEST_TIMEOUT, HTTP_SERVER_TIMEOUT, HTTP_SERVER_MAX_REQUESTS_PER_SOCKET,
    HTTP_SERVER_KEEP_ALIVE_TIMEOUT, HTTP_SERVER_KEEP_ALIVE_TIMEOUT_BUFFER, HTTP_SERVER_FORCE_CLOSE_TIMEOUT,
    NODE_PIPE_TIMEOUT, NODE_MAX_SOCKETS, NODE_MAX_TOTAL_SOCKETS, NODE_DEFAULT_HIGH_WATERMARK
  ]

  datatype HttpServerSettings = HttpServerSettings(
    port: real, baseUrl: string, route: string,
    maxHeadersCount: real, headersTimeout: real, requestTimeout: real, timeout: real,
    maxRequestsPerSocket: real, keepAliveTimeout: real, keepAliveTimeoutBuffer: real,
    forceCloseTimeout: real)

  datatype NodeSettings = NodeSettings(pipeTimeout: real)

  /** The object `getEnvVariables()` returns. */
  datatype EnvironmentVariables = EnvironmentVariables(httpServer: HttpServerSettings, node: NodeSettings)

  /** The values handed to `#setGlobalValues` (the process-wide mutation itself is not modelled). */
  datatype GlobalValues = GlobalValues(maxSockets: real, maxTotalSockets: real, defaultHighWaterMark: real)

  /** `process.env[key]` is truthy: present and not the empty string. */
  predicate IsSet(env: Env, key: string) { key in env && env[key] != "" }

  function Get(env: Env, key: string): Option<string>
  {
    if key in env then Some(env[key]) else None
  }

  /** The keys of `keys` that are absent or empty, in list order. */
  function MissingKeys(keys: seq<string>, env: Env): (missing: seq<string>)
    ensures |missing| <= |keys|
  {
    if keys == [] then []
    else (if IsSet(env, keys[0]) then [] else [keys[0]]) + MissingKeys(keys[1..], env)
  }

  /** A key is reported exactly when it is in the list and absent or empty. */
  lemma {:induction false} MissingKeysMembers(keys: seq<string>, env: Env)
    ensures forall k :: k in MissingKeys(keys, env) <==> k in keys && !IsSet(env, k)
  {
    if keys != [] {
      MissingKeysMembers(keys[1..], env);
      assert keys == [keys[0]] + keys[1..];
    }
  }

  /** Missing keys keep list order: the check over `a + b` reports `a`'s first. */
  lemma {:induction false} MissingKeysAppend(a: seq<string>, b: seq<string>, env: Env)
    ensures MissingKeys(a + b, env) == MissingKeys(a, env) + MissingKeys(b, env)
  {
    if a == [] {
      assert a + b == b;
    } else {
      assert (a + b)[0] == a[0];
      assert (a + b)[1..] == a[1..] + b;
      MissingKeysAppend(a[1..], b, env);
    }
  }

  function MissingMessage(key: string): string
  {
    "* Missing " + key + " environment variable"
  }

  function MissingMessages(keys: seq<string>): (lines: seq<string>)
    ensures |lines| == |keys|
  {
    seq(|keys|, i requires 0 <= i < |keys| => MissingMessage(keys[i]))
  }

  /** The message lines of `a + b` are those of `a` followed by those of `b`. */
  lemma MissingMessagesAppend(a: seq<string>, b: seq<string>)
    ensures MissingMessages(a + b) == MissingMessages(a) + MissingMessages(b)
  {
    assert forall i :: 0 <= i < |a + b| ==> MissingMessages(a + b)[i] == (MissingMessages(a) + MissingMessages(b))[i];
  }

  /** The exit the missing-variable check over `required` performs, if any. */
  function MissingCheck(required: seq<string>, env: Env): (abort: Option<Exit>)
    ensures abort.Some? <==> exists k :: k in required && !IsSet(env, k)
    ensures abort.Some? ==> abort.value.code == 1
  {
    var missing := MissingKeys(required, env);
    MissingKeysMembers(required, env);
    if |missing| > 0 then
      assert missing[0] in missing;
      Some(Exit(1, Join(MissingMessages(missing), "\n")))
    else None
  }

  /**
   * `#checkForMissingEnvironmentVariables`: one `* Missing <KEY> environment
   * variable` line per absent or empty required key, in list order, and exit
   * status 1 exactly when there is at least one such line.
   */
  method CheckForMissingEnvironmentVariables(keys: seq<string>, env: Env) returns (abort: Option<Exit>)
    ensures abort == MissingCheck(keys, env)
  {
    var errorMessages: seq<string> := [];
    ghost var missing: seq<string> := [];
    for i := 0 to |keys|
      invariant missing == MissingKeys(keys[..i], env)
      invariant errorMessages == MissingMessages(missing)
    {
      StepMissingKeys(keys, i, env);
      if !IsSet(env, keys[i]) {
        MissingMessagesAppend(missing, [keys[i]]);
        errorMessages := errorMessages + [MissingMessage(keys[i])];
        missing := missing + [keys[i]];
      }
    }
    assert keys[..|keys|] == keys;
    if |errorMessages| > 0 {
      abort := Some(Exit(1, Join(errorMessages, "\n")));
    } else {
      abort := None;
    }
  }

  /** One more key extends the missing list by that key exactly when it is unset. */
  lemma StepMissingKeys(keys: seq<string>, i: nat, env: Env)
    requires i < |keys|
    ensures MissingKeys(keys[..i + 1], env) ==
      MissingKeys(keys[..i], env) + (if IsSet(env, keys[i]) then [] else [keys[i]])
  {
    assert keys[..i + 1] == keys[..i] + [keys[i]];
    MissingKeysAppend(keys[..i], [keys[i]], env);
  }

  function InvalidValueMessage(key: string): string
  {
    "Invalid value for '" + key + "' environment variable"
  }

  /** `#toNumber(key, value)`: the parsed number, or exit 1 naming the key when it is NaN. */
  function ToNumber(key: string, value: Option<string>, parse: string -> Option<real>): (n: Result<real, Exit>)
    ensures n.Failure? <==> value.None? || parse(value.value).None?
    ensures n.Success? ==> n.value == parse(value.value).value
    ensures n.Failure? ==> n.error == Exit(1, InvalidValueMessage(key))
  {
    // Number(undefined) is NaN
    var valueAsNumber := if value.None? then None else parse(value.value);
    if valueAsNumber.None? then Failure(Exit(1, InvalidValueMessage(key)))
    else Success(valueAsNumber.value)
  }

  /** The first key of `keys` whose value is not a number, if any. */
  function FirstNotANumber(keys: seq<string>, env: Env, parse: string -> Option<real>): (k: Option<string>)
    ensures k.Some? ==> k.value in keys && ToNumber(k.value, Get(env, k.value), parse).Failure?
    ensures k.None? <==> forall key :: key in keys ==> ToNumber(key, Get(env, key), parse).Success?
    ensures k.Some? ==> exists i :: 0 <= i < |keys| && keys[i] == k.value &&
                                    forall j :: 0 <= j < i ==> ToNumber(keys[j], Get(env, keys[j]), parse).Success?
  {
    if keys == [] then None
    else if ToNumber(keys[0], Get(env, keys[0]), parse).Failure? then Some(keys[0])
    else FirstNotANumber(keys[1..], env, parse)
  }

  /** `key` is set and its value parses to `x`. */
  predicate ParsesTo(env: Env, parse: string -> Option<real>, key: string, x: real)
  {
    key in env && parse(env[key]) == Some(x)
  }

  /**
   * The `#toNumber` calls of the constructor, one per key in order: the numbers,
   * or the exit of the first key whose value is not a number.
   */
  function ConvertAll(keys: seq<string>, env: Env, parse: string -> Option<real>): (r: Result<seq<real>, Exit>)
    ensures r.Failure? <==> FirstNotANumber(keys, env, parse).Some?
    ensures r.Failure? ==> r.error == Exit(1, InvalidValueMessage(FirstNotANumber(keys, env, parse).value))
    ensures r.Success? ==> |r.value| == |keys| && forall i :: 0 <= i < |keys| ==> ParsesTo(env, parse, keys[i], r.value[i])
  {
    if keys == [] then Success([])
    else
      var first :- ToNumber(keys[0], Get(env, keys[0]), parse);
      var rest :- ConvertAll(keys[1..], env, parse);
      Success([first] + rest)
  }

  /** The numbers `ConvertAll` yields over `NUMERIC_KEYS`, key by key. */
  lemma NumericValues(env: Env, parse: string -> Option<real>, n: seq<real>)
    requires |n| == |NUMERIC_KEYS| && forall i :: 0 <= i < |NUMERIC_KEYS| ==> ParsesTo(env, parse, NUMERIC_KEYS[i], n[i])
    ensures ParsesTo(env, parse, HTTP_SERVER_PORT, n[0]) && ParsesTo(env, parse, HTTP_SERVER_MAX_HEADERS_COUNT, n[1])
    ensures ParsesTo(env, parse, HTTP_SERVER_HEADERS_TIMEOUT, n[2]) && ParsesTo(env, parse, HTTP_SERVER_REQUEST_TIMEOUT, n[3])
    ensures ParsesTo(env, parse, HTTP_SERVER_TIMEOUT, n[4]) && ParsesTo(env, parse, HTTP_SERVER_MAX_REQUESTS_PER_SOCKET, n[5])
    ensures ParsesTo(env, parse, HTTP_SERVER_KEEP_ALIVE_TIMEOUT, n[6]) && ParsesTo(env, parse, HTTP_SERVER_KEEP_ALIVE_TIMEOUT_BUFFER, n[7])
    ensures ParsesTo(env, parse, HTTP_SERVER_FORCE_CLOSE_TIMEOUT, n[8]) && ParsesTo(env, parse, NODE_PIPE_TIMEOUT, n[9])
    ensures ParsesTo(env, parse, NODE_MAX_SOCKETS, n[10]) && ParsesTo(env, parse, NODE_MAX_TOTAL_SOCKETS, n[11])
    ensures ParsesTo(env, parse, NODE_DEFAULT_HIGH_WATERMARK, n[12])
  {
  }

  /** `Number.MAX_SAFE_INTEGER`, the upper bound of Node's integer argument check. */
  const MAX_SAFE_INTEGER: int := 0x1F_FFFF_FFFF_FFFF

  /**
   * The values `Stream.setDefaultHighWaterMark` accepts: a whole number from 0
   * to `Number.MAX_SAFE_INTEGER`; any other value makes it throw a `RangeError`.
   */
  predicate IsValidHighWaterMark(x: real)
  {
    x.Floor as real == x && 0 <= x.Floor <= MAX_SAFE_INTEGER
  }

  /** `NODE_DEFAULT_HIGH_WATERMARK` is a number, but one `setDefaultHighWaterMark` rejects. */
  predicate HighWaterMarkRejected(env: Env, parse: string -> Option<real>)
  {
    NODE_DEFAULT_HIGH_WATERMARK in env && parse(env[NODE_DEFAULT_HIGH_WATERMARK]).Some? &&
    !IsValidHighWaterMark(parse(env[NODE_DEFAULT_HIGH_WATERMARK]).value)
  }

  /**
   * The `RangeError` code `setDefaultHighWaterMark` throws with. The throw is
   * not caught, so the process ends with status 1 and the runtime's report of
   * the error, which this text stands for.
   */
  const HIGH_WATER_MARK_RANGE_ERROR := "ERR_OUT_OF_RANGE"

  /**
   * The constructor after the missing-variable check: the settings object and
   * the global values, with `baseUrl` and `route` copied and every numeric key
   * converted in source order, stopping at the first one that is not a number;
   * then `#setGlobalValues`, whose high-water-mark call throws on a value it
   * does not accept.
   */
  function Assemble(env: Env, parse: string -> Option<real>): (r: Result<(EnvironmentVariables, GlobalValues), Exit>)
    requires MissingCheck(REQUIRED_ENVIRONMENT_VARIABLES, env).None?
    ensures r.Failure? <==> FirstNotANumber(NUMERIC_KEYS, env, parse).Some? || HighWaterMarkRejected(env, parse)
    ensures FirstNotANumber(NUMERIC_KEYS, env, parse).Some? ==>
      r == Failure(Exit(1, InvalidValueMessage(FirstNotANumber(NUMERIC_KEYS, env, parse).value)))
    ensures FirstNotANumber(NUMERIC_KEYS, env, parse).None? && HighWaterMarkRejected(env, parse) ==>
      r == Failure(Exit(1, HIGH_WATER_MARK_RANGE_ERROR))
    ensures r.Success? ==>
      var s := r.value.0.httpServer;
      && Some(s.baseUrl) == Get(env, HTTP_SERVER_BASE_URL)
      && Some(s.route) == Get(env, HTTP_SERVER_ROUTE)
      && ParsesTo(env, parse, HTTP_SERVER_PORT, s.port)
      && ParsesTo(env, parse, HTTP_SERVER_MAX_HEADERS_COUNT, s.maxHeadersCount)
      && ParsesTo(env, parse, HTTP_SERVER_HEADERS_TIMEOUT, s.headersTimeout)
      && ParsesTo(env, parse, HTTP_SERVER_REQUEST_TIMEOUT, s.requestTimeout)
      && ParsesTo(env, parse, HTTP_SERVER_TIMEOUT, s.timeout)
      && ParsesTo(env, parse, HTTP_SERVER_MAX_REQUESTS_PER_SOCKET, s.maxRequestsPerSocket)
      && ParsesTo(env, parse, HTTP_SERVER_KEEP_ALIVE_TIMEOUT, s.keepAliveTimeout)
      && ParsesTo(env, parse, HTTP_SERVER_KEEP_ALIVE_TIMEOUT_BUFFER, s.keepAliveTimeoutBuffer)
      && ParsesTo(env, parse, HTTP_SERVER_FORCE_CLOSE_TIMEOUT, s.forceCloseTimeout)
    ensures r.Success? ==>
      && ParsesTo(env, parse, NODE_PIPE_TIMEOUT, r.value.0.node.pipeTimeout)
      && ParsesTo(env, parse, NODE_MAX_SOCKETS, r.value.1.maxSockets)
      && ParsesTo(env, parse, NODE_MAX_TOTAL_SOCKETS, r.value.1.maxTotalSockets)
      && ParsesTo(env, parse, NODE_DEFAULT_HIGH_WATERMARK, r.value.1.defaultHighWaterMark)
      && IsValidHighWaterMark(r.value.1.defaultHighWaterMark)
  {
    assert HTTP_SERVER_BASE_URL in REQUIRED_ENVIRONMENT_VARIABLES && HTTP_SERVER_ROUTE in REQUIRED_ENVIRONMENT_VARIABLES;
    var n :- ConvertAll(NUMERIC_KEYS, env, parse);
    NumericValues(env, parse, n);
    var httpServer := HttpServerSettings(
      n[0], env[HTTP_SERVER_BASE_URL], env[HTTP_SERVER_ROUTE],
      n[1], n[2], n[3], n[4], n[5], n[6], n[7], n[8]);
    var globals := GlobalValues(n[10], n[11], n[12]);
    if !IsValidHighWaterMark(globals.defaultHighWaterMark) then
      Failure(Exit(1, HIGH_WATER_MARK_RANGE_ERROR))
    else
      Success((EnvironmentVariables(httpServer, NodeSettings(n[9])), globals))
  }

  /** The whole constructor: the missing-variable check first, then `Assemble`. */
  function Load(env: Env, parse: string -> Option<real>): (r: Result<(EnvironmentVariables, GlobalValues), Exit>)
    ensures r.Failure? ==> r.error.code == 1
    ensures MissingCheck(REQUIRED_ENVIRONMENT_VARIABLES, env).Some? ==>
      r == Failure(MissingCheck(REQUIRED_ENVIRONMENT_VARIABLES, env).value)
    ensures r.Success? <==>
      && MissingCheck(REQUIRED_ENVIRONMENT_VARIABLES, env).None?
      && FirstNotANumber(NUMERIC_KEYS, env, parse).None?
      && !HighWaterMarkRejected(env, parse)
  {
    match MissingCheck(REQUIRED_ENVIRONMENT_VARIABLES, env)
    case Some(abort) => Failure(abort)
    case None => Assemble(env, parse)
  }

  /**
   * The missing-variable check runs before any conversion: when a key is
   * missing, start-up exits with the list of missing keys whatever the values
   * would parse to.
   */
  lemma MissingCheckComesFirst(env: Env, parse1: string -> Option<real>, parse2: string -> Option<real>)
    requires exists k :: k in REQUIRED_ENVIRONMENT_VARIABLES && !IsSet(env, k)
    ensures Load(env, parse1) == Load(env, parse2)
    ensures Load(env, parse1).Failure? && Load(env, parse1).error.code == 1
    ensures Load(env, parse1).error.stderr == Join(MissingMessages(MissingKeys(REQUIRED_ENVIRONMENT_VARIABLES, env)), "\n")
  {
  }

  /**
   * With every required key set, start-up fails exactly when a numeric key is
   * not a number or the high-water mark is one Node rejects. A value that is
   * not a number is reported first, naming the first such key in conversion
   * order, because every conversion happens before `#setGlobalValues`.
   */
  lemma LoadFailsAtFirstNotANumber(env: Env, parse: string -> Option<real>)
    requires forall k :: k in REQUIRED_ENVIRONMENT_VARIABLES ==> IsSet(env, k)
    ensures Load(env, parse).Failure? <==>
      FirstNotANumber(NUMERIC_KEYS, env, parse).Some? || HighWaterMarkRejected(env, parse)
    ensures FirstNotANumber(NUMERIC_KEYS, env, parse).Some? ==>
      Load(env, parse).error == Exit(1, InvalidValueMessage(FirstNotANumber(NUMERIC_KEYS, env, parse).value))
    ensures FirstNotANumber(NUMERIC_KEYS, env, parse).None? && HighWaterMarkRejected(env, parse) ==>
      Load(env, parse).error == Exit(1, HIGH_WATER_MARK_RANGE_ERROR)
  {
  }

  /**
   * A non-integer or negative high-water mark ends start-up even though it is a
   * number: with every key set and numeric, `NODE_DEFAULT_HIGH_WATERMARK=1.5`
   * is rejected.
   */
  lemma FractionalHighWaterMarkFails(env: Env, parse: string -> Option<real>)
    requires forall k :: k in REQUIRED_ENVIRONMENT_VARIABLES ==> IsSet(env, k)
    requires FirstNotANumber(NUMERIC_KEYS, env, parse).None?
    requires NODE_DEFAULT_HIGH_WATERMARK in env && parse(env[NODE_DEFAULT_HIGH_WATERMARK]) == Some(1.5)
    ensures Load(env, parse) == Failure(Exit(1, HIGH_WATER_MARK_RANGE_ERROR))
  {
    assert (1.5).Floor == 1;
  }

  /**
   * A successful start-up stores `baseUrl` and `route` verbatim and every other
   * setting as the number its same-named variable parses to.
   */
  lemma LoadedSettings(env: Env, parse: string -> Option<real>)
    requires Load(env, parse).Success?
    ensures forall k :: k in REQUIRED_ENVIRONMENT_VARIABLES ==> IsSet(env, k)
    ensures var s := Load(env, parse).value.0.httpServer;
      && Some(s.baseUrl) == Get(env, HTTP_SERVER_BASE_URL)
      && Some(s.route) == Get(env, HTTP_SERVER_ROUTE)
      && ParsesTo(env, parse, HTTP_SERVER_PORT, s.port)
      && ParsesTo(env, parse, HTTP_SERVER_MAX_HEADERS_COUNT, s.maxHeadersCount)
      && ParsesTo(env, parse, HTTP_SERVER_HEADERS_TIMEOUT, s.headersTimeout)
      && ParsesTo(env, parse, HTTP_SERVER_REQUEST_TIMEOUT, s.requestTimeout)
      && ParsesTo(env, parse, HTTP_SERVER_TIMEOUT, s.timeout)
      && ParsesTo(env, parse, HTTP_SERVER_MAX_REQUESTS_PER_SOCKET, s.maxRequestsPerSocket)
      && ParsesTo(env, parse, HTTP_SERVER_KEEP_ALIVE_TIMEOUT, s.keepAliveTimeout)
      && ParsesTo(env, parse, HTTP_SERVER_KEEP_ALIVE_TIMEOUT_BUFFER, s.keepAliveTimeoutBuffer)
      && ParsesTo(env, parse, HTTP_SERVER_FORCE_CLOSE_TIMEOUT, s.forceCloseTimeout)
    ensures ParsesTo(env, parse, NODE_PIPE_TIMEOUT, Load(env, parse).value.0.node.pipeTimeout)
  {
    var n := ConvertAll(NUMERIC_KEYS, env, parse).value;
    assert ParsesTo(env, parse, NUMERIC_KEYS[0], n[0]);
  }

  /** `ConfigurationManager`: the settings object is assembled once and never changes. */
  class ConfigurationManager {
    const environmentVariables: EnvironmentVariables

    constructor (environmentVariables: EnvironmentVariables)
      ensures this.environmentVariables == environmentVariables
    {
      this.environmentVariables := environmentVariables;
    }

    /** `getEnvVariables()`: the object the constructor stored. */
    function GetEnvVariables(): (vars: EnvironmentVariables)
      ensures vars == environmentVariables
    {
      environmentVariables
    }
  }

  /**
   * `new ConfigurationManager()`: the missing-variable check, then the numeric
   * conversions; a failure of either ends the process instead of returning.
   */
  method NewConfigurationManager(env: Env, parse: string -> Option<real>) returns (r: Result<ConfigurationManager, Exit>)
    ensures r.Failure? <==> Load(env, parse).Failure?
    ensures r.Failure? ==> r.error == Load(env, parse).error
    ensures r.Success? ==> fresh(r.value) && r.value.GetEnvVariables() == Load(env, parse).value.0
  {
    var abort := CheckForMissingEnvironmentVariables(REQUIRED_ENVIRONMENT_VARIABLES, env);
    if abort.Some? {
      return Failure(abort.value);
    }
    match Assemble(env, parse)
    case Failure(exit) =>
      r := Failure(exit);
    case Success(assembled) =>
      var manager := new ConfigurationManager(assembled.0);
      r := Success(manager);
  }
}
