# HTTP front door: request routing, responses, start-up configuration

A Dafny model of the request-routing core of a small Node.js HTTP server
written in TypeScript:

- **Rules** (`Rules`, `Patterns`): a rule keeps its HTTP method upper-cased,
  a compiled `URLPattern` and a handler. `match(url, method)` compares the
  upper-cased request method first. Only on equality does it consult the
  pattern, and a success yields the eight named-group maps, protocol to hash.
  The runtime's `URLPattern` compiler and URL parser are foreign. `Engine`
  holds them as opaque total functions, with `test(u)` defined as
  `exec(u) != null`. The templates the server registers itself, such as
  `{ pathname: '/alive' }`, are modelled directly. Such a template has no
  base URL and matches case-sensitively. Its pathname starts with `/` and
  holds only ASCII letters, digits, `-`, `_`, `~` and `/`, so URL
  canonicalisation leaves it unchanged. A URL matches when its pathname
  equals the literal, and every other component is a wildcard captured
  under the group `0`. Every other template goes to the runtime's compiler.
- **Router** (`Routing.Router`): a class whose `routes` field is the ordered,
  append-only rule list. `Register` appends one rule and returns the router
  for chaining. When the pattern does not compile it throws and leaves the
  list unchanged. `Find` is the scanning loop, proved equal to `Lookup`: the
  earliest-registered matching rule and its match result. It only reads the
  list.
- **Dispatch** (`Dispatch`): `createRouter` registers HEAD /alive, GET /alive,
  HEAD /ready and GET /ready, in that order. The request handler resolves the
  request URL against the base URL and calls `find` with the resolved href
  and the request method. Then exactly one of three things happens: the 404
  response, one call of the matched handler with the match context, or the
  error response for anything thrown in the `try` block. URL resolution that
  throws is such an error: it is not a no-match.
- **Responses** (`Responses`): records of status, status message,
  `content-length`, `content-type` and body, never I/O. Both responses put
  the body's UTF-8 byte length in `content-length`. `writeHead` is called as
  `writeHead(...STATUS_CODES[code]!, …)`. Spreading a missing table entry
  throws a `TypeError` before anything is written. The model keeps that
  case. When it happens inside `errorHandler`, the request handler writes no
  response and its promise rejects (`Dispatch.OneResponsePerRequest`).
  Start-up turns on `captureRejections` (src/utilities/configuration.ts:135)
  before the server is created. Node's `http.Server` therefore answers that
  request itself: it drops any headers set so far and sends 500 with the
  body `Internal Server Error` (`Dispatch.ClientResponse`).
- **Status table** (`StatusCodes`): the load-time loop that turns the
  runtime's code → reason-phrase table into `code -> [code, reason]`.
- **Configuration** (`Configuration`): the required-variable check runs
  first. It emits one `* Missing <KEY> environment variable` line per absent
  or empty key, in list order. Then the numeric keys are converted in source
  order, and the first value that is not a number ends start-up. Next,
  `#setGlobalValues` passes the high-water mark to Node's
  `setDefaultHighWaterMark`. That call throws a `RangeError` unless the
  value is an integer between 0 and 2^53 - 1, and the uncaught throw ends
  start-up with status 1. The settings record is assembled once and never
  changes.
  `process.env` is a map, and `Number(...)` is a `parse` oracle that returns
  `None` for NaN. `process.exit(1)` together with its stderr text is an
  `Exit` value.
- **CustomError** (`Errors`): an error carrying a status code. Its
  `toString` and `#formatError` render the message, the stack without its
  first line, and the chain of nested Error causes. The rendering stops at
  the first cause that is not an Error. Causes form a finite inductive
  datatype, and the runtime-captured stack is an optional string.

The repository holds two generations of this code, and one model covers
both:

- `PatternParser` (src/router/path-rule.ts) is `PathRule` again. Its
  constructor is `Rules.NewRule` and its `match` is `Rules.Match`. Its
  `handler` getter is the `handler` field of `Rules.Rule`, which `NewRule`
  sets to the given handler.
- The older `createRouter` (src/routes/router.ts) is `Dispatch.CreateRouter`
  and `Dispatch.App.HandleRequest`.
- The older `routeNotFound` and `errorHandler` (src/routes/utilities.ts) are
  `Responses.RouteNotFound` and `Responses.ErrorHandler`.
- The older table (src/utilities/constants.ts) is
  `StatusCodes.BuildStatusCodes`.
- The older `healthCheck` (src/routes/health-check.ts) is
  `Dispatch.HealthCheckReply`.

As written, src/routes/router.ts:3 imports `Router` from
`../router/index.ts`, which exports only `createRouter`. So that older
module does not load at all. The model describes what its body would do.

## Model

| member | source | states |
|---|---|---|
| `Text.Upper` | src/router/router.ts:26 | each character is upper-cased on its own: `a`..`z` become `A`..`Z` and every other character is kept, so the length is unchanged and no lower-case ASCII letter remains |
| `Text.UpperIdempotent` | src/router/router.ts:36 | upper-casing the already upper-cased stored method changes nothing |
| `Text.Utf8LengthAppend` | src/router/index.ts:74 | the UTF-8 byte length of a concatenation is the sum of the parts' byte lengths |
| `Text.Utf8LengthBounds` | src/router/index.ts:94 | a body takes between one and four bytes per character, and exactly one each iff it is ASCII |
| `Text.AsciiUtf8Length` | src/routes/utilities.ts:13 | an ASCII body's byte length is its character count |
| `Text.Utf8Length` | src/router/index.ts:74 | `Buffer.byteLength(body, 'utf8')` lies between one and four bytes per character |
| `Text.SplitLinesNoNewline` | src/utilities/error.ts:18 | no piece of `split('\n')` contains a newline |
| `Text.JoinSplitLines` | src/utilities/error.ts:18 | `split('\n')` followed by `join('\n')` gives back the string |
| `Text.DropFirstLine` | src/utilities/error.ts:18 | `split('\n').slice(1).join('\n')` is exactly the text after the first newline |
| `Text.FirstLineSplit` | src/utilities/error.ts:42 | the text after the first line is everything after the first newline character |
| `Text.SplitLines` | src/utilities/error.ts:18 | `split('\n')` yields one more piece than the string has newlines, and never zero pieces |
| `Text.Join` | src/utilities/error.ts:18 | `join(sep)` of no parts is empty; otherwise it starts with the first part, and its length is the parts' total length plus one separator between each pair of neighbours |
| `Text.AfterFirstLine` | src/utilities/error.ts:42 | the text after the first line is no longer than the string, and it is empty when the string has no newline |
| `Errors.NewCustomError` | src/utilities/error.ts:8-14 | the new error is a CustomError named `CustomError` with the given message, cause and stack, and `getStatusCode()` returns the given status |
| `Errors.GetStatusCode` | src/utilities/error.ts:33-35 | the status code is the one the error carries from its constructor |
| `Errors.StackPart` | src/utilities/error.ts:17-19 | the stack part is empty iff the stack is absent or empty; otherwise it is the `Stack trace:` heading followed by the stack minus its first line |
| `Errors.CauseChain` | src/utilities/error.ts:46-48 | the chain starts at the error, each element is the previous one's cause, all are Errors, and it ends at the first cause that is not an Error |
| `Errors.Sections` | src/utilities/error.ts:40-43 | one text per chain element, in order, each being that error's `name - message` followed by its stack part |
| `Errors.FormatError` | src/utilities/error.ts:39-53 | the formatted text starts with the error's own `name - message` and stack part, and is exactly that iff the cause is not an Error |
| `Errors.FormatErrorIsChainJoin` | src/utilities/error.ts:39-53 | `#formatError` is the `name - message` + stack sections of the cause chain joined by `\n[cause]: `: every Error of the chain once, in order, nothing past the first non-Error |
| `Errors.ToString` | src/utilities/error.ts:16-27 | the log text is the message, a newline, the stack part and a newline, followed by `\nCause:\n` and the joined cause-chain sections exactly when the cause is an Error |
| `Errors.Inspect` | src/utilities/error.ts:29-31 | the inspection output is the `toString()` output |
| `Errors.ToStringBare` | src/utilities/error.ts:21 | with no stack and no Error cause, the text is the message followed by two newlines |
| `StatusCodes.BuildStatusCodes` | src/utilities/configuration.ts:30-36 | the table has a key for every runtime code and no other, and each entry is `[code, reason]` with the runtime's phrase for that code |
| `StatusCodes.DistinctCodesKeepTheirReason` | src/utilities/constants.ts:5-11 | when the runtime table lists each code once, the phrase stored for an entry's code is that entry's phrase |
| `Configuration.MissingKeys` | src/utilities/configuration.ts:104-108 | no more keys are reported than are required |
| `Configuration.MissingKeysMembers` | src/utilities/configuration.ts:104-108 | a key is reported iff it is required and absent or empty |
| `Configuration.MissingKeysAppend` | src/utilities/configuration.ts:104 | the reported keys follow list order: the report for `a + b` is `a`'s report followed by `b`'s |
| `Configuration.MissingCheck` | src/utilities/configuration.ts:109-113 | start-up exits with status 1 iff at least one required key is absent or empty |
| `Configuration.MissingMessagesAppend` | src/utilities/configuration.ts:106-107 | the message lines for `a + b` are `a`'s lines followed by `b`'s |
| `Configuration.StepMissingKeys` | src/utilities/configuration.ts:104-108 | one more `forEach` step appends the current key to the report exactly when it is absent or empty |
| `Configuration.CheckForMissingEnvironmentVariables` | src/utilities/configuration.ts:102-114 | the `forEach` loop yields one `* Missing <KEY> environment variable` line per missing key in list order, joined by newlines, with exit 1 exactly when there is one |
| `Configuration.ToNumber` | src/utilities/configuration.ts:116-125 | the result is the parsed number; an unparsable or absent value instead exits 1 with `Invalid value for '<key>' environment variable` |
| `Configuration.FirstNotANumber` | src/utilities/configuration.ts:117-122 | names the first key in conversion order whose value is not a number: every earlier key converts. It is absent iff every key converts |
| `Configuration.ConvertAll` | src/utilities/configuration.ts:47-93 | converting the keys in order fails iff one key is not a number, naming the first such key; on success the i-th number is the parse of the i-th key's value |
| `Configuration.NumericValues` | src/utilities/configuration.ts:47-93 | the i-th converted number is the parse of the i-th numeric key, spelled out key by key |
| `Configuration.Assemble` | src/utilities/configuration.ts:46-93 | once every required key is set, assembly fails iff a numeric key is not a number or the high-water mark is rejected by the call at line 137. A non-number is named, the first one in conversion order, with exit 1. Otherwise a rejected high-water mark exits 1 with the range error. On success `baseUrl` and `route` are the raw values. Each of the nine numeric server settings, `pipeTimeout` and the three global values is the parse of its own variable, and the high-water mark is an integer in range |
| `Configuration.Load` | src/utilities/configuration.ts:43-93 | start-up succeeds iff no required key is missing, every numeric key converts and the high-water mark is accepted by the call at line 137. A missing key ends it with the missing-key exit before any conversion, and every failure exits 1 |
| `Configuration.MissingCheckComesFirst` | src/utilities/configuration.ts:44-46 | when a required key is missing, start-up exits 1 with the missing-key lines whatever the numeric parser would say |
| `Configuration.LoadFailsAtFirstNotANumber` | src/utilities/configuration.ts:47-93 | with every key set, start-up fails iff a numeric key is not a number or the high-water mark is rejected by the call at line 137. A non-number is named, the first one in conversion order; otherwise the exit carries the range error |
| `Configuration.FractionalHighWaterMarkFails` | src/utilities/configuration.ts:137 | with every key set and every value a number, a high-water mark of 1.5 still ends start-up with exit 1 and the range error |
| `Configuration.LoadedSettings` | src/utilities/configuration.ts:46-84 | after a successful start-up `baseUrl` and `route` are the raw values, and every other server setting and `pipeTimeout` is the parse of its same-named variable |
| `Configuration.ConfigurationManager.constructor` | src/utilities/configuration.ts:41-46 | the manager stores the assembled settings record |
| `Configuration.ConfigurationManager.GetEnvVariables` | src/utilities/configuration.ts:96-98 | `getEnvVariables()` returns the record the constructor stored, a constant field |
| `Configuration.NewConfigurationManager` | src/utilities/configuration.ts:43-94 | `new ConfigurationManager()` fails exactly when the check, a conversion or the high-water-mark call at line 137 fails, with that exit; otherwise it yields a fresh manager holding the assembled settings |
| `Patterns.Compile` | src/router/router.ts:27-31 | a canonical `{ pathname }` template with no base and case-sensitive matching compiles to its literal-pathname pattern. Any other template fails iff the runtime compiler rejects it, with that error, and otherwise compiles to the runtime pattern for exactly that source, base and options |
| `Patterns.Exec` | src/router/router.ts:43 | a literal-pathname pattern matches iff the URL parses with exactly that pathname, and its pathname component captures no group. A runtime pattern returns what the runtime's `exec` returns |
| `Patterns.Test` | src/router/router.ts:39 | for a literal-pathname pattern, `test(url)` holds iff the URL parses with exactly that pathname |
| `Patterns.LiteralPathnameExec` | src/router/index.ts:45-48 | `{ pathname: p }` matches a URL iff it parses with pathname `p`; it captures nothing from the pathname and each other component whole under `0` |
| `Rules.EffectiveBase` | src/router/path-rule.ts:34-38 | the base URL is passed to the compiler iff it is given and not empty |
| `Rules.EffectiveOptions` | src/router/path-rule.ts:31 | with no options the pattern is case-sensitive (`ignoreCase: false`); given options are used as they are |
| `Rules.NewRule` | src/router/router.ts:24-33 | the rule holds the upper-cased method, the compiled pattern and the given handler; it throws exactly when compilation throws, with that error |
| `Rules.Match` | src/router/router.ts:35-58 | a context is returned iff the upper-cased request method equals the rule's method and `exec` returns a result; the context is the eight group maps of that result, protocol to hash |
| `Rules.MatchIgnoresMethodCase` | src/router/router.ts:36 | two request methods with the same upper-cased form get the same answer |
| `Rules.MethodMismatchSkipsPattern` | src/router/path-rule.ts:43-45 | on a method mismatch the answer is no match whatever the pattern machinery would do |
| `Rules.LowerCaseMethodMatches` | src/router/path-rule.ts:33-53 | a rule registered for `GET` answers `get` exactly as it answers `GET`: a match iff `exec` succeeds |
| `Routing.FirstMatch` | src/router/router.ts:80-88 | the position found matches and no earlier rule does; absent iff no rule matches |
| `Routing.Lookup` | src/router/router.ts:79-91 | none iff no registered rule matches; otherwise the earliest matching rule with its own match result |
| `Routing.Router.constructor` | src/router/router.ts:68-70 | a new router has no rules |
| `Routing.Router.Register` | src/router/router.ts:72-77 | on success exactly the new rule is appended and the router itself is returned; on a compile error the error is thrown and the list is unchanged |
| `Routing.Router.Find` | src/router/router.ts:79-91 | the loop's answer is `Lookup` of the current rule list, and the list is not modified |
| `Routing.FirstMatchWins` | src/router/router.ts:80-87 | when rules i < j both match, the answer is at or before i, never j |
| `Routing.AppendKeepsFirstMatch` | src/router/router.ts:74 | appending a rule never changes an existing answer; it answers only requests nothing earlier matched |
| `Routing.FirstMatchIsLeast` | src/router/router.ts:82-86 | a matching rule with no earlier match is the one returned |
| `Routing.LookupIgnoresMethodCase` | src/router/router.ts:81 | `find` gives the same answer for request methods that differ only in ASCII letter case |
| `Responses.WriteText` | src/router/index.ts:92-97 | a response is written iff the code is in the table; it carries the table's `[code, message]`, `text/plain` and the body's byte length; otherwise the spread's TypeError is thrown |
| `Responses.RouteNotFound` | src/router/index.ts:69-78 | with 404 in the table: status 404, body `Route <url> does not exist on the server`, `text/plain`, and a length of the URL's byte length plus 35 |
| `Responses.NotFoundMessageLength` | src/router/index.ts:70-74 | the not-found body's byte length is the URL's byte length plus 35 |
| `Responses.ErrorHandler` | src/router/index.ts:80-98 | the body is the Error's message, or `Unexpected error` for a non-Error; the status is the CustomError's code, otherwise 500; the length is the body's byte length |
| `Responses.NonErrorGivesUnexpected` | src/routes/utilities.ts:20-21 | a non-Error thrown value gets 500 with the 16-byte body `Unexpected error` |
| `Responses.ErrorHandlerThrowsOnlyForUnknownCustomCode` | src/routes/utilities.ts:24-32 | when the table knows 500, the error response fails only for a CustomError whose code is not in the table |
| `Dispatch.HealthCheckReply` | src/entities/health-check.ts:15-20 | the health check answers 204 with `content-length: 0` and `text/plain` |
| `Dispatch.Guarded` | src/router/index.ts:19-33 | a reply that was written is kept; a throw is caught and replaced by `errorHandler`'s reply |
| `Dispatch.ClientResponse` | src/utilities/configuration.ts:135 | what the client receives: the written response, or, when the request handler rejected before writing, Node's 500 with the 21-byte body `Internal Server Error` and no `content-type` |
| `Dispatch.Handle` | src/router/index.ts:18-34 | at most one route-handler call per request; the handler ends without a response only after catching an error; with no call and nothing caught, the URL resolved and the reply is the 404 |
| `Dispatch.HealthRoutes` | src/router/index.ts:44-64 | four rules, all with the health-check handler: HEAD then GET for `/alive`, then HEAD then GET for `/ready` |
| `Dispatch.HealthRuleCompiles` | src/router/index.ts:45-49 | every built-in registration compiles to its literal-pathname rule with the method unchanged |
| `Dispatch.RegisterHealthCheckRoutes` | src/router/index.ts:40-65 | the chained registrations append HEAD /alive, GET /alive, HEAD /ready and GET /ready, in that order, and return the router |
| `Dispatch.CreateRouter` | src/router/index.ts:11-17 | a fresh router holding exactly the four health routes, bound to the given base URL |
| `Dispatch.App.constructor` | src/router/index.ts:16-17 | the returned object keeps the router and the base URL |
| `Dispatch.App.HandleRequest` | src/router/index.ts:18-34 | the request handler's outcome is `Handle`: resolve, `find` with the resolved href and method, then the 404, the handler call or the error response |
| `Dispatch.AtMostOneHandlerCall` | src/router/index.ts:24-30 | at most one handler call per request, made iff the URL resolves and some route matches |
| `Dispatch.NoMatchIsNotFound` | src/routes/router.ts:40-46 | with no match, no handler is called and the reply is the 404 naming the resolved href, with its exact length |
| `Dispatch.MatchCallsFirstRouteHandler` | src/routes/router.ts:47-49 | on a match, the earliest matching route's handler is called exactly once with that route's match context |
| `Dispatch.OneResponsePerRequest` | src/router/index.ts:31-33 | the request handler ends without writing a response iff it caught an error whose status, as `errorHandler` picked it, is not in the table |
| `Dispatch.MissingNotFoundCodeAnswersTypeError` | src/router/index.ts:24-33 | when the table lacks 404 but has 500, an unmatched URL makes `routeNotFound` throw the `TypeError`. The `catch` block receives it and the client gets 500 with the `TypeError`'s message |
| `Dispatch.EveryRequestAnswered` | src/router/index.ts:31-33 | the client receives the response the handler wrote. When `errorHandler` threw over a status missing from the table, it receives Node's 500 `Internal Server Error` instead |
| `Dispatch.CustomErrorStatusReachesClient` | src/router/index.ts:83-93 | a handler throwing a CustomError with a known code gets a response with that status and the error's message |
| `Dispatch.HealthRoutesAlive` | src/router/router.test.ts:30-50 | pathname `/alive` is answered by the GET rule for `GET` and `get`, and by the HEAD rule for `HEAD` |
| `Dispatch.HealthRoutesRejectPost` | src/router/index.ts:44-64 | no built-in rule answers `POST` |
| `Dispatch.HealthRoutesRejectOtherPaths` | src/router/router.test.ts:20-28 | a pathname other than `/alive` or `/ready` matches no built-in rule, whatever the method |
| `Dispatch.HealthCheckRequests` | src/routes/router.ts:10-52 | `GET /alive` calls the health check once and gets 204 with length 0; `POST /alive` gets the 404 naming the resolved URL |

## Left out

- `URLPattern` compilation and matching belong to the runtime. The `Engine`
  oracle stands for them for every template other than a canonical
  `{ pathname }` literal. This includes a plain pathname that
  canonicalisation would change, such as one with a space, a non-ASCII
  character or a `..` segment.
- `new URL(...).href` canonicalisation belongs to the runtime: default ports,
  trailing slashes and percent-decoding are not modelled. The
  `Host.resolve` and `Engine.parse` oracles stand for it.
- Text.Upper: the model's `toUpperCase` maps ASCII letters only. Full
  Unicode case mapping (for example `ß` → `SS`, which changes the length)
  is not modelled.
- Text.Utf8Length: characters are Unicode scalar values, so a lone UTF-16
  surrogate cannot occur. `Buffer.byteLength` would count one as 3 bytes.
- Configuration.ToNumber: JavaScript `Number()` parsing is floating point.
  It is the `parse` oracle, with `None` for NaN, and results are `real`.
  Infinity and -0 are not distinguished.
- StatusCodes.BuildStatusCodes: the runtime's entries are given with numeric
  keys. `Number(entry[0])` is taken as the identity on the canonical integer
  keys of an object.
- `#setGlobalValues` changes process-wide Node settings (stream high-water
  mark, `globalAgent` socket limits, captured rejections). That mutation is
  not modelled. What is modelled is the conversion of its three values, which
  can end start-up, and the range check of `setDefaultHighWaterMark`, which
  can also end it. The effect of captured rejections on a request is modelled
  too (`Dispatch.ClientResponse`). The stderr text of the uncaught
  `RangeError` (its message and stack) is not modelled: its error code
  `ERR_OUT_OF_RANGE` stands for it. An infinite high-water mark cannot
  arise, because the `parse` oracle yields only finite reals.
- All `console.error` logging is left out.
- The server lifecycle is I/O, event-emitter, timer and process code:
  listening, connection tuning, signal handling and graceful or forced
  shutdown (src/server/http.ts, src/main.ts, src/utilities/general.ts).
- Concurrency between requests is not modelled. The asynchronous handler is
  reduced to "completed with one response" or "threw". A handler that
  throws after it has started writing (headers already sent) is not
  modelled. Node destroys the socket in that case. The runtime dropping the
  body of a HEAD response is not modelled either.
- The error's `stack` is captured by the runtime. It is an input of
  `Errors.NewCustomError`.
