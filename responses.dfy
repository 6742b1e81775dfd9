/**
 * The two responses the router writes itself, in src/router/index.ts and
 * (identically) in src/routes/utilities.ts: "route not found" and the error
 * response. A response is a record; `writeHead(...STATUS_CODES[code]!, headers)`
 * spreads the table entry, which throws a `TypeError` (`notIterable`) before
 * anything is written when the code is not in the table.
 */
module Responses {
  import opened Wrappers
  import opened Text
  import opened Errors
  import opened StatusCodes

  /** What `writeHead` + `end` put on the wire: status line, the two headers, body. */
  datatype Response = Response(
    statusCode: int, statusMessage: string, contentLength: nat, contentType: string, body: string)

  /** Either exactly one response was written, or the writer threw before writing. */
  datatype Reply = Sent(response: Response) | Threw(error: Thrown)

  /**
   * `response.writeHead(...STATUS_CODES[code]!, { content-length, content-type })
   * .end(body)`: a plain-text response whose length header is the body's UTF-8
   * byte length.
   */
  function WriteText(codes: Table, code: int, body: string, notIterable: Thrown): (r: Reply)
    ensures r.Sent? <==> code in codes
    ensures r.Sent? ==> r.response.contentLength == Utf8Length(r.response.body) && r.response.contentType == "text/plain"
    ensures r.Sent? ==> r.response.body == body && (r.response.statusCode, r.response.statusMessage) == codes[code]
    ensures r.Threw? ==> r.error == notIterable
  {
    if code in codes then
      var (statusCode, statusMessage) := codes[code];
      Sent(Response(statusCode, statusMessage, Utf8Length(body), "text/plain", body))
    else Threw(notIterable)
  }

  function NotFoundMessage(url: string): string
  {
    "Route " + url + " does not exist on the server"
  }

  /**
   * `routeNotFound(url, response)`: 404 with a plain-text body naming the URL;
   * its length is the URL's byte length plus the 35 ASCII bytes around it.
   */
  function RouteNotFound(url: string, codes: Table, notIterable: Thrown): (r: Reply)
    ensures 404 in codes && WellFormed(codes) ==>
      && r.Sent?
      && r.response.statusCode == 404
      && r.response.body == NotFoundMessage(url)
      && r.response.contentType == "text/plain"
      && r.response.contentLength == Utf8Length(url) + 35
    ensures 404 !in codes ==> r == Threw(notIterable)
  {
    NotFoundMessageLength(url);
    WriteText(codes, 404, NotFoundMessage(url), notIterable)
  }

  /** The not-found body takes the URL's bytes plus 35 ASCII bytes. */
  lemma NotFoundMessageLength(url: string)
    ensures Utf8Length(NotFoundMessage(url)) == Utf8Length(url) + 35
  {
    var prefix, suffix := "Route ", " does not exist on the server";
    assert NotFoundMessage(url) == prefix + url + suffix;
    assert IsAscii(prefix) && |prefix| == 6;
    assert IsAscii(suffix) && |suffix| == 29;
    AsciiUtf8Length(prefix);
    AsciiUtf8Length(suffix);
    Utf8LengthAppend(prefix + url, suffix);
    Utf8LengthAppend(prefix, url);
  }

  /**
   * `errorHandler(error, ...)`: status 500 and `Unexpected error` to start
   * with; an Error replaces the body with its message, and a `CustomError` also
   * replaces the status with its own.
   */
  function ErrorHandler(error: Thrown, codes: Table, notIterable: Thrown): (r: Reply)
    ensures r.Sent? <==> (if error.IsCustom() then error.statusCode.value else 500) in codes
    ensures r.Sent? ==>
      && r.response.body == (if error.Error? then error.message else "Unexpected error")
      && r.response.contentType == "text/plain"
      && r.response.contentLength == Utf8Length(r.response.body)
    ensures r.Sent? && WellFormed(codes) ==>
      r.response.statusCode == if error.IsCustom() then error.statusCode.value else 500
    ensures r.Threw? ==> r.error == notIterable
  {
    var statusCode := if error.IsCustom() then GetStatusCode(error) else 500;
    var message := if error.Error? then error.message else "Unexpected error";
    WriteText(codes, statusCode, message, notIterable)
  }

  /** A non-Error throw gives 500 `Unexpected error` whenever the table knows 500. */
  lemma NonErrorGivesUnexpected(codes: Table, notIterable: Thrown)
    requires 500 in codes && WellFormed(codes)
    ensures ErrorHandler(NotAnError, codes, notIterable) == Sent(Response(500, codes[500].1, 16, "text/plain", "Unexpected error"))
  {
    var body := "Unexpected error";
    assert IsAscii(body) && |body| == 16;
    AsciiUtf8Length(body);
  }

  /**
   * The error response fails to be written only for a `CustomError` whose code
   * the status table does not know (given that the table knows 500).
   */
  lemma ErrorHandlerThrowsOnlyForUnknownCustomCode(error: Thrown, codes: Table, notIterable: Thrown)
    requires 500 in codes
    ensures ErrorHandler(error, codes, notIterable).Threw? <==> error.IsCustom() && GetStatusCode(error) !in codes
  {
  }
}
