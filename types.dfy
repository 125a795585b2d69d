/**
 * The public error type, its classification tables and the client defaults
 * (types.go).
 */
module Types {
  import opened Wrappers
  import Format

  /** time.Duration: a count of nanoseconds. */
  const Second: int := 1_000_000_000
  const Minute: int := 60 * Second

  /**
   * A Go `error` as the core produces or passes on:
   * a *BYMAError, a plain message (errors.New, fmt.Errorf without %w),
   * or a message wrapping a cause (fmt.Errorf("<context>: %w", cause)).
   */
  datatype Error =
    | Byma(byma: BymaError)
    | Text(message: string)
    | Wrapped(context: string, cause: Error)

  /** BYMAError; `underlying` is the nil-able Underlying field. */
  datatype BymaError = BymaError(code: string, message: string, statusCode: int, underlying: Option<Error>)

  const ErrInvalidResponse := BymaError("INVALID_RESPONSE", "Invalid API response", 0, None)
  const ErrAPIUnavailable  := BymaError("API_UNAVAILABLE", "BYMA API is unavailable", 0, None)
  const ErrInvalidTicker   := BymaError("INVALID_TICKER", "Invalid ticker symbol", 0, None)
  const ErrTimeout         := BymaError("TIMEOUT", "Request timeout", 0, None)
  const ErrUnauthorized    := BymaError("UNAUTHORIZED", "Unauthorized access", 0, None)
  const ErrRateLimited     := BymaError("RATE_LIMITED", "Rate limit exceeded", 0, None)
  const ErrInternalError   := BymaError("INTERNAL_ERROR", "Internal server error", 0, None)

  /** The text of any error, as its Error() method renders it. */
  function ErrorText(e: Error): string
    decreases e, 1
  {
    match e
    case Byma(b) => BymaErrorText(b)
    case Text(m) => m
    case Wrapped(context, cause) => context + ": " + ErrorText(cause)
  }

  /** BYMAError.Error(): "<code>: <message>", plus the underlying error's text when there is one. */
  function BymaErrorText(b: BymaError): (s: string)
    ensures b.underlying.None? ==> s == b.code + ": " + b.message
    ensures b.underlying.Some? ==> |s| > |b.code + ": " + b.message| && s[..|b.code + ": " + b.message|] == b.code + ": " + b.message
    decreases Byma(b), 0
  {
    match b.underlying
    case None => b.code + ": " + b.message
    case Some(u) => b.code + ": " + b.message + " (underlying: " + ErrorText(u) + ")"
  }

  /** A copy of `e` whose Underlying is `u`; the receiver is a value and stays as it was. */
  function WithUnderlying(e: BymaError, u: Option<Error>): (r: BymaError)
    ensures r.code == e.code && r.message == e.message && r.statusCode == e.statusCode
    ensures r.underlying == u
  {
    BymaError(e.code, e.message, e.statusCode, u)
  }

  /** A copy of `e` whose StatusCode is `code`. */
  function WithStatusCode(e: BymaError, code: int): (r: BymaError)
    ensures r.code == e.code && r.message == e.message && r.underlying == e.underlying
    ensures r.statusCode == code
  {
    BymaError(e.code, e.message, code, e.underlying)
  }

  function NewBymaError(code: string, message: string): (r: BymaError)
    ensures r.code == code && r.message == message
    ensures r.statusCode == 0 && r.underlying.None?
  {
    BymaError(code, message, 0, None)
  }

  /** MapHTTPError: the error reported for an HTTP status code. */
  function MapHTTPError(statusCode: int): (r: BymaError)
    ensures statusCode == 401 ==> r == BymaError("UNAUTHORIZED", "Unauthorized access", 401, None)
    ensures statusCode == 429 ==> r == BymaError("RATE_LIMITED", "Rate limit exceeded", 429, None)
    ensures statusCode in {500, 502, 503} ==> r == BymaError("API_UNAVAILABLE", "BYMA API is unavailable", statusCode, None)
    ensures statusCode == 408 ==> r == BymaError("TIMEOUT", "Request timeout", 408, None)
    ensures statusCode !in {401, 429, 500, 502, 503, 408} ==>
              r == BymaError("HTTP_ERROR", "HTTP error " + Format.IntToString(statusCode), statusCode, None)
  {
    if statusCode == 401 then WithStatusCode(ErrUnauthorized, statusCode)
    else if statusCode == 429 then WithStatusCode(ErrRateLimited, statusCode)
    else if statusCode == 500 || statusCode == 502 || statusCode == 503 then WithStatusCode(ErrAPIUnavailable, statusCode)
    else if statusCode == 408 then WithStatusCode(ErrTimeout, statusCode)
    else WithStatusCode(NewBymaError("HTTP_ERROR", "HTTP error " + Format.IntToString(statusCode)), statusCode)
  }

  /**
   * IsRetryable: only a *BYMAError itself is inspected (a type assertion, so a
   * wrapped BYMAError is not retryable). TIMEOUT, API_UNAVAILABLE and
   * RATE_LIMITED always are, HTTP_ERROR only for a server-side status, every
   * other code never.
   */
  function IsRetryable(err: Error): (b: bool)
    ensures b ==> err.Byma?
    ensures err.Byma? && err.byma.code in {"TIMEOUT", "API_UNAVAILABLE", "RATE_LIMITED"} ==> b
    ensures err.Byma? && err.byma.code == "HTTP_ERROR" ==> (b <==> err.byma.statusCode >= 500)
    ensures err.Byma? && err.byma.code !in {"TIMEOUT", "API_UNAVAILABLE", "RATE_LIMITED", "HTTP_ERROR"} ==> !b
  {
    match err
    case Byma(b) =>
      if b.code == "TIMEOUT" || b.code == "API_UNAVAILABLE" || b.code == "RATE_LIMITED" then true
      else if b.code == "HTTP_ERROR" then b.statusCode >= 500
      else false
    case _ => false
  }

  /** Status codes that MapHTTPError turns into retryable errors. */
  lemma MapHTTPErrorRetryable(statusCode: int)
    ensures IsRetryable(Byma(MapHTTPError(statusCode))) <==>
              (statusCode == 408 || statusCode == 429 || statusCode >= 500)
  {
  }

  /** The classifications that the unit tests check. */
  lemma ErrorExamples()
    ensures !IsRetryable(Byma(ErrInvalidResponse))
    ensures IsRetryable(Byma(WithUnderlying(ErrAPIUnavailable, Some(Text("assert.AnError general error for testing")))))
    ensures IsRetryable(Byma(WithStatusCode(ErrTimeout, 408)))
    ensures MapHTTPError(404).code == "HTTP_ERROR" && MapHTTPError(404).statusCode == 404
  {
  }

  /** A user-supplied Logger implementation, or the default that discards everything. */
  datatype Logger = NoOpLogger | CustomLogger(name: string)

  /** An HTTPClient implementation supplied by the caller. */
  datatype HttpClient = HttpClient(name: string)

  /** ClientOptions; nil interfaces are None. Timeout is in nanoseconds. */
  datatype ClientOptions = ClientOptions(
    baseURL: string,
    timeout: int,
    retryAttempts: int,
    logger: Option<Logger>,
    httpClient: Option<HttpClient>,
    enableCache: bool)

  function DefaultClientOptions(): (o: ClientOptions)
    ensures o.baseURL == "https://open.bymadata.com.ar"
    ensures o.timeout == 30 * Second
    ensures o.retryAttempts == 3
    ensures o.logger == Some(NoOpLogger) && o.httpClient == None
    ensures o.enableCache
  {
    ClientOptions("https://open.bymadata.com.ar", 30 * Second, 3, Some(NoOpLogger), None, true)
  }
}
