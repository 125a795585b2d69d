/**
 * The HTTP layer's own logic (internal/api/client.go): the retry loop of
 * doRequest over one abstract outcome per attempt, the status check of
 * makeRequest, URL building and the symbol dictionary.
 */
module Api {
  import opened Wrappers
  import opened Types
  import opened Format

  const ApiPath := "/vanoms-be-core/rest/api/bymadata/free/"

  type Bytes = seq<bv8>

  /**
   * What one HTTP attempt came to: the request could not be built, no
   * response arrived, or a response with a status code and a body that was
   * or was not readable.
   */
  datatype Attempt =
    | RequestNotBuilt(cause: Error)
    | NoResponse(cause: Error)
    | Response(statusCode: int, body: Result<Bytes, Error>)

  /** makeRequest's verdict on one attempt; the status is checked before the body is read. */
  function MakeRequest(a: Attempt): (r: Result<Bytes, Error>)
    ensures r.Success? <==> a.Response? && 200 <= a.statusCode < 300 && a.body.Success?
    ensures r.Success? ==> r.value == a.body.value
    ensures a.Response? && (a.statusCode < 200 || a.statusCode >= 300) ==>
              r == Failure(Text("HTTP error " + IntToString(a.statusCode)))
  {
    match a
    case RequestNotBuilt(cause) => Failure(Wrapped("failed to create request", cause))
    case NoResponse(cause) => Failure(Wrapped("request failed", cause))
    case Response(statusCode, body) =>
      if statusCode < 200 || statusCode >= 300 then Failure(Text("HTTP error " + IntToString(statusCode)))
      else match body
        case Failure(cause) => Failure(Wrapped("failed to read response", cause))
        case Success(bytes) => Success(bytes)
  }

  /** isRetryable: every error is retried. */
  function IsRetryableAttempt(err: Error): (b: bool)
    ensures b
  {
    true
  }

  /** The pause before retry number `attempt` (1-based): `attempt` seconds, growing linearly. */
  function RetryWait(attempt: nat): int {
    attempt * Second
  }

  /** The error doRequest returns once it gives up; %w of a nil error prints as %!w(<nil>). */
  function ExhaustedError(retryAttempts: int, lastErr: Option<Error>): Error {
    var context := "request failed after " + IntToString(retryAttempts + 1) + " attempts";
    match lastErr
    case Some(e) => Wrapped(context, e)
    case None => Text(context + ": %!w(<nil>)")
  }

  /** The state of Client that these operations read. Timeout is in nanoseconds. */
  datatype ApiClient = ApiClient(baseURL: string, timeout: int, retryAttempts: int, dictionary: Option<map<string, string>>)
  {
    /** How many attempts the loop allows: retryAttempts + 1, none when that is negative. */
    function MaxAttempts(): nat {
      if retryAttempts >= 0 then retryAttempts + 1 else 0
    }

    /** buildURL: base URL, the fixed API path, then the endpoint. */
    function BuildURL(endpoint: string): (url: string)
      ensures url == baseURL + ApiPath + endpoint
      ensures |url| == |baseURL| + |ApiPath| + |endpoint|
      ensures url[|baseURL| + |ApiPath|..] == endpoint
    {
      baseURL + ApiPath + endpoint
    }

    /** applyDictionary: the translation when the dictionary has one, else the symbol itself. */
    function ApplyDictionary(symbol: string): (r: string)
      ensures dictionary.Some? && symbol in dictionary.value ==> r == dictionary.value[symbol]
      ensures dictionary.None? || symbol !in dictionary.value ==> r == symbol
    {
      if dictionary.None? then symbol
      else if symbol in dictionary.value then dictionary.value[symbol]
      else symbol
    }
  }

  /** Different endpoints always give different URLs. */
  lemma BuildURLInjective(c: ApiClient, e1: string, e2: string)
    requires c.BuildURL(e1) == c.BuildURL(e2)
    ensures e1 == e2
  {
    assert e1 == c.BuildURL(e1)[|c.baseURL| + |ApiPath|..];
  }

  /** A dictionary that is nil or empty leaves every symbol as it is. */
  lemma ApplyDictionaryIdentity(c: ApiClient, symbol: string)
    requires c.dictionary.None? || c.dictionary.value == map[]
    ensures c.ApplyDictionary(symbol) == symbol
  {
  }

  /**
   * doRequest: attempts 0..retryAttempts; attempt k is `outcome(k)`. Before
   * attempt k >= 1 the loop waits k seconds, recorded in `waits`. The first
   * success is returned at once; after the last failure the error names the
   * number of attempts and wraps that failure.
   */
  method DoRequest(client: ApiClient, outcome: nat -> Attempt) returns (r: Result<Bytes, Error>, waits: seq<int>)
    ensures forall k :: 0 <= k < |waits| ==> waits[k] == RetryWait(k + 1)
    ensures r.Success? <==> exists k :: 0 <= k < client.MaxAttempts() && MakeRequest(outcome(k)).Success?
    ensures r.Success? ==> |waits| < client.MaxAttempts()
    ensures r.Success? ==> r == MakeRequest(outcome(|waits|))
    ensures r.Success? ==> forall k :: 0 <= k < |waits| ==> MakeRequest(outcome(k)).Failure?
    ensures r.Failure? ==> |waits| == if client.MaxAttempts() == 0 then 0 else client.MaxAttempts() - 1
    ensures r.Failure? ==>
              r.error == ExhaustedError(client.retryAttempts,
                                        if client.MaxAttempts() == 0 then None
                                        else Some(MakeRequest(outcome(client.MaxAttempts() - 1)).error))
  {
    var lastErr: Option<Error> := None;
    waits := [];
    var attempt := 0;
    while attempt <= client.retryAttempts
      invariant attempt <= client.MaxAttempts()
      invariant |waits| == if attempt == 0 then 0 else attempt - 1
      invariant forall k :: 0 <= k < |waits| ==> waits[k] == RetryWait(k + 1)
      invariant forall k :: 0 <= k < attempt ==> MakeRequest(outcome(k)).Failure?
      invariant attempt == 0 ==> lastErr.None?
      invariant attempt > 0 ==> lastErr == Some(MakeRequest(outcome(attempt - 1)).error)
    {
      if attempt > 0 {
        waits := waits + [RetryWait(attempt)];
      }
      var resp := MakeRequest(outcome(attempt));
      if resp.Failure? {
        lastErr := Some(resp.error);
        if !IsRetryableAttempt(resp.error) {
          break;
        }
        attempt := attempt + 1;
        continue;
      }
      return resp, waits;
    }
    return Failure(ExhaustedError(client.retryAttempts, lastErr)), waits;
  }
}
