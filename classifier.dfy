/**
 * Retryability classifier: the default `retryCondition` of the retry layer
 * (`isRetryableError` and `isNetworkError` in index.js). A pure predicate over
 * an error record.
 */
module Classifier {
  import opened Wrappers

  /** Every HTTP method the layer knows, lower case as the client spells them. */
  const HttpMethods: seq<string> := ["get", "head", "options", "post", "put", "delete"]

  /** The methods that are safe to repeat; `post` is left out. The default retriable set. */
  const IdempotentHttpMethods: seq<string> := ["get", "head", "options", "put", "delete"]

  /** The code the client gives a request it aborted on timeout. */
  const AbortedCode: string := "ECONNABORTED"

  datatype Response = Response(status: int)

  /** What the classifier reads of the request descriptor: its method (`config.method`), which may be unset. */
  datatype RequestInfo = RequestInfo(httpMethod: Option<string>)

  /**
   * A failed request as the client reports it: the request descriptor (absent when the
   * failure cannot be attributed), the response if one arrived, and the transport code.
   */
  datatype ErrorRecord = ErrorRecord(config: Option<RequestInfo>, response: Option<Response>, code: Option<string>)

  /** JavaScript truthiness of the optional string `error.code`: set and non-empty. */
  predicate HasCode(e: ErrorRecord) {
    e.code.Some? && e.code.value != ""
  }

  /**
   * A transport failure that is safe to retry: no response, a code that is not the
   * timeout abort, and the external `isRetryAllowed` judgement (an uninterpreted parameter).
   */
  function IsNetworkError(e: ErrorRecord, isRetryAllowed: ErrorRecord -> bool): (r: bool)
    ensures r ==> e.response.None? && HasCode(e) && isRetryAllowed(e)
    ensures e.code == Some(AbortedCode) ==> !r
  {
    && e.response.None?
    && HasCode(e)
    && e.code.value != AbortedCode
    && isRetryAllowed(e)
  }

  /**
   * Reference definition of what the classifier accepts: the request is attributable,
   * its method is (exactly, case-sensitively) one of `retriableMethods`, and either no
   * response arrived or the status is a server error in [500, 599].
   */
  predicate Transient(retriableMethods: seq<string>, e: ErrorRecord) {
    && e.config.Some?
    && e.config.value.httpMethod.Some?
    && e.config.value.httpMethod.value in retriableMethods
    && (e.response.None? || 500 <= e.response.value.status <= 599)
  }

  /**
   * `isRetryableError({retriableMethods})(error)`, the early returns in source order.
   * Because every error without a response is retryable anyway, the network-error test
   * (and with it `isRetryAllowed`) never changes the answer.
   */
  function IsRetryableError(retriableMethods: seq<string>, isRetryAllowed: ErrorRecord -> bool, e: ErrorRecord): (r: bool)
    ensures e.config.None? ==> !r
    ensures e.config.Some? && e.config.value.httpMethod.Some? && e.config.value.httpMethod.value !in retriableMethods ==> !r
    ensures r <==> Transient(retriableMethods, e)
  {
    if e.config.None? then
      false
    else if e.config.value.httpMethod.None? || e.config.value.httpMethod.value !in retriableMethods then
      false
    else if IsNetworkError(e, isRetryAllowed) then
      true
    else if e.response.None? then
      true
    else if 500 <= e.response.value.status <= 599 then
      true
    else
      false
  }

  /** The library verdict `isRetryAllowed` cannot change the classifier's answer. */
  lemma RetryAllowedIsIrrelevant(retriableMethods: seq<string>, allowed: ErrorRecord -> bool, other: ErrorRecord -> bool, e: ErrorRecord)
    ensures IsRetryableError(retriableMethods, allowed, e) == IsRetryableError(retriableMethods, other, e)
  {
  }

  /**
   * For an attributable request with a retriable method and a response, only the
   * status decides: 5xx is retried, 2xx, 3xx and 4xx are not.
   */
  lemma StatusDecides(retriableMethods: seq<string>, isRetryAllowed: ErrorRecord -> bool, e: ErrorRecord)
    requires e.config.Some? && e.config.value.httpMethod.Some? && e.config.value.httpMethod.value in retriableMethods
    requires e.response.Some?
    ensures IsRetryableError(retriableMethods, isRetryAllowed, e) <==> 500 <= e.response.value.status <= 599
  {
  }

  /** Under the default method set, `post` is never retried, whatever happened. */
  lemma PostIsNeverRetriedByDefault(isRetryAllowed: ErrorRecord -> bool, e: ErrorRecord)
    requires e.config.Some? && e.config.value.httpMethod == Some("post")
    ensures !IsRetryableError(IdempotentHttpMethods, isRetryAllowed, e)
  {
    assert "post" != "get" && "post" != "head" && "post" != "options" && "post" != "put" && "post" != "delete";
  }

  /** Method comparison is exact: an upper-case `GET` is not in the default set. */
  lemma MethodMatchIsCaseSensitive(isRetryAllowed: ErrorRecord -> bool, e: ErrorRecord)
    requires e.config.Some? && e.config.value.httpMethod == Some("GET")
    ensures !IsRetryableError(IdempotentHttpMethods, isRetryAllowed, e)
  {
    assert "GET" != "get" && "GET" != "head" && "GET" != "options" && "GET" != "put" && "GET" != "delete";
  }
}
