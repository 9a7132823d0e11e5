/**
 * `HandleHTTPRequest`: POST the message to the endpoint up to `MaxRetries + 1`
 * times, stop at the first 2xx answer, and judge the outcome by the last
 * attempt's response.
 */
module Retry {
  import opened Wrappers
  import opened Decimal
  import opened Connector

  /** What `http.DefaultClient.Do` gave one attempt. */
  datatype Attempt =
    | TransportError          // err != nil (the response is nil)
    | NilResponse             // err == nil and resp == nil
    | Status(code: int)       // a response with this status code

  /** The errors `HandleHTTPRequest` returns. */
  datatype HttpError =
    | RequestBuildFailed(cause: string)   // http.NewRequestWithContext failed
    | EmptyResponse                       // the last attempt left `resp` nil
    | FailureStatus(code: int)            // the last response's status is below 200 or above 300

  datatype HttpResult = Delivered(code: int) | Failed(error: HttpError)

  /** The in-loop success test: a status in [200, 300). */
  predicate IsSuccess(a: Attempt) {
    a.Status? && 200 <= a.code < 300
  }

  /** The post-loop test on the last response: a status in [200, 300], upper bound included. */
  predicate FinalAccepts(code: int) {
    !(code < 200 || code > 300)
  }

  /** The first of attempts 0..n-1 that answers with a 2xx status, if any. */
  function FirstSuccess(endpoint: nat -> Attempt, n: nat): (r: Option<nat>)
    ensures r.Some? ==> r.value < n && IsSuccess(endpoint(r.value))
    ensures r.Some? ==> forall j :: 0 <= j < r.value ==> !IsSuccess(endpoint(j))
    ensures r.None? ==> forall j :: 0 <= j < n ==> !IsSuccess(endpoint(j))
  {
    if n == 0 then None
    else
      match FirstSuccess(endpoint, n - 1)
      case Some(k) => Some(k)
      case None => if IsSuccess(endpoint(n - 1)) then Some(n - 1) else None
  }

  /** The verdict on the response left in `resp` after the last attempt. */
  function FinalVerdict(last: Attempt): (r: HttpResult)
    ensures r.Delivered? <==> last.Status? && 200 <= last.code <= 300
    ensures r.Delivered? ==> r.code == last.code
    ensures r == Failed(EmptyResponse) <==> !last.Status?
  {
    match last
    case Status(code) => if FinalAccepts(code) then Delivered(code) else Failed(FailureStatus(code))
    case _ => Failed(EmptyResponse)
  }

  /**
   * The result of `HandleHTTPRequest` when attempt `i` is answered with
   * `endpoint(i)` and building the request fails with `buildError` (None: it
   * succeeds; building does not depend on the attempt).
   */
  function Outcome(maxRetries: int, endpoint: nat -> Attempt, buildError: Option<string>): (r: HttpResult)
    ensures r.Delivered? ==> 200 <= r.code <= 300
    ensures r.Delivered? && r.code == 300 ==> maxRetries >= 0 && endpoint(maxRetries) == Status(300)
    ensures r.Failed? && r.error.FailureStatus? ==> maxRetries >= 0 && endpoint(maxRetries) == Status(r.error.code)
    ensures r.Failed? && r.error.RequestBuildFailed? ==> maxRetries >= 0 && buildError == Some(r.error.cause)
  {
    if maxRetries < 0 then Failed(EmptyResponse)
    else if buildError.Some? then Failed(RequestBuildFailed(buildError.value))
    else
      match FirstSuccess(endpoint, maxRetries + 1)
      case Some(k) => Delivered(endpoint(k).code)
      case None => FinalVerdict(endpoint(maxRetries))
  }

  /** How many requests `HandleHTTPRequest` sends. */
  function AttemptsMade(maxRetries: int, endpoint: nat -> Attempt, buildError: Option<string>): (n: nat)
    ensures maxRetries >= 0 ==> n <= maxRetries + 1
    ensures n == 0 <==> maxRetries < 0 || buildError.Some?
    ensures 0 < n <= maxRetries ==> IsSuccess(endpoint(n - 1))
  {
    if maxRetries < 0 || buildError.Some? then 0
    else
      match FirstSuccess(endpoint, maxRetries + 1)
      case Some(k) => k + 1
      case None => maxRetries + 1
  }

  /** Where a request went, as every error text names it. */
  function Location(meta: ConnectorMetadata): string {
    "http_endpoint: " + meta.httpEndpoint + ", source: " + meta.sourceName
  }

  const FailurePrefix: string := "request returned failure: "

  /**
   * The text of each error, as `err.Error()` gives it to the error topic: a
   * build failure ends with its cause, the other two with the location, and a
   * failure status stands in decimal right after the failure prefix.
   */
  function ErrorText(meta: ConnectorMetadata, e: HttpError): (text: string)
    ensures e.RequestBuildFailed? ==> |text| >= |e.cause| && text[|text| - |e.cause|..] == e.cause
    ensures !e.RequestBuildFailed? ==> |text| >= |Location(meta)| && text[|text| - |Location(meta)|..] == Location(meta)
    ensures e.FailureStatus? ==>
      && |FailurePrefix| + |FormatInt(e.code)| <= |text|
      && text[..|FailurePrefix|] == FailurePrefix
      && text[|FailurePrefix|..|FailurePrefix| + |FormatInt(e.code)|] == FormatInt(e.code)
  {
    match e
    case RequestBuildFailed(cause) =>
      "failed to create HTTP request to invoke function. " + Location(meta) + ": " + cause
    case EmptyResponse =>
      "every function invocation retry failed; final retry gave empty response. " + Location(meta)
    case FailureStatus(code) =>
      FailurePrefix + FormatInt(code) + ". " + Location(meta)
  }

  /**
   * The retry loop. `resp` is overwritten by every attempt, so only the last
   * attempt's response is judged after the loop. `sent` counts the requests.
   */
  method HandleHttpRequest(meta: ConnectorMetadata, endpoint: nat -> Attempt, buildError: Option<string>)
    returns (r: HttpResult, sent: nat)
    ensures r == Outcome(meta.maxRetries, endpoint, buildError)
    ensures sent == AttemptsMade(meta.maxRetries, endpoint, buildError)
  {
    var resp: Option<int> := None;
    var attempt := 0;
    sent := 0;
    while attempt <= meta.maxRetries
      invariant 0 <= attempt <= if meta.maxRetries < 0 then 0 else meta.maxRetries + 1
      invariant buildError.None? || attempt == 0
      invariant sent == attempt
      invariant forall j :: 0 <= j < attempt ==> !IsSuccess(endpoint(j))
      invariant attempt == 0 ==> resp.None?
      invariant attempt > 0 ==> resp == (if endpoint(attempt - 1).Status? then Some(endpoint(attempt - 1).code) else None)
    {
      if buildError.Some? {
        return Failed(RequestBuildFailed(buildError.value)), sent;
      }
      var answer := endpoint(attempt);
      sent := sent + 1;
      resp := if answer.Status? then Some(answer.code) else None;
      if answer.Status? && 200 <= answer.code < 300 {
        assert FirstSuccess(endpoint, meta.maxRetries + 1) == Some(attempt) by {
          FirstSuccessIsLeast(endpoint, meta.maxRetries + 1, attempt);
        }
        return Delivered(answer.code), sent;
      }
      attempt := attempt + 1;
    }
    if resp.None? {
      return Failed(EmptyResponse), sent;
    }
    if resp.value < 200 || resp.value > 300 {
      return Failed(FailureStatus(resp.value)), sent;
    }
    return Delivered(resp.value), sent;
  }

  /** FirstSuccess finds exactly the least successful attempt. */
  lemma FirstSuccessIsLeast(endpoint: nat -> Attempt, n: nat, k: nat)
    requires k < n && IsSuccess(endpoint(k))
    requires forall j :: 0 <= j < k ==> !IsSuccess(endpoint(j))
    ensures FirstSuccess(endpoint, n) == Some(k)
  {
  }

  /** No success among attempts 0..n-1. */
  predicate NoSuccessBefore(endpoint: nat -> Attempt, n: nat) {
    forall j :: 0 <= j < n ==> !IsSuccess(endpoint(j))
  }

  /** With MaxRetries = 0 exactly one request is sent, whatever it gets back. */
  lemma ZeroRetriesSendOnce(endpoint: nat -> Attempt)
    ensures AttemptsMade(0, endpoint, None) == 1
  {
  }

  /**
   * The first 2xx answer, at attempt k, ends the loop: exactly k + 1 requests
   * are sent and that response is returned without error.
   */
  lemma SuccessAtAttempt(maxRetries: int, endpoint: nat -> Attempt, k: nat)
    requires k <= maxRetries
    requires IsSuccess(endpoint(k)) && NoSuccessBefore(endpoint, k)
    ensures Outcome(maxRetries, endpoint, None) == Delivered(endpoint(k).code)
    ensures AttemptsMade(maxRetries, endpoint, None) == k + 1
  {
    FirstSuccessIsLeast(endpoint, maxRetries + 1, k);
  }

  /** A request that cannot be built fails at once: no request is sent. */
  lemma BuildErrorStopsAtOnce(maxRetries: int, endpoint: nat -> Attempt, cause: string)
    requires maxRetries >= 0
    ensures Outcome(maxRetries, endpoint, Some(cause)) == Failed(RequestBuildFailed(cause))
    ensures AttemptsMade(maxRetries, endpoint, Some(cause)) == 0
  {
  }

  /** A negative MaxRetries sends nothing and reports an empty final response. */
  lemma NegativeRetriesGiveEmptyResponse(maxRetries: int, endpoint: nat -> Attempt, buildError: Option<string>)
    requires maxRetries < 0
    ensures Outcome(maxRetries, endpoint, buildError) == Failed(EmptyResponse)
    ensures AttemptsMade(maxRetries, endpoint, buildError) == 0
  {
  }

  /**
   * When no attempt succeeds and the last one got no response, the result is
   * the empty-response error, even if earlier attempts did get responses.
   */
  lemma LastAttemptWithoutResponse(maxRetries: int, endpoint: nat -> Attempt)
    requires maxRetries >= 0 && NoSuccessBefore(endpoint, maxRetries + 1)
    requires endpoint(maxRetries).TransportError? || endpoint(maxRetries).NilResponse?
    ensures Outcome(maxRetries, endpoint, None) == Failed(EmptyResponse)
    ensures AttemptsMade(maxRetries, endpoint, None) == maxRetries + 1
  {
    NoSuccessMeansNone(endpoint, maxRetries + 1);
  }

  /** Once no attempt succeeds, the outcome depends on the last attempt's answer only. */
  lemma OnlyLastAttemptDecides(maxRetries: int, e1: nat -> Attempt, e2: nat -> Attempt)
    requires maxRetries >= 0
    requires NoSuccessBefore(e1, maxRetries + 1) && NoSuccessBefore(e2, maxRetries + 1)
    requires e1(maxRetries) == e2(maxRetries)
    ensures Outcome(maxRetries, e1, None) == Outcome(maxRetries, e2, None)
  {
    NoSuccessMeansNone(e1, maxRetries + 1);
    NoSuccessMeansNone(e2, maxRetries + 1);
  }

  lemma NoSuccessMeansNone(endpoint: nat -> Attempt, n: nat)
    requires NoSuccessBefore(endpoint, n)
    ensures FirstSuccess(endpoint, n) == None
  {
  }

  /**
   * A last status below 200 or above 300 is a failure whose text carries that
   * status in decimal, right after "request returned failure: ".
   */
  lemma FailureStatusOnLastAttempt(meta: ConnectorMetadata, endpoint: nat -> Attempt, code: int)
    requires meta.maxRetries >= 0 && NoSuccessBefore(endpoint, meta.maxRetries + 1)
    requires endpoint(meta.maxRetries) == Status(code) && (code < 200 || code > 300)
    ensures Outcome(meta.maxRetries, endpoint, None) == Failed(FailureStatus(code))
    ensures var text := ErrorText(meta, FailureStatus(code));
      var at := |FailurePrefix|;
      && at + |FormatInt(code)| <= |text|
      && text[at..at + |FormatInt(code)|] == FormatInt(code)
  {
    NoSuccessMeansNone(endpoint, meta.maxRetries + 1);
  }

  /**
   * A status of exactly 300 on the last attempt is returned as success, though
   * the same status never ends the loop early.
   */
  lemma Status300OnLastAttempt(maxRetries: int, endpoint: nat -> Attempt)
    requires maxRetries >= 0 && NoSuccessBefore(endpoint, maxRetries + 1)
    requires endpoint(maxRetries) == Status(300)
    ensures Outcome(maxRetries, endpoint, None) == Delivered(300)
    ensures AttemptsMade(maxRetries, endpoint, None) == maxRetries + 1
  {
    NoSuccessMeansNone(endpoint, maxRetries + 1);
  }

  /** A 300 before the last attempt is retried like any other non-2xx status. */
  lemma Status300IsRetried(maxRetries: int, endpoint: nat -> Attempt, k: nat)
    requires k < maxRetries && endpoint(k) == Status(300) && NoSuccessBefore(endpoint, k + 1)
    ensures AttemptsMade(maxRetries, endpoint, None) > k + 1
  {
  }

  /** Every delivered status lies in [200, 300]; 300 is only ever the last attempt's. */
  lemma DeliveredRange(maxRetries: int, endpoint: nat -> Attempt, buildError: Option<string>)
    requires Outcome(maxRetries, endpoint, buildError).Delivered?
    ensures 200 <= Outcome(maxRetries, endpoint, buildError).code <= 300
    ensures Outcome(maxRetries, endpoint, buildError).code == 300 ==>
      AttemptsMade(maxRetries, endpoint, buildError) == maxRetries + 1
  {
  }
}
