/**
  The retry policy installed on the server's HTTP client for the image
  request: retry only when the failure carries HTTP status 500, and at most
  three retries after the first call. The delays between attempts are not
  modelled; the outcome of the k-th call is given by `respond(k)`.
 */
module ImageFetch {
  import opened Common

  const MaxRetries: nat := 3
  const ServerFault: int := 500

  /** The outcome of one call: a 2xx response whose body may or may not carry
      `data.urls`, or a thrown error with the response status if there was a
      response at all. */
  datatype HttpResponse = Ok(smallUrl: Option<string>) | HttpError(status: Option<int>)

  /** `error.response?.status === 500` */
  predicate RetryCondition(r: HttpResponse) {
    r.HttpError? && r.status == Some(ServerFault)
  }

  /** Another call is made after call number `retryCount` (counting from 0)
      exactly when the retry condition holds and retries remain. */
  predicate ShouldRetry(r: HttpResponse, retryCount: nat) {
    retryCount < MaxRetries && RetryCondition(r)
  }

  /** The response the caller finally sees and how many calls were made. */
  datatype Fetch = Fetch(response: HttpResponse, calls: nat)

  /** The request with retries, from call number `retryCount` on. */
  function Get(respond: nat -> HttpResponse, retryCount: nat): (f: Fetch)
    requires retryCount <= MaxRetries
    ensures retryCount < f.calls <= MaxRetries + 1
    ensures f.response == respond(f.calls - 1)
    ensures !ShouldRetry(f.response, f.calls - 1)
    ensures forall k :: retryCount <= k < f.calls - 1 ==> RetryCondition(respond(k))
    decreases MaxRetries - retryCount
  {
    var r := respond(retryCount);
    if ShouldRetry(r, retryCount) then Get(respond, retryCount + 1) else Fetch(r, retryCount + 1)
  }

  /** The image URL the resolution stores, or `None` when the request threw
      (after retries) or the response has no `data.urls`. */
  function ImageResult(respond: nat -> HttpResponse): (r: Option<string>)
    ensures r.Some? ==> Get(respond, 0).response == Ok(r)
    ensures r.None? <==> !Get(respond, 0).response.Ok? || Get(respond, 0).response.smallUrl.None?
  {
    var f := Get(respond, 0);
    if f.response.Ok? then f.response.smallUrl else None
  }

  /** A dependency that answers 500 every time is called four times (the first
      call and three retries) and the resolution fails. */
  lemma AlwaysServerFault(respond: nat -> HttpResponse)
    requires forall k :: respond(k) == HttpError(Some(ServerFault))
    ensures Get(respond, 0).calls == MaxRetries + 1
    ensures ImageResult(respond) == None
  {
  }

  /** Any failure other than status 500 is final: no retry is made. */
  lemma OtherFailureIsFinal(respond: nat -> HttpResponse)
    requires respond(0).HttpError? && respond(0).status != Some(ServerFault)
    ensures Get(respond, 0) == Fetch(respond(0), 1)
    ensures ImageResult(respond) == None
  {
  }

  /** A success is returned at once, whatever later calls would answer. */
  lemma SuccessIsFinal(respond: nat -> HttpResponse, k: nat)
    requires k <= MaxRetries && respond(k).Ok?
    requires forall j :: 0 <= j < k ==> RetryCondition(respond(j))
    ensures Get(respond, 0) == Fetch(respond(k), k + 1)
    ensures ImageResult(respond) == respond(k).smallUrl
  {
  }
}
