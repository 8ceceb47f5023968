/**
  The client's `retryRequest`: call the request; on a thrown error wait
  `delay` and try again with one retry fewer and twice the delay, until no
  retries remain, then rethrow. The outcome of the k-th call of the request
  function is `request(k)`; the waits are recorded rather than slept.
 */
module ClientRetry {

  /** What one call of the request function does: return a value or throw. */
  datatype Response<T, E> = Returned(value: T) | Threw(error: E)

  /** The outcome of `retryRequest`, how many times the request function was
      called and the waits between the calls, in milliseconds. */
  datatype RetryRun<T, E> = RetryRun(result: Response<T, E>, calls: nat, waits: seq<int>)

  function Pow2(k: nat): nat {
    if k == 0 then 1 else 2 * Pow2(k - 1)
  }

  /** Doubling the delay once and then `j - 1` more times is doubling it `j` times. */
  lemma DoubledDelay(delay: int, j: nat)
    requires j >= 1
    ensures (delay * 2) * Pow2(j - 1) == delay * Pow2(j)
  {
  }

  /** Retries still allowed when `retries` is passed: `retries > 0` is false
      for every value up to 0. */
  function Budget(retries: int): nat {
    if retries > 0 then retries else 0
  }

  /** `retryRequest(requestFn, retries, delay)`, where `attempt` numbers the
      first call it makes. */
  function RetryRequest<T, E>(request: nat -> Response<T, E>, retries: int, delay: int, attempt: nat): (run: RetryRun<T, E>)
    ensures 1 <= run.calls <= Budget(retries) + 1
    ensures run.result == request(attempt + run.calls - 1)
    ensures forall j :: attempt <= j < attempt + run.calls - 1 ==> request(j).Threw?
    ensures run.result.Threw? ==> run.calls == Budget(retries) + 1
    ensures |run.waits| == run.calls - 1
    ensures forall j :: 0 <= j < |run.waits| ==> run.waits[j] == delay * Pow2(j)
    decreases Budget(retries)
  {
    var r := request(attempt);
    if r.Returned? then RetryRun(r, 1, [])
    else if retries > 0 then
      var rest := RetryRequest(request, retries - 1, delay * 2, attempt + 1);
      assert forall j :: 1 <= j <= |rest.waits| ==> rest.waits[j - 1] == delay * Pow2(j) by {
        forall j | 1 <= j <= |rest.waits| ensures rest.waits[j - 1] == delay * Pow2(j) {
          DoubledDelay(delay, j);
        }
      }
      RetryRun(rest.result, rest.calls + 1, [delay] + rest.waits)
    else RetryRun(r, 1, [])
  }

  /** The first successful call is the one returned, whatever later calls
      would do. */
  lemma FirstSuccessReturned<T, E>(request: nat -> Response<T, E>, retries: int, delay: int, k: nat)
    requires k <= Budget(retries) && request(k).Returned?
    requires forall j :: 0 <= j < k ==> request(j).Threw?
    ensures RetryRequest(request, retries, delay, 0).result == request(k)
    ensures RetryRequest(request, retries, delay, 0).calls == k + 1
  {
  }

  /** The retry succeeds exactly when one of the first `retries + 1` calls
      returns; otherwise it rethrows the error of the last call. */
  lemma SucceedsIffSomeCallReturns<T, E>(request: nat -> Response<T, E>, retries: int, delay: int)
    ensures RetryRequest(request, retries, delay, 0).result.Returned? <==>
            exists j :: 0 <= j <= Budget(retries) && request(j).Returned?
    ensures RetryRequest(request, retries, delay, 0).result.Threw? ==>
            RetryRequest(request, retries, delay, 0).result == request(Budget(retries))
  {
  }

  /** With the defaults (three retries, 1000 ms) and a request that always
      throws: four calls, waits of 1000, 2000 and 4000 ms, and the fourth
      call's error is rethrown. */
  lemma DefaultsAllFailing<T, E>(request: nat -> Response<T, E>)
    requires forall k :: request(k).Threw?
    ensures RetryRequest(request, 3, 1000, 0).calls == 4
    ensures RetryRequest(request, 3, 1000, 0).waits == [1000, 2000, 4000]
    ensures RetryRequest(request, 3, 1000, 0).result == request(3)
  {
  }
}
