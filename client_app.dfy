/**
  The client component's state (`jobList`, `newJobId`, `isLoading`,
  `error`) and the handlers that update it: the socket message handler,
  `fetchJobs` and `createJob`. Each network request goes through
  `retryRequest` with its defaults; `request(k)` is what the k-th call of
  the request function does.
 */
module App {
  import opened ClientRetry
  import opened ClientJobs

  const NetworkError: string := "Network error. Retrying..."
  const DefaultRetries: int := 3
  const DefaultDelay: int := 1000

  class AppState {
    var jobList: seq<Record>
    var newJobId: string
    var isLoading: bool
    var error: string

    /** The initial state of the component. */
    constructor ()
      ensures jobList == [] && newJobId == "" && !isLoading && error == ""
    {
      jobList := [];
      newJobId := "";
      isLoading := false;
      error := "";
    }

    /** `ws.onmessage`: apply the list updater for one parsed message. */
    method HandleMessage(msg: Message)
      modifies this`jobList
      ensures jobList == OnMessage(old(jobList), msg)
    {
      jobList := OnMessage(jobList, msg);
    }

    /** `fetchJobs`: load the list; on exhausted retries keep the old list
        and show the network error; loading ends in both cases. */
    method FetchJobs<E>(request: nat -> Response<seq<Record>, E>)
      modifies this`jobList, this`isLoading, this`error
      ensures !isLoading
      ensures RetryRequest(request, DefaultRetries, DefaultDelay, 0).result.Returned? ==>
                jobList == RetryRequest(request, DefaultRetries, DefaultDelay, 0).result.value && error == ""
      ensures RetryRequest(request, DefaultRetries, DefaultDelay, 0).result.Threw? ==>
                jobList == old(jobList) && error == NetworkError
    {
      isLoading := true;
      error := "";
      var run := RetryRequest(request, DefaultRetries, DefaultDelay, 0);
      match run.result {
        case Returned(data) =>
          jobList := data;
        case Threw(_) =>
          error := NetworkError;
      }
      isLoading := false;
    }

    /** `createJob`: post a creation request; on success remember the new id
        and reload the list, on exhausted retries show the network error. */
    method CreateJob<E, F>(post: nat -> Response<string, E>, fetch: nat -> Response<seq<Record>, F>)
      modifies this`jobList, this`newJobId, this`isLoading, this`error
      ensures !isLoading
      ensures RetryRequest(post, DefaultRetries, DefaultDelay, 0).result.Returned? ==>
                newJobId == RetryRequest(post, DefaultRetries, DefaultDelay, 0).result.value &&
                (RetryRequest(fetch, DefaultRetries, DefaultDelay, 0).result.Returned? ==>
                   jobList == RetryRequest(fetch, DefaultRetries, DefaultDelay, 0).result.value && error == "") &&
                (RetryRequest(fetch, DefaultRetries, DefaultDelay, 0).result.Threw? ==>
                   jobList == old(jobList) && error == NetworkError)
      ensures RetryRequest(post, DefaultRetries, DefaultDelay, 0).result.Threw? ==>
                newJobId == old(newJobId) && jobList == old(jobList) && error == NetworkError
    {
      isLoading := true;
      error := "";
      var run := RetryRequest(post, DefaultRetries, DefaultDelay, 0);
      match run.result {
        case Returned(id) =>
          newJobId := id;
          FetchJobs(fetch);
        case Threw(_) =>
          error := NetworkError;
      }
      isLoading := false;
    }
  }
}
