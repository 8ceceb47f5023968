# Job lifecycle model

A Dafny model of a small job-simulation service and its web client. The
server keeps a file of job records. A creation request appends a `pending`
record with a random execution time of 5 to 300 seconds. Once that time
has elapsed, the server asks an image service for a picture. It marks the
record `resolved` with the picture URL, or `failed`. Every change is
broadcast to the connected WebSocket clients. When the server starts, it
re-arms every pending record. The client keeps a list of jobs. It updates
the list from the broadcast messages and reloads it over HTTP through a
retry helper.

Modules, following the program's structure:

- `Common` (`common.dfy`): `Option`.
- `JobStore` (`job_store.dfy`): the job record, reading the job file with its fallback, lookup by id, the record a creation builds, the pending filter, and what resolution does to the list.
- `Scheduler` (`scheduler.dfy`): the remaining-time decision of `processJob`.
- `ImageFetch` (`image_fetch.dfy`): the server's retry policy for the image request.
- `Hub` (`hub.dfy`): sockets, events, broadcast deliveries and removal on close.
- `Server` (`server.dfy`): class `JobServer`. Its fields are the job file, the socket list, the messages sent and the pending asynchronous tasks. Its methods are the handlers.
- `ClientRetry` (`client_retry.dfy`): the client's `retryRequest`.
- `ClientJobs` (`client_jobs.dfy`): the client's message reducer, plus lemmas relating server events to the client's list.
- `App` (`client_app.dfy`): class `AppState` with the component's state and its handlers.

Time is in integer milliseconds. `executionTime` is in whole seconds. The
source's test `executionTime - (now - start)/1000 <= 0` is the same as
`executionTime*1000 - (now - start) <= 0`. Its timer delay
`remainingTime * 1000` is the same as `executionTime*1000 - (now - start)`.

The clock, the random id and slot, and the outcome of each network call are
parameters. `processJob` is asynchronous. Its synchronous part is
`JobServer.ProcessJob`, which appends a task: `Resolve` is an image request
in flight, and `Timer` is an armed `setTimeout` with its delay. Later, the
event loop runs one task with `JobServer.RunTask`. For a timer, the job is
re-evaluated with the current clock. For an image request, all the call
outcomes (retries included) are given as `respond(k)` for the k-th call.

Points worth knowing about the code:

- Retries. The server's HTTP client is configured with `retries: 3`, which means up to four calls: the first call and three retries (`ImageFetch.AlwaysServerFault`).
- Settling. A record's current status is not checked before it is settled, so a record can be settled again.
- Failed jobs. A failed record keeps whatever `result` it had (`JobStore.Settle`). A pending record without a result, once settled, has a result exactly when it is resolved (`JobStore.SettlePendingResultIffResolved`).
- Missing start time. A record with no `startTime`, or with `startTime` 0, is measured from the current clock each time it is re-evaluated. If its execution time is positive, it is deferred by the whole execution time on every re-evaluation (`Scheduler.MissingStartCountsAsNow`).

## Model

| member | source | states |
|---|---|---|
| `JobStore.ReadJobList` | server/server.js:51-63 | a file that is missing or does not parse reads as the empty list; otherwise the parsed list |
| `JobStore.SavedThenRead` | server/server.js:65-67 | what `saveJobs` writes is exactly what the next read returns |
| `JobStore.FindIndex` | server/server.js:83 | the index found holds a record with the id and no earlier record has it; none is found iff no record has the id |
| `JobStore.Find` | server/server.js:145-154 | lookup returns the first record with the id; not-found iff no record has the id |
| `JobStore.ExecutionTime` | server/server.js:125 | every execution time is a multiple of 5 between 5 and 300 |
| `JobStore.EveryExecutionTimeReachable` | server/server.js:125 | conversely, every multiple of 5 from 5 to 300 comes from some slot 0..59 |
| `JobStore.NewJob` | server/server.js:124-132 | a created record has the given id, status pending, no result, start time now, and an execution time that is a multiple of 5 in 5..300 |
| `JobStore.PendingJobs` | server/server.js:108 | a record is selected iff it is in the store and its status is pending |
| `JobStore.PendingJobsAppend` | server/server.js:106-112 | the pending filter distributes over concatenation, so store order is kept |
| `JobStore.Settle` | server/server.js:85-86 | success sets status resolved with the image URL as result; failure sets status failed and keeps the result; id and times are unchanged |
| `JobStore.SettlePendingResultIffResolved` | server/server.js:94 | after settling a pending record without a result, it has a result iff it is resolved |
| `JobStore.MarkOutcome` | server/server.js:82-97 | same length and ids; only the first record with the id changes, to its settled form; with no match the list is unchanged |
| `JobStore.FindAfterMarkOutcome` | server/server.js:82-88 | after resolution, looking the id up gives the settled record |
| `Scheduler.Arm` | server/server.js:70-75 | resolve now iff the execution time has elapsed since the start (or now); otherwise defer by a positive delay that ends exactly at start plus execution time |
| `Scheduler.ArmByDueTime` | server/server.js:99-103 | for a record with a start time, the decision depends only on the due time: resolve once it is reached, otherwise wait exactly until it |
| `Scheduler.RestartResolvesOverdue` | server/server.js:106-112 | on restart, a record whose execution time already elapsed resolves at once |
| `Scheduler.ReevaluateAfterTimer` | server/server.js:99-103 | a timer fired on or after its delay resolves; one fired early is re-armed for exactly the rest |
| `Scheduler.MissingStartCountsAsNow` | server/server.js:71 | a missing or zero start time counts as now: resolve only if the execution time is not positive, else defer by the whole execution time |
| `Scheduler.MissingExecutionTimeCountsAsZero` | server/server.js:73 | a missing execution time counts as 0: the record resolves iff its start is not in the future |
| `Scheduler.NewJobIsDeferred` | server/server.js:124-138 | a newly created job is always deferred, by exactly its execution time |
| `Scheduler.ArmAll` | server/server.js:109-111 | one decision per record, in list order |
| `ImageFetch.Get` | server/server.js:22-26 | at most 4 calls; the response seen is the last call's; every earlier call failed with status 500; the last one is not retryable |
| `ImageFetch.AlwaysServerFault` | server/server.js:22-26 | a dependency that always answers 500 is called exactly 4 times and the resolution fails |
| `ImageFetch.OtherFailureIsFinal` | server/server.js:25 | a failure without status 500 is not retried and the resolution fails |
| `ImageFetch.ImageResult` | server/server.js:76-90 | the resolution yields a URL only from a final 2xx response carrying `urls.small`; it fails when the request threw after retries or the URL is missing |
| `ImageFetch.SuccessIsFinal` | server/server.js:76-80 | the first success after 500 failures is the response used, after exactly that many calls |
| `Hub.Deliveries` | server/server.js:43-49 | a broadcast delivers at most one message per registered socket; a delivery to a socket happens iff that socket is registered and open |
| `Hub.DeliveriesAppend` | server/server.js:44 | a broadcast over a concatenation is the two broadcasts in order, so list order is kept |
| `Hub.NoOpenNoDelivery` | server/server.js:45 | a socket list with no open socket receives nothing |
| `Hub.RemoveClient` | server/server.js:38-40 | after a close, a socket remains iff it was registered and is not the closed one |
| `Hub.RemoveClientAppend` | server/server.js:39 | removal distributes over concatenation, so the remaining sockets keep their order |
| `Hub.RemoveAbsentClient` | server/server.js:39 | closing a socket that is not registered leaves the list unchanged |
| `Hub.RemoveClientIdempotent` | server/server.js:38-40 | a second close of the same socket changes nothing |
| `Server.JobServer.Start` | server/server.js:156 | at startup no socket is connected, and exactly the pending records are armed, in store order |
| `Server.JobServer.Connect` | server/server.js:35-36 | a connecting socket is appended to the registry |
| `Server.JobServer.Close` | server/server.js:38-40 | a close leaves the registry as `RemoveClient` of the old one |
| `Server.JobServer.Broadcast` | server/server.js:43-49 | the messages sent grow by exactly the deliveries to the open sockets, in list order |
| `Server.JobServer.ProcessJob` | server/server.js:69-104 | exactly one task is added: the scheduling decision for the job at the current time |
| `Server.JobServer.ProcessPendingJobs` | server/server.js:106-112 | the tasks grow by the decisions for the pending records of the store, in store order |
| `Server.JobServer.CreateJob` | server/server.js:123-143 | the store becomes the old list plus the new pending record and is saved; a timer for exactly its execution time is armed; every open socket gets `newJobCreated`; the id is returned |
| `Server.JobServer.ResolveJob` | server/server.js:82-97 | the store becomes `MarkOutcome` of the re-read list; with no record of that id nothing is saved and nothing is sent; otherwise the list is saved and the settled record is broadcast as resolved or failed |
| `Server.JobServer.RunTask` | server/server.js:76-102 | running a timer removes it and adds the re-evaluated decision, touching neither file nor messages; running a request removes it and settles the job with the fetched image or a failure; when the id is stored the list is saved and the settled record is broadcast as resolved or failed, when it is not nothing is saved or sent |
| `Server.JobServer.GetJob` | server/server.js:145-154 | returns the first stored record with the id, or not-found |
| `Server.JobServer.ListJobs` | server/server.js:118-121 | returns the list as read from the file |
| `ClientRetry.RetryRequest` | client/src/App.jsx:47-58 | 1 to retries+1 calls; the result is the last call's; every earlier call threw; a thrown result means every retry was used; the wait before retry k is `delay * 2^k` |
| `ClientRetry.FirstSuccessReturned` | client/src/App.jsx:48-53 | the first call that returns is the result, after exactly that many calls |
| `ClientRetry.SucceedsIffSomeCallReturns` | client/src/App.jsx:47-58 | the result is a success iff one of the first retries+1 calls returns; otherwise it is the last call's error |
| `ClientRetry.DefaultsAllFailing` | client/src/App.jsx:47-58 | with the defaults and a request that always throws: 4 calls, waits 1000, 2000, 4000, and the fourth error is rethrown |
| `ClientJobs.Overlay` | client/src/App.jsx:32 | the spread has all fields of both records, the message's value on shared fields, and the old value elsewhere |
| `ClientJobs.OverlayCovering` | client/src/App.jsx:32 | a message carrying every field of the record replaces it entirely |
| `ClientJobs.OnMessage` | client/src/App.jsx:26-38 | on `jobResolved`/`jobFailed`: same length, records with another id unchanged, matching records overlaid; `newJobCreated` appends; any other type leaves the list unchanged |
| `ClientJobs.TerminalMessageFieldsWin` | client/src/App.jsx:29-34 | a matching record takes every message field's value, keeps its own other fields, and gains no other field |
| `ClientJobs.Snapshot` | server/server.js:46 | the JSON object of a record has exactly the fields id, status, result and whichever of `executionTime` and `startTime` the record has, with the record's values; a missing result is written as `null` |
| `ClientJobs.SettleKeepsFields` | server/server.js:85-86 | settling a record does not change which fields its JSON object has |
| `ClientJobs.ClientMirrorsCreation` | client/src/App.jsx:35-36 | a client holding the server's list still holds it after a creation event |
| `ClientJobs.ClientMirrorsResolution` | client/src/App.jsx:29-34 | when ids are unique, a client holding the server's list still holds it after the server settles a job and broadcasts it |
| `ClientJobs.DuplicateIdsDiverge` | client/src/App.jsx:29-34 | with two records sharing an id, the client marks both resolved while the server settles only the first, so the two lists differ |
| `App.AppState.constructor` | client/src/App.jsx:18-21 | the list starts empty, the new id and error start empty, and nothing is loading |
| `App.AppState.HandleMessage` | client/src/App.jsx:26-38 | the list becomes `OnMessage` of the old list and the message |
| `App.AppState.FetchJobs` | client/src/App.jsx:60-71 | on success the list becomes the response data and the error is cleared; on exhausted retries the list is untouched and the error is "Network error. Retrying..."; loading ends false |
| `App.AppState.CreateJob` | client/src/App.jsx:73-85 | on success the new id is stored and the list is reloaded as `FetchJobs` does; on exhausted retries the id and list are untouched and the network error is shown; loading ends false |

## Left out

- The HTTP routing, CORS and the `/health` endpoint. Only the handlers' effects on the store are modelled.
- File I/O and JSON. The file is a value that is missing, unparsable or a parsed list of job records. Valid JSON of some other shape is not distinguished, and `saveJobs` never fails.
- WebSocket transport. `client.send` becomes a recorded delivery. A socket's open flag is fixed while it is registered.
- `Math.random` and `Date.now`. The id, the slot `floor(random * 60)` and the clock are parameters. `CreateJob` uses one clock reading for `startTime` and for its `processJob` call. `ProcessPendingJobs` uses one reading for the whole loop.
- `setTimeout` and scheduling order. Timers and in-flight requests are recorded as tasks, and the environment picks which task runs next. Timer accuracy is not modelled.
- Retry delays. The jitter and timing of the server's exponential delay are not modelled. The client's waits are recorded, not slept.
- Image service response. A 2xx response whose `data.urls` exists but lacks `small` is not modelled separately. `smallUrl = None` stands for a response where reading the URL throws, which leads to the failure branch.
- Concurrency. Each read-modify-write of the job file (server/server.js:82-88, 91-96, 134-136) uses synchronous reads and writes with no suspension point between them, so within one process it cannot interleave and running each task to completion matches the code. Interleaving happens only at the awaited image request and at the timers, and those are modelled as tasks. Several server processes sharing one file are not modelled.
- Rendering. The React rendering, the MUI components and the client's axios and WebSocket setup are not modelled.
- `App.AppState.CreateJob`: `fetchJobs()` is not awaited in the source, so `createJob`'s own `finally` can run before the reload finishes. The model runs the reload to completion first. This is the same final state, but the intermediate `isLoading` values differ.
