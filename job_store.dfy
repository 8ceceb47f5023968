/**
  The job records kept by the server and the pure operations on the list of
  records: reading the store with its fallback, lookup by id, the record a
  creation request builds, the pending filter used at startup, and the change
  a resolution makes to the list.
 */
module JobStore {
  import opened Common

  datatype Status = Pending | Resolved | Failed

  /** One persisted record. `executionTime` is in whole seconds, `startTime`
      in milliseconds; both may be missing in a record read from the file. */
  datatype Job = Job(
    id: string,
    status: Status,
    result: Option<string>,
    executionTime: Option<int>,
    startTime: Option<int>)

  /** The job file: absent, or present with contents that either parse as a
      list of job records (`Some`) or do not (`None`). */
  datatype StoreFile = Missing | Present(parsed: Option<seq<Job>>)

  /** What `saveJobs` leaves in the file. */
  function Saved(jobs: seq<Job>): StoreFile {
    Present(Some(jobs))
  }

  /** Reading the store: a missing or unparsable file reads as the empty list. */
  function ReadJobList(file: StoreFile): (jobs: seq<Job>)
    ensures file.Present? && file.parsed.Some? ==> jobs == file.parsed.value
    ensures !(file.Present? && file.parsed.Some?) ==> jobs == []
  {
    match file
    case Missing => []
    case Present(None) => []
    case Present(Some(js)) => js
  }

  /** Whatever was saved is what the next read returns. */
  lemma SavedThenRead(jobs: seq<Job>)
    ensures ReadJobList(Saved(jobs)) == jobs
  {
  }

  /** Index of the first record with the given id (the record `find` returns). */
  function FindIndex(jobs: seq<Job>, id: string): (r: Option<nat>)
    ensures r.Some? ==> r.value < |jobs| && jobs[r.value].id == id
    ensures r.Some? ==> forall j :: 0 <= j < r.value ==> jobs[j].id != id
    ensures r.None? <==> forall j :: 0 <= j < |jobs| ==> jobs[j].id != id
  {
    if |jobs| == 0 then None
    else if jobs[0].id == id then Some(0)
    else
      match FindIndex(jobs[1..], id)
      case None => None
      case Some(i) => Some(i + 1)
  }

  /** Lookup by id: the first matching record, or not-found. */
  function Find(jobs: seq<Job>, id: string): (r: Option<Job>)
    ensures r.None? <==> forall j :: 0 <= j < |jobs| ==> jobs[j].id != id
    ensures r.Some? ==> r.value.id == id && r.value in jobs
    ensures r.Some? ==> exists i :: 0 <= i < |jobs| && jobs[i] == r.value &&
                          forall j :: 0 <= j < i ==> jobs[j].id != id
  {
    match FindIndex(jobs, id)
    case None => None
    case Some(i) => Some(jobs[i])
  }

  /** Execution time of a new job from the random slot `floor(random * 60)`. */
  function ExecutionTime(slot: int): (t: int)
    requires 0 <= slot < 60
    ensures t % 5 == 0 && 5 <= t <= 300
  {
    slot * 5 + 5
  }

  /** Every multiple of 5 between 5 and 300 is a possible execution time. */
  lemma EveryExecutionTimeReachable(t: int)
    requires t % 5 == 0 && 5 <= t <= 300
    ensures 0 <= (t - 5) / 5 < 60 && ExecutionTime((t - 5) / 5) == t
  {
  }

  /** The record a creation request builds. */
  function NewJob(id: string, slot: int, now: int): (j: Job)
    requires 0 <= slot < 60
    ensures j.id == id && j.status == Pending && j.result == None
    ensures j.startTime == Some(now)
    ensures j.executionTime.Some? && j.executionTime.value % 5 == 0
    ensures 5 <= j.executionTime.value <= 300
  {
    Job(id, Pending, None, Some(ExecutionTime(slot)), Some(now))
  }

  /** The records whose status is pending, in store order. */
  function PendingJobs(jobs: seq<Job>): (r: seq<Job>)
    ensures |r| <= |jobs|
    ensures forall j :: j in r <==> j in jobs && j.status == Pending
  {
    if |jobs| == 0 then []
    else (if jobs[0].status == Pending then [jobs[0]] else []) + PendingJobs(jobs[1..])
  }

  /** The pending filter distributes over concatenation, so it keeps store order. */
  lemma {:induction false} PendingJobsAppend(a: seq<Job>, b: seq<Job>)
    ensures PendingJobs(a + b) == PendingJobs(a) + PendingJobs(b)
  {
    if |a| == 0 {
      assert a + b == b;
    } else {
      assert (a + b)[0] == a[0];
      assert (a + b)[1..] == a[1..] + b;
      PendingJobsAppend(a[1..], b);
    }
  }

  /** The record after resolution: `Some(url)` is a successful image fetch,
      `None` a failure, which leaves `result` as it was. */
  function Settle(job: Job, outcome: Option<string>): (s: Job)
    ensures s.id == job.id && s.executionTime == job.executionTime && s.startTime == job.startTime
    ensures outcome.Some? ==> s.status == Resolved && s.result == outcome
    ensures outcome.None? ==> s.status == Failed && s.result == job.result
  {
    match outcome
    case Some(url) => job.(status := Resolved, result := Some(url))
    case None => job.(status := Failed)
  }

  /** A pending record without a result, once settled, has a result exactly
      when it is resolved. */
  lemma SettlePendingResultIffResolved(job: Job, outcome: Option<string>)
    requires job.status == Pending && job.result == None
    ensures Settle(job, outcome).result.Some? <==> Settle(job, outcome).status == Resolved
  {
  }

  /** The list after resolving `id`: the first record with that id is
      settled, every other record stays as it was. */
  function MarkOutcome(jobs: seq<Job>, id: string, outcome: Option<string>): (r: seq<Job>)
    ensures |r| == |jobs|
    ensures forall j :: 0 <= j < |jobs| ==> r[j].id == jobs[j].id
    ensures forall j :: 0 <= j < |jobs| && jobs[j].id != id ==> r[j] == jobs[j]
    ensures FindIndex(jobs, id).None? ==> r == jobs
    ensures FindIndex(jobs, id).Some? ==>
              var i := FindIndex(jobs, id).value;
              r[i] == Settle(jobs[i], outcome) &&
              forall j :: 0 <= j < |jobs| && j != i ==> r[j] == jobs[j]
  {
    match FindIndex(jobs, id)
    case None => jobs
    case Some(i) => jobs[i := Settle(jobs[i], outcome)]
  }

  /** After resolution, looking the id up again yields the settled record. */
  lemma FindAfterMarkOutcome(jobs: seq<Job>, id: string, outcome: Option<string>)
    requires Find(jobs, id).Some?
    ensures Find(MarkOutcome(jobs, id, outcome), id) == Some(Settle(Find(jobs, id).value, outcome))
  {
  }
}
