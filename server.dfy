/**
  The server's mutable state and the handlers that change it: the job file,
  the list of connected sockets, the messages sent so far and the tasks
  (timers and in-flight image requests) that `processJob` leaves behind.
  Each asynchronous continuation of the source is one call of `RunTask`.
 */
module Server {
  import opened Common
  import opened JobStore
  import opened Scheduler
  import opened ImageFetch
  import opened Hub

  class JobServer {
    /** The job file on disk. */
    var file: StoreFile
    /** `connectedClients`, in connection order. */
    var clients: seq<Socket>
    /** Every message handed to a socket, in sending order. */
    var sent: seq<Delivery>
    /** Armed timers and in-flight resolutions, in the order they were started. */
    var tasks: seq<Task>

    /** The list `readJobList` returns at this moment. */
    function Stored(): seq<Job>
      reads this`file
    {
      ReadJobList(file)
    }

    /** Process start: nobody is connected yet, and `processPendingJobs` runs
        once over the file as found. */
    constructor Start(initial: StoreFile, now: int)
      ensures file == initial && clients == [] && sent == []
      ensures tasks == ArmAll(PendingJobs(ReadJobList(initial)), now)
    {
      file := initial;
      clients := [];
      sent := [];
      tasks := [];
      new;
      ProcessPendingJobs(now);
    }

    /** A socket connects: it is appended to the registry. */
    method Connect(ws: Socket)
      modifies this`clients
      ensures clients == old(clients) + [ws]
    {
      clients := clients + [ws];
    }

    /** A socket closes: every copy of it leaves the registry. */
    method Close(id: nat)
      modifies this`clients
      ensures clients == RemoveClient(old(clients), id)
    {
      clients := RemoveClient(clients, id);
    }

    /** `broadcast`: send `e` to each registered socket whose state is open. */
    method Broadcast(e: Event)
      modifies this`sent
      ensures sent == old(sent) + Deliveries(clients, e)
    {
      var i := 0;
      while i < |clients|
        invariant 0 <= i <= |clients|
        invariant sent == old(sent) + Deliveries(clients[..i], e)
      {
        var client := clients[i];
        assert clients[..i + 1] == clients[..i] + [client];
        if client.open {
          sent := sent + [Delivery(client.id, e)];
        }
        i := i + 1;
      }
      assert clients[..i] == clients;
    }

    /** The synchronous part of `processJob`: start the image request now,
        or arm a timer for the remaining time. */
    method ProcessJob(job: Job, now: int)
      modifies this`tasks
      ensures tasks == old(tasks) + [Arm(job, now)]
    {
      var remaining := RemainingMs(job, now);
      if remaining <= 0 {
        tasks := tasks + [Resolve(job)];
      } else {
        tasks := tasks + [Timer(job, remaining)];
      }
    }

    /** `processPendingJobs`: process exactly the pending records, in store order. */
    method ProcessPendingJobs(now: int)
      modifies this`tasks
      ensures tasks == old(tasks) + ArmAll(PendingJobs(Stored()), now)
    {
      var jobs := Stored();
      var pending := PendingJobs(jobs);
      ghost var start := tasks;
      var i := 0;
      while i < |pending|
        invariant 0 <= i <= |pending|
        invariant |tasks| == |start| + i && tasks[..|start|] == start
        invariant forall j :: 0 <= j < i ==> tasks[|start| + j] == Arm(pending[j], now)
      {
        ProcessJob(pending[i], now);
        i := i + 1;
      }
      var armed := ArmAll(pending, now);
      assert tasks == start + armed by {
        forall j | 0 <= j < |tasks| ensures tasks[j] == (start + armed)[j] {
          if j < |start| {
            assert tasks[j] == tasks[..|start|][j];
          }
        }
      }
    }

    /** POST /jobs: append a pending record, save, process it, announce it. */
    method CreateJob(id: string, slot: int, now: int) returns (jobId: string)
      requires 0 <= slot < 60
      modifies this`file, this`tasks, this`sent
      ensures jobId == id
      ensures Stored() == old(Stored()) + [NewJob(id, slot, now)]
      ensures file == Saved(Stored())
      ensures tasks == old(tasks) + [Timer(NewJob(id, slot, now), ExecutionTime(slot) * 1000)]
      ensures sent == old(sent) + Deliveries(clients, Event(NewJobCreated, NewJob(id, slot, now)))
    {
      var newJob := NewJob(id, slot, now);
      var jobs := Stored();
      jobs := jobs + [newJob];
      file := Saved(jobs);
      ProcessJob(newJob, now);
      NewJobIsDeferred(id, slot, now);
      Broadcast(Event(NewJobCreated, newJob));
      jobId := id;
    }

    /** The part of `processJob` after the image request settles: re-read the
        file, settle the first record with the id, save and announce it; if no
        record has the id, nothing is saved and nothing is sent. */
    method ResolveJob(id: string, outcome: Option<string>)
      modifies this`file, this`sent
      ensures Stored() == MarkOutcome(old(Stored()), id, outcome)
      ensures Find(old(Stored()), id).None? ==> file == old(file) && sent == old(sent)
      ensures Find(old(Stored()), id).Some? ==>
                file == Saved(Stored()) &&
                sent == old(sent) + Deliveries(clients, Event(OutcomeKind(outcome), Settle(Find(old(Stored()), id).value, outcome)))
    {
      var jobs := Stored();
      var found := FindIndex(jobs, id);
      if found.Some? {
        var i := found.value;
        var updatedJob := jobs[i];
        var kind;
        match outcome {
          case Some(imageUrl) =>
            updatedJob := updatedJob.(status := Resolved, result := Some(imageUrl));
            kind := JobResolved;
          case None =>
            updatedJob := updatedJob.(status := Failed);
            kind := JobFailed;
        }
        jobs := jobs[i := updatedJob];
        file := Saved(jobs);
        Broadcast(Event(kind, updatedJob));
      }
    }

    /** The event loop runs task `k`: a timer re-evaluates its job with the
        current clock; an in-flight request completes with the responses
        `respond` gives (retries included) and the job is settled. */
    method RunTask(k: nat, now: int, respond: nat -> HttpResponse)
      requires k < |tasks|
      modifies this`file, this`sent, this`tasks
      ensures old(tasks[k]).Timer? ==>
                tasks == old(tasks[..k] + tasks[k + 1..]) + [Arm(old(tasks[k]).job, now)] &&
                file == old(file) && sent == old(sent)
      ensures old(tasks[k]).Resolve? ==>
                tasks == old(tasks[..k] + tasks[k + 1..]) &&
                Stored() == MarkOutcome(old(Stored()), old(tasks[k]).job.id, ImageResult(respond))
      ensures old(tasks[k]).Resolve? && Find(old(Stored()), old(tasks[k]).job.id).None? ==>
                file == old(file) && sent == old(sent)
      ensures old(tasks[k]).Resolve? && Find(old(Stored()), old(tasks[k]).job.id).Some? ==>
                file == Saved(Stored()) &&
                sent == old(sent) + Deliveries(clients, Event(OutcomeKind(ImageResult(respond)),
                  Settle(Find(old(Stored()), old(tasks[k]).job.id).value, ImageResult(respond))))
    {
      var task := tasks[k];
      tasks := tasks[..k] + tasks[k + 1..];
      match task {
        case Timer(job, _) =>
          ProcessJob(job, now);
        case Resolve(job) =>
          ResolveJob(job.id, ImageResult(respond));
      }
    }

    /** GET /jobs/:id: the first record with the id, or not-found. */
    method GetJob(id: string) returns (r: Option<Job>)
      ensures r == Find(Stored(), id)
    {
      var jobs := Stored();
      var found := FindIndex(jobs, id);
      r := if found.Some? then Some(jobs[found.value]) else None;
    }

    /** GET /jobs: the whole list as read from the file. */
    method ListJobs() returns (jobs: seq<Job>)
      ensures jobs == Stored()
    {
      jobs := ReadJobList(file);
    }
  }
}
