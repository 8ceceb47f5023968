/**
  The scheduling decision of `processJob`: compare the remaining time with
  zero and either resolve now or defer by exactly the remaining time. Time is
  in integer milliseconds; the decision is recomputed from the record's own
  fields and the current clock each time it is made.
 */
module Scheduler {
  import opened Common
  import opened JobStore

  /** `job.startTime || now`: a missing or zero start time counts as now. */
  function StartOrNow(job: Job, now: int): int {
    match job.startTime
    case Some(t) => if t != 0 then t else now
    case None => now
  }

  /** `job.executionTime || 0`, in seconds. */
  function ExecSeconds(job: Job): int {
    job.executionTime.GetOr(0)
  }

  /** The instant at which the job becomes due, for a record with a start time. */
  function DueTime(job: Job): int
    requires job.startTime.Some? && job.startTime.value != 0
  {
    job.startTime.value + ExecSeconds(job) * 1000
  }

  /** Remaining time in milliseconds: execution time minus elapsed time. */
  function RemainingMs(job: Job, now: int): int {
    ExecSeconds(job) * 1000 - (now - StartOrNow(job, now))
  }

  /** What a call of `processJob` leaves behind: an image fetch in flight
      (resolution now) or a timer armed for `delayMs` that re-evaluates `job`. */
  datatype Task = Resolve(job: Job) | Timer(job: Job, delayMs: int)

  /** The scheduling decision. */
  function Arm(job: Job, now: int): (t: Task)
    ensures t.job == job
    ensures t.Resolve? <==> ExecSeconds(job) * 1000 <= now - StartOrNow(job, now)
    ensures t.Timer? ==> 0 < t.delayMs && StartOrNow(job, now) + ExecSeconds(job) * 1000 == now + t.delayMs
  {
    var remaining := RemainingMs(job, now);
    if remaining <= 0 then Resolve(job) else Timer(job, remaining)
  }

  /** For a record with a start time the decision depends only on the due
      time: resolve once it has passed, otherwise wait until it. */
  lemma ArmByDueTime(job: Job, now: int)
    requires job.startTime.Some? && job.startTime.value != 0
    ensures Arm(job, now) == if now >= DueTime(job) then Resolve(job) else Timer(job, DueTime(job) - now)
  {
  }

  /** Restart safety: re-arming a record whose execution time has already
      elapsed resolves it immediately, however long ago it was created. */
  lemma RestartResolvesOverdue(job: Job, now: int)
    requires job.startTime.Some? && job.startTime.value != 0
    requires now - job.startTime.value >= ExecSeconds(job) * 1000
    ensures Arm(job, now) == Resolve(job)
  {
  }

  /** Re-evaluation after a deferral: a timer that fires on or after its
      delay resolves; one that fires early is re-armed for the rest. */
  lemma ReevaluateAfterTimer(job: Job, now: int, later: int)
    requires job.startTime.Some? && job.startTime.value != 0
    requires Arm(job, now).Timer?
    ensures later >= now + Arm(job, now).delayMs ==> Arm(job, later) == Resolve(job)
    ensures later < now + Arm(job, now).delayMs ==>
              Arm(job, later) == Timer(job, now + Arm(job, now).delayMs - later)
  {
  }

  /** A record without a start time (or with start time 0) is measured from
      the current clock each time: it is due only if its execution time is
      not positive, and otherwise is deferred by the whole execution time on
      every re-evaluation. */
  lemma MissingStartCountsAsNow(job: Job, now: int)
    requires job.startTime.None? || job.startTime == Some(0)
    ensures Arm(job, now) == if ExecSeconds(job) <= 0 then Resolve(job) else Timer(job, ExecSeconds(job) * 1000)
  {
  }

  /** A missing execution time counts as 0: such a record is due as soon as
      its start time is not in the future. */
  lemma MissingExecutionTimeCountsAsZero(job: Job, now: int)
    requires job.executionTime.None?
    ensures Arm(job, now).Resolve? <==> StartOrNow(job, now) <= now
  {
  }

  /** A newly created job is always deferred, by exactly its execution time. */
  lemma NewJobIsDeferred(id: string, slot: int, now: int)
    requires 0 <= slot < 60
    ensures Arm(NewJob(id, slot, now), now) == Timer(NewJob(id, slot, now), ExecutionTime(slot) * 1000)
  {
  }

  /** The decisions for a list of records, in order. */
  function ArmAll(jobs: seq<Job>, now: int): (ts: seq<Task>)
    ensures |ts| == |jobs|
    ensures forall i :: 0 <= i < |jobs| ==> ts[i] == Arm(jobs[i], now)
  {
    if |jobs| == 0 then [] else [Arm(jobs[0], now)] + ArmAll(jobs[1..], now)
  }
}
