/**
  The client's job list and the update its socket message handler makes to
  it. On the client a job is the parsed JSON object, a map from field names
  to values, so that `{ ...job, ...message.job }` is map union with the
  message's fields winning. The second half relates the server's records
  and events to what the client receives.
 */
module ClientJobs {
  import opened Common
  import opened JobStore
  import opened Hub

  datatype Value = Null | Str(s: string) | Num(n: int)

  /** A job as the client holds it. */
  type Record = map<string, Value>

  /** A parsed socket message: its `type` and its `job`. */
  datatype Message = Message(kind: string, job: Record)

  /** `job.id`, `None` standing for `undefined`. */
  function IdOf(r: Record): Option<Value> {
    if "id" in r then Some(r["id"]) else None
  }

  /** `job.id === message.job.id` (two records without an id match). */
  predicate SameId(a: Record, b: Record) {
    IdOf(a) == IdOf(b)
  }

  /** `{ ...base, ...patch }` */
  function Overlay(base: Record, patch: Record): (r: Record)
    ensures r.Keys == base.Keys + patch.Keys
    ensures forall k :: k in patch ==> r[k] == patch[k]
    ensures forall k :: k in base && k !in patch ==> r[k] == base[k]
  {
    base + patch
  }

  /** A patch that carries every field of the base replaces it entirely. */
  lemma OverlayCovering(base: Record, patch: Record)
    requires base.Keys <= patch.Keys
    ensures Overlay(base, patch) == patch
  {
  }

  predicate IsTerminal(kind: string) {
    kind == "jobResolved" || kind == "jobFailed"
  }

  /** The list after one message: a terminal event overlays the message's
      job on every record with its id, a creation event appends it, any other
      message leaves the list as it was. */
  function OnMessage(prev: seq<Record>, msg: Message): (next: seq<Record>)
    ensures IsTerminal(msg.kind) ==> |next| == |prev|
    ensures IsTerminal(msg.kind) ==>
              forall i :: 0 <= i < |prev| && !SameId(prev[i], msg.job) ==> next[i] == prev[i]
    ensures IsTerminal(msg.kind) ==>
              forall i :: 0 <= i < |prev| && SameId(prev[i], msg.job) ==> next[i] == Overlay(prev[i], msg.job)
    ensures msg.kind == "newJobCreated" ==> next == prev + [msg.job]
    ensures !IsTerminal(msg.kind) && msg.kind != "newJobCreated" ==> next == prev
  {
    if IsTerminal(msg.kind) then
      seq(|prev|, i requires 0 <= i < |prev| =>
        if SameId(prev[i], msg.job) then Overlay(prev[i], msg.job) else prev[i])
    else if msg.kind == "newJobCreated" then
      prev + [msg.job]
    else
      prev
  }

  /** On a terminal event, a matching record afterwards carries every field
      of the message with the message's value, and keeps its own value for
      every field the message lacks. */
  lemma TerminalMessageFieldsWin(prev: seq<Record>, msg: Message, i: nat, k: string)
    requires IsTerminal(msg.kind) && i < |prev| && SameId(prev[i], msg.job)
    ensures k in msg.job ==> k in OnMessage(prev, msg)[i] && OnMessage(prev, msg)[i][k] == msg.job[k]
    ensures k !in msg.job && k in prev[i] ==> k in OnMessage(prev, msg)[i] && OnMessage(prev, msg)[i][k] == prev[i][k]
    ensures k !in msg.job && k !in prev[i] ==> k !in OnMessage(prev, msg)[i]
  {
  }

  function StatusText(s: Status): string {
    match s
    case Pending => "pending"
    case Resolved => "resolved"
    case Failed => "failed"
  }

  function KindText(k: EventKind): string {
    match k
    case NewJobCreated => "newJobCreated"
    case JobResolved => "jobResolved"
    case JobFailed => "jobFailed"
  }

  /** The JSON object a server record becomes: `result` is written as `null`
      when absent, a missing `executionTime` or `startTime` is left out. */
  function Snapshot(j: Job): (r: Record)
    ensures IdOf(r) == Some(Str(j.id))
    ensures "status" in r && r["status"] == Str(StatusText(j.status))
    ensures "result" in r && r["result"] == (if j.result.Some? then Str(j.result.value) else Null)
    ensures r.Keys == {"id", "status", "result"}
                      + (if j.executionTime.Some? then {"executionTime"} else {})
                      + (if j.startTime.Some? then {"startTime"} else {})
    ensures j.executionTime.Some? ==> r["executionTime"] == Num(j.executionTime.value)
    ensures j.startTime.Some? ==> r["startTime"] == Num(j.startTime.value)
  {
    map["id" := Str(j.id), "status" := Str(StatusText(j.status)),
        "result" := if j.result.Some? then Str(j.result.value) else Null]
    + (if j.executionTime.Some? then map["executionTime" := Num(j.executionTime.value)] else map[])
    + (if j.startTime.Some? then map["startTime" := Num(j.startTime.value)] else map[])
  }

  function Snapshots(jobs: seq<Job>): (rs: seq<Record>)
    ensures |rs| == |jobs|
    ensures forall i :: 0 <= i < |jobs| ==> rs[i] == Snapshot(jobs[i])
  {
    seq(|jobs|, i requires 0 <= i < |jobs| => Snapshot(jobs[i]))
  }

  /** The message a socket client parses from a published event. */
  function Encode(e: Event): Message {
    Message(KindText(e.kind), Snapshot(e.job))
  }

  /** Settling a record changes neither which fields its JSON object has nor its id. */
  lemma SettleKeepsFields(j: Job, outcome: Option<string>)
    ensures Snapshot(Settle(j, outcome)).Keys == Snapshot(j).Keys
  {
  }

  /** A client holding the server's list stays in step with it on a creation event. */
  lemma ClientMirrorsCreation(jobs: seq<Job>, j: Job)
    ensures OnMessage(Snapshots(jobs), Encode(Event(NewJobCreated, j))) == Snapshots(jobs + [j])
  {
  }

  /** Ids are unique in the list. */
  predicate UniqueIds(jobs: seq<Job>) {
    forall a, b :: 0 <= a < b < |jobs| ==> jobs[a].id != jobs[b].id
  }

  /** A client holding the server's list stays in step with it when the server
      settles a job and publishes the settled record, provided ids are
      unique (the client updates every record with the id, the server only
      the first). */
  lemma ClientMirrorsResolution(jobs: seq<Job>, id: string, outcome: Option<string>)
    requires UniqueIds(jobs) && Find(jobs, id).Some?
    ensures OnMessage(Snapshots(jobs), Encode(Event(OutcomeKind(outcome), Settle(Find(jobs, id).value, outcome))))
            == Snapshots(MarkOutcome(jobs, id, outcome))
  {
    var settled := Settle(Find(jobs, id).value, outcome);
    var msg := Encode(Event(OutcomeKind(outcome), settled));
    var l, r := OnMessage(Snapshots(jobs), msg), Snapshots(MarkOutcome(jobs, id, outcome));
    var k := FindIndex(jobs, id).value;
    assert |l| == |r|;
    forall i | 0 <= i < |l| ensures l[i] == r[i] {
      if jobs[i].id == id {
        assert i == k;
        SettleKeepsFields(jobs[i], outcome);
        OverlayCovering(Snapshot(jobs[i]), msg.job);
      } else {
        assert !SameId(Snapshot(jobs[i]), msg.job);
      }
    }
  }

  /** With two records sharing an id the client and the server part ways: the
      client overlays the settled record on both, the server settles only the
      first, so the client's second record reads resolved while the server's
      is still pending. */
  lemma DuplicateIdsDiverge()
    ensures var j := Job("a", Pending, None, Some(5), Some(1));
            var jobs := [j, j];
            var msg := Encode(Event(OutcomeKind(Some("u")), Settle(Find(jobs, "a").value, Some("u"))));
            OnMessage(Snapshots(jobs), msg)[1]["status"] == Str("resolved") &&
            Snapshots(MarkOutcome(jobs, "a", Some("u")))[1]["status"] == Str("pending") &&
            OnMessage(Snapshots(jobs), msg) != Snapshots(MarkOutcome(jobs, "a", Some("u")))
  {
  }
}
