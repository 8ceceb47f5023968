/**
  The notification layer of the server: connected sockets, the events the
  server publishes and which sockets a broadcast reaches. A socket is its
  identity plus whether its ready state is OPEN.
 */
module Hub {
  import opened Common
  import opened JobStore

  datatype Socket = Socket(id: nat, open: bool)

  datatype EventKind = NewJobCreated | JobResolved | JobFailed

  /** A published message: its type and a snapshot of the job. */
  datatype Event = Event(kind: EventKind, job: Job)

  /** The event a resolution publishes: resolved on a fetched image, failed otherwise. */
  function OutcomeKind<U>(outcome: Option<U>): EventKind {
    if outcome.Some? then JobResolved else JobFailed
  }

  /** One message handed to one socket. */
  datatype Delivery = Delivery(to: nat, event: Event)

  /** The deliveries of one broadcast over `clients`, in list order: one per
      socket that is open, none for the others. */
  function Deliveries(clients: seq<Socket>, e: Event): (ds: seq<Delivery>)
    ensures |ds| <= |clients|
    ensures forall d :: d in ds ==> d.event == e
    ensures forall d :: d in ds <==> d.event == e && Socket(d.to, true) in clients
  {
    if |clients| == 0 then []
    else
      var last := clients[|clients| - 1];
      assert clients == clients[..|clients| - 1] + [last];
      Deliveries(clients[..|clients| - 1], e) + (if last.open then [Delivery(last.id, e)] else [])
  }

  /** Broadcasting to two lists one after the other is broadcasting to their
      concatenation: deliveries follow list order. */
  lemma {:induction false} DeliveriesAppend(a: seq<Socket>, b: seq<Socket>, e: Event)
    ensures Deliveries(a + b, e) == Deliveries(a, e) + Deliveries(b, e)
  {
    if |b| == 0 {
      assert a + b == a;
    } else {
      var last := b[|b| - 1];
      assert (a + b)[..|a + b| - 1] == a + b[..|b| - 1];
      DeliveriesAppend(a, b[..|b| - 1], e);
    }
  }

  /** A list with no open socket receives nothing. */
  lemma {:induction false} NoOpenNoDelivery(clients: seq<Socket>, e: Event)
    requires forall i :: 0 <= i < |clients| ==> !clients[i].open
    ensures Deliveries(clients, e) == []
  {
    if |clients| > 0 {
      NoOpenNoDelivery(clients[..|clients| - 1], e);
    }
  }

  /** The registry after socket `id` closes: every copy removed, the others
      kept in order. */
  function RemoveClient(clients: seq<Socket>, id: nat): (r: seq<Socket>)
    ensures |r| <= |clients|
    ensures forall c :: c in r <==> c in clients && c.id != id
  {
    if |clients| == 0 then []
    else (if clients[0].id != id then [clients[0]] else []) + RemoveClient(clients[1..], id)
  }

  /** Removal distributes over concatenation, so the survivors keep their order. */
  lemma {:induction false} RemoveClientAppend(a: seq<Socket>, b: seq<Socket>, id: nat)
    ensures RemoveClient(a + b, id) == RemoveClient(a, id) + RemoveClient(b, id)
  {
    if |a| == 0 {
      assert a + b == b;
    } else {
      assert (a + b)[0] == a[0];
      assert (a + b)[1..] == a[1..] + b;
      RemoveClientAppend(a[1..], b, id);
    }
  }

  /** Closing a socket that is not registered changes nothing. */
  lemma {:induction false} RemoveAbsentClient(clients: seq<Socket>, id: nat)
    requires forall i :: 0 <= i < |clients| ==> clients[i].id != id
    ensures RemoveClient(clients, id) == clients
  {
    if |clients| > 0 {
      RemoveAbsentClient(clients[1..], id);
    }
  }

  /** A second close of the same socket changes nothing more. */
  lemma RemoveClientIdempotent(clients: seq<Socket>, id: nat)
    ensures RemoveClient(RemoveClient(clients, id), id) == RemoveClient(clients, id)
  {
    var r := RemoveClient(clients, id);
    forall i | 0 <= i < |r| ensures r[i].id != id {
      assert r[i] in r;
    }
    RemoveAbsentClient(r, id);
  }
}
