/** The progress subscribers of server.js: the `clients` Map filled by the
    event-stream endpoint, emptied by each connection's `cleanup`, and
    written to by `sendProgressUpdate`. */
module Broadcast {

  /** The random identifier the endpoint gives a connection. */
  type ClientId = string

  /** What the registry holds per connection: when it was registered, and
      every message written to its response so far. */
  datatype Client = Client(connectedAt: int, received: seq<string>)

  /** The two writes a new connection gets before it is registered. */
  const RetryLine: string := "retry: 15000\n"
  const ConnectedLine: string := "data: {\"type\": \"connected\"}\n\n"

  /** The event-stream framing of one JSON payload. */
  function Frame(payload: string): string
  {
    "data: " + payload + "\n\n"
  }

  predicate Distinct<T(==)>(ids: seq<T>)
  {
    forall i, j :: 0 <= i < j < |ids| ==> ids[i] != ids[j]
  }

  /** `ids` without the members of `gone`, in the same order. */
  function Drop<T(==)>(ids: seq<T>, gone: set<T>): seq<T>
  {
    if ids == [] then []
    else Drop(ids[..|ids| - 1], gone) + (if ids[|ids| - 1] in gone then [] else [ids[|ids| - 1]])
  }

  /** An identifier survives `Drop` exactly when it was there and is not gone. */
  lemma {:induction false} DropMembers<T>(ids: seq<T>, gone: set<T>)
    ensures forall id :: id in Drop(ids, gone) <==> id in ids && id !in gone
  {
    if ids != [] {
      var init := ids[..|ids| - 1];
      DropMembers(init, gone);
      assert ids == init + [ids[|ids| - 1]];
    }
  }

  /** `Drop` keeps identifiers distinct. */
  lemma {:induction false} DropDistinct<T>(ids: seq<T>, gone: set<T>)
    requires Distinct(ids)
    ensures Distinct(Drop(ids, gone))
  {
    if ids != [] {
      var init := ids[..|ids| - 1];
      assert Distinct(init);
      DropDistinct(init, gone);
      DropMembers(init, gone);
    }
  }

  lemma {:induction false} DropAppend<T>(a: seq<T>, b: seq<T>, gone: set<T>)
    ensures Drop(a + b, gone) == Drop(a, gone) + Drop(b, gone)
    decreases |b|
  {
    if b == [] {
      assert a + b == a;
    } else {
      var c := a + b;
      assert c[..|c| - 1] == a + b[..|b| - 1];
      assert c[|c| - 1] == b[|b| - 1];
      DropAppend(a, b[..|b| - 1], gone);
    }
  }

  /** Dropping identifiers that are absent changes nothing. */
  lemma {:induction false} DropAbsent<T>(ids: seq<T>, gone: set<T>)
    requires forall i :: 0 <= i < |ids| ==> ids[i] !in gone
    ensures Drop(ids, gone) == ids
  {
    if ids != [] {
      DropAbsent(ids[..|ids| - 1], gone);
    }
  }

  /** One step of the `forEach` over a snapshot, at a client whose write throws. */
  lemma DropFailedStep<T>(snapshot: seq<T>, k: nat, failing: set<T>)
    requires Distinct(snapshot) && k < |snapshot| && snapshot[k] in failing
    ensures Drop(Drop(snapshot[..k], failing) + snapshot[k..], {snapshot[k]})
            == Drop(snapshot[..k + 1], failing) + snapshot[k + 1..]
    ensures Drop(snapshot[..k + 1], failing) == Drop(snapshot[..k], failing)
  {
    var id, a, r := snapshot[k], snapshot[..k], snapshot[k + 1..];
    var d := Drop(a, failing);
    assert snapshot[..k + 1] == a + [id];
    assert snapshot[k..] == [id] + r;
    assert Drop([id], failing) == [];
    DropAppend(a, [id], failing);
    assert d + [] == d;
    DropMembers(a, failing);
    assert id !in a by {
      assert forall i :: 0 <= i < |a| ==> a[i] == snapshot[i];
    }
    assert forall i :: 0 <= i < |r| ==> r[i] == snapshot[k + 1 + i];
    DropOnly(d, id, r);
  }

  /** Dropping the one identifier that occurs once, between `d` and `r`. */
  lemma DropOnly<T>(d: seq<T>, id: T, r: seq<T>)
    requires id !in d && forall i :: 0 <= i < |r| ==> r[i] != id
    ensures Drop(d + ([id] + r), {id}) == d + r
  {
    assert forall i :: 0 <= i < |d| ==> d[i] in d;
    DropAbsent(d, {id});
    DropAbsent(r, {id});
    DropAppend(d, [id] + r, {id});
    DropAppend([id], r, {id});
    assert Drop([id], {id}) == [];
    assert [] + r == r;
  }

  /** One step of the `forEach` over a snapshot, at a client whose write succeeds. */
  lemma DropKeptStep<T>(snapshot: seq<T>, k: nat, failing: set<T>)
    requires k < |snapshot| && snapshot[k] !in failing
    ensures Drop(snapshot[..k + 1], failing) == Drop(snapshot[..k], failing) + [snapshot[k]]
    ensures Drop(snapshot[..k], failing) + snapshot[k..] == Drop(snapshot[..k + 1], failing) + snapshot[k + 1..]
  {
    var id := snapshot[k];
    assert snapshot[..k + 1] == snapshot[..k] + [id];
    DropAppend(snapshot[..k], [id], failing);
    assert snapshot[k..] == [id] + snapshot[k + 1..];
  }

  /** A client after one more write. */
  function Deliver(c: Client, message: string): Client
  {
    c.(received := c.received + [message])
  }

  /** The registry keeps one entry per identifier in `order`. */
  ghost predicate Consistent(order: seq<ClientId>, clients: map<ClientId, Client>)
  {
    Distinct(order) && (forall id :: id in clients <==> id in order)
  }

  /** Where `sendProgressUpdate` stands after visiting `snapshot[..k]`: the
      failing clients seen so far are removed, every other one seen so far
      got `message`, and the rest is as it was in `before`. */
  ghost predicate Visited(snapshot: seq<ClientId>, k: nat, failing: set<ClientId>, message: string,
                          before: map<ClientId, Client>, order: seq<ClientId>,
                          clients: map<ClientId, Client>, delivered: seq<ClientId>)
  {
    && k <= |snapshot|
    && Distinct(snapshot)
    && Consistent(order, clients)
    && order == Drop(snapshot[..k], failing) + snapshot[k..]
    && delivered == Drop(snapshot[..k], failing)
    && (forall id :: id in clients ==> id in before)
    && (forall id :: id in clients ==>
          clients[id] == if id in delivered then Deliver(before[id], message) else before[id])
  }

  lemma VisitStart(snapshot: seq<ClientId>, failing: set<ClientId>, message: string,
                   clients: map<ClientId, Client>)
    requires Consistent(snapshot, clients)
    ensures Visited(snapshot, 0, failing, message, clients, snapshot, clients, [])
  {
    assert snapshot[..0] == [];
    assert snapshot[0..] == snapshot;
  }

  /** Visiting a client whose write throws: it is cleaned up. */
  lemma VisitFailed(snapshot: seq<ClientId>, k: nat, failing: set<ClientId>, message: string,
                    before: map<ClientId, Client>, order: seq<ClientId>,
                    clients: map<ClientId, Client>, delivered: seq<ClientId>)
    requires Visited(snapshot, k, failing, message, before, order, clients, delivered)
    requires k < |snapshot| && snapshot[k] in failing
    ensures snapshot[k] in clients
    ensures Visited(snapshot, k + 1, failing, message, before,
                    Drop(order, {snapshot[k]}), clients - {snapshot[k]}, delivered)
  {
    var id := snapshot[k];
    assert snapshot[k..] == [id] + snapshot[k + 1..];
    DropFailedStep(snapshot, k, failing);
    DropMembers(order, {id});
    DropDistinct(order, {id});
  }

  /** Visiting a client whose write succeeds: it receives the message. */
  lemma VisitKept(snapshot: seq<ClientId>, k: nat, failing: set<ClientId>, message: string,
                  before: map<ClientId, Client>, order: seq<ClientId>,
                  clients: map<ClientId, Client>, delivered: seq<ClientId>)
    requires Visited(snapshot, k, failing, message, before, order, clients, delivered)
    requires k < |snapshot| && snapshot[k] !in failing
    ensures snapshot[k] in clients
    ensures Visited(snapshot, k + 1, failing, message, before, order,
                    clients[snapshot[k] := Deliver(clients[snapshot[k]], message)],
                    delivered + [snapshot[k]])
  {
    var id := snapshot[k];
    assert snapshot[k..] == [id] + snapshot[k + 1..];
    assert order[|delivered|] == id;
    DropMembers(snapshot[..k], failing);
    assert id !in delivered by {
      assert forall i :: 0 <= i < k ==> snapshot[..k][i] == snapshot[i];
    }
    DropKeptStep(snapshot, k, failing);
    var clients' := clients[id := Deliver(clients[id], message)];
    var delivered' := delivered + [id];
    assert clients'.Keys == clients.Keys;
    assert Consistent(order, clients');
    forall other | other in clients'
      ensures clients'[other] == if other in delivered' then Deliver(before[other], message) else before[other]
    {
      if other != id {
        assert other in delivered' <==> other in delivered;
      }
    }
  }


  /** After the whole snapshot: exactly the non-failing clients remain, each
      with the message added. */
  lemma VisitEnd(snapshot: seq<ClientId>, failing: set<ClientId>, message: string,
                 before: map<ClientId, Client>, order: seq<ClientId>,
                 clients: map<ClientId, Client>, delivered: seq<ClientId>)
    requires Consistent(snapshot, before)
    requires Visited(snapshot, |snapshot|, failing, message, before, order, clients, delivered)
    ensures Consistent(order, clients)
    ensures delivered == order == Drop(snapshot, failing)
    ensures forall id :: id in clients <==> id in before && id !in failing
    ensures forall id :: id in clients ==> clients[id] == Deliver(before[id], message)
  {
    assert snapshot[..|snapshot|] == snapshot;
    assert snapshot[|snapshot|..] == [];
    assert order == Drop(snapshot, failing) + [];
    DropMembers(snapshot, failing);
  }

  class Registry {
    /** The Map's keys in insertion order, which is the order `forEach` visits. */
    var order: seq<ClientId>
    var clients: map<ClientId, Client>

    ghost predicate Valid()
      reads this
    {
      Consistent(order, clients)
    }

    constructor ()
      ensures Valid() && order == [] && clients == map[]
    {
      order := [];
      clients := map[];
    }

    /** A new event-stream connection (server.js:43-93): it is sent the retry
        line and the connected message, then registered under its id. A
        `set` on an id already present replaces its entry in place. */
    method Subscribe(id: ClientId, now: int)
      requires Valid()
      modifies this
      ensures Valid()
      ensures clients == old(clients)[id := Client(now, [RetryLine, ConnectedLine])]
      ensures order == if id in old(order) then old(order) else old(order) + [id]
    {
      if id !in order {
        order := order + [id];
      }
      clients := clients[id := Client(now, [RetryLine, ConnectedLine])];
    }

    /** `cleanup` (server.js:77-80): deletes this one id and nothing else. */
    method Cleanup(id: ClientId)
      requires Valid()
      modifies this
      ensures Valid()
      ensures clients == old(clients) - {id}
      ensures order == Drop(old(order), {id})
    {
      DropMembers(order, {id});
      DropDistinct(order, {id});
      order := Drop(order, {id});
      clients := clients - {id};
    }

    /** The `forEach` callback of `sendProgressUpdate` for the k-th
        connection of the snapshot: a write that throws cleans the
        connection up, any other write delivers the message. */
    method Visit(snapshot: seq<ClientId>, k: nat, failing: set<ClientId>, message: string,
                 ghost before: map<ClientId, Client>, delivered: seq<ClientId>) returns (sent: bool)
      requires Visited(snapshot, k, failing, message, before, order, clients, delivered)
      requires k < |snapshot|
      modifies this
      ensures sent <==> snapshot[k] !in failing
      ensures Visited(snapshot, k + 1, failing, message, before, order, clients,
                      if sent then delivered + [snapshot[k]] else delivered)
    {
      var id := snapshot[k];
      if id in failing {
        VisitFailed(snapshot, k, failing, message, before, order, clients, delivered);
        Cleanup(id);
        sent := false;
      } else {
        VisitKept(snapshot, k, failing, message, before, order, clients, delivered);
        clients := clients[id := Deliver(clients[id], message)];
        sent := true;
      }
    }

    /** `sendProgressUpdate` (server.js:96-108) with the message framed from
        `payload`. `failing` is the set of connections whose `write` throws;
        each of those is cleaned up, every other registered connection
        receives the message, in registration order. */
    method Publish(payload: string, failing: set<ClientId>) returns (delivered: seq<ClientId>)
      requires Valid()
      modifies this
      ensures Valid()
      ensures delivered == Drop(old(order), failing)
      ensures order == Drop(old(order), failing)
      ensures forall id :: id in clients <==> id in old(clients) && id !in failing
      ensures forall id :: id in clients ==> clients[id] == Deliver(old(clients)[id], Frame(payload))
    {
      var message := Frame(payload);
      var snapshot := order;
      delivered := [];
      var k := 0;
      VisitStart(snapshot, failing, message, clients);
      while k < |snapshot|
        invariant Visited(snapshot, k, failing, message, old(clients), order, clients, delivered)
      {
        var sent := Visit(snapshot, k, failing, message, old(clients), delivered);
        if sent {
          delivered := delivered + [snapshot[k]];
        }
        k := k + 1;
      }
      VisitEnd(snapshot, failing, message, old(clients), order, clients, delivered);
    }
  }
}
