/** The hub and the broker as objects, each method run by one goroutine without interference.
    The interleaved behaviour is the transition system of module Fabric; both use the same
    connection record and the same non-blocking send. */
module HubObjects {
  import opened Basics
  import opened Connections

  type UserId = int

  datatype Event = Event(id: nat, body: Body)

  datatype Body = Online(user: UserId) | Offline(user: UserId) | Payload

  /** `BrokerEvent`: what is published for the other replicas. */
  datatype Envelope = Envelope(origin: string, broadcast: bool, userIds: seq<UserId>, event: Event)

  // ---------------------------------------------------------------- the map

  /** The map of clients after a connection of user u has come or gone. */
  function Joined<C(==)>(clients: map<UserId, set<C>>, u: UserId, c: C): map<UserId, set<C>> {
    clients[u := (if u in clients then clients[u] else {}) + {c}]
  }

  function Departed<C(==)>(clients: map<UserId, set<C>>, u: UserId, c: C): map<UserId, set<C>> {
    if u !in clients then clients
    else if clients[u] - {c} == {} then clients - {u}
    else clients[u := clients[u] - {c}]
  }

  /** A user is in the map exactly while it has a connection there, and only its own come and go. */
  lemma MapFollows<C>(clients: map<UserId, set<C>>, u: UserId, c: C, v: UserId)
    requires forall x :: x in clients ==> clients[x] != {}
    ensures var joined, departed := Joined(clients, u, c), Departed(clients, u, c);
      && (v in joined <==> v in clients || v == u)
      && (v in departed <==> v in clients && !(v == u && clients[u] <= {c}))
      && (forall d :: v in joined && d in joined[v] <==> (v in clients && d in clients[v]) || (v == u && d == c))
      && (forall d :: v in departed && d in departed[v] <==> v in clients && d in clients[v] && !(v == u && d == c))
  {
  }

  // ---------------------------------------------------------------- one delivery

  /** A non-blocking send that cancels the connection when its queue is full. */
  function Deliver(c: Conn, e: nat): Conn {
    if c.Full() then c.Offer(e).Cancel() else c.Offer(e)
  }

  function DeliverTimes(c: Conn, e: nat, n: nat): Conn {
    if n == 0 then c else Deliver(DeliverTimes(c, e, n - 1), e)
  }

  function Count(ids: seq<UserId>, u: UserId): nat {
    if ids == [] then 0
    else Count(ids[..|ids| - 1], u) + if ids[|ids| - 1] == u then 1 else 0
  }

  lemma CountSnoc(ids: seq<UserId>, i: nat, u: UserId)
    requires i < |ids|
    ensures Count(ids[..i + 1], u) == Count(ids[..i], u) + if ids[i] == u then 1 else 0
  {
    assert ids[..i + 1][..i] == ids[..i];
  }

  class Client {
    const user: UserId
    var conn: Conn

    constructor (user: UserId)
      ensures this.user == user && conn == FRESH
    {
      this.user := user;
      conn := FRESH;
    }

    /** Everything but the context is kept, and a second call changes nothing. */
    method Disconnect()
      modifies this
      ensures conn.cancelled && conn == old(conn).(cancelled := true, cutoff := conn.cutoff)
      ensures old(conn).cancelled ==> conn == old(conn)
      ensures !old(conn).cancelled ==> conn.cutoff == |conn.accepted|
    {
      conn := conn.Cancel();
    }

    /** The select statement of the delivery loops: send without blocking, or disconnect. */
    method Push(e: nat)
      modifies this
      ensures conn == Deliver(old(conn), e) && conn.open == old(conn).open
    {
      var full := conn.Full();
      conn := conn.Offer(e);
      if full {
        Disconnect();
      }
    }

    /** `sawDone` is the choice of the select statement when the context is cancelled while the
        queue also has room. */
    method TrySend(tag: nat, sawDone: bool) returns (ok: bool)
      requires conn.open
      modifies this
      ensures ok <==> !(conn.cancelled && sawDone) && !old(conn).Full()
      ensures conn == if ok then old(conn).TrySend(tag) else old(conn)
      ensures ok ==> conn.queue == old(conn).queue + [Reply(tag)]
      ensures conn.offered == old(conn).offered && conn.accepted == old(conn).accepted
    {
      if conn.cancelled && sawDone {
        return false;
      }
      ok := !conn.Full();
      conn := conn.TrySend(tag);
    }
  }

  // ---------------------------------------------------------------- the hub

  class Hub {
    const origin: string
    var clients: map<UserId, set<Client>>
    /** What this hub has handed to its broker. */
    var published: seq<Envelope>
    /** The users `OnDisconnect` was called for. */
    var lastSeen: seq<UserId>

    constructor (origin: string)
      ensures this.origin == origin && Valid() && clients == map[] && published == [] && lastSeen == []
    {
      this.origin := origin;
      clients, published, lastSeen := map[], [], [];
    }

    function All(): set<Client>
      reads this
    {
      set u, c | u in clients && c in clients[u] :: c
    }

    ghost predicate Valid()
      reads this, All()
    {
      forall u :: u in clients ==>
        clients[u] != {} && forall c :: c in clients[u] ==> c.user == u && c.conn.open
    }

    function ConnsOf(u: UserId): set<Client>
      reads this
    {
      if u in clients then clients[u] else {}
    }

    /** Every connection of each listed user is sent the event, once for each time its user is
        listed. */
    method SendLocal(userIds: seq<UserId>, e: nat)
      requires Valid()
      modifies All()
      ensures Valid()
      ensures forall c :: c in All() ==> c.conn == DeliverTimes(old(c.conn), e, Count(userIds, c.user))
    {
      for i := 0 to |userIds|
        invariant Valid()
        invariant forall c :: c in All() ==> c.conn == DeliverTimes(old(c.conn), e, Count(userIds[..i], c.user))
      {
        forall u { CountSnoc(userIds, i, u); }
        SendTo(userIds[i], e);
      }
      assert userIds[..|userIds|] == userIds;
    }

    method SendTo(u: UserId, e: nat)
      requires Valid()
      modifies All()
      ensures Valid()
      ensures forall c :: c in All() ==> c.conn == if c.user == u then Deliver(old(c.conn), e) else old(c.conn)
    {
      if u in clients {
        OfferEach(clients[u], e);
      }
    }

    method BroadcastAllLocal(e: nat)
      requires Valid()
      modifies All()
      ensures Valid()
      ensures forall c :: c in All() ==> c.conn == Deliver(old(c.conn), e)
    {
      var todo: set<UserId> := clients.Keys;
      while exists u :: u in todo
        invariant todo <= clients.Keys && Valid()
        invariant forall c :: c in All() ==>
          c.conn == if c.user in todo then old(c.conn) else Deliver(old(c.conn), e)
        decreases |todo|
      {
        var u :| u in todo;
        OfferEach(clients[u], e);
        todo := todo - {u};
      }
    }

    /** The inner loop of both delivery methods, over the connections of one user. */
    method OfferEach(conns: set<Client>, e: nat)
      requires Valid() && conns <= All()
      modifies conns
      ensures Valid()
      ensures forall c :: c in conns ==> c.conn == Deliver(old(c.conn), e)
    {
      var left := conns;
      while left != {}
        invariant left <= conns && Valid()
        invariant forall c :: c in conns ==> c.conn == if c in left then old(c.conn) else Deliver(old(c.conn), e)
        decreases |left|
      {
        var client :| client in left;
        client.Push(e);
        left := left - {client};
      }
    }

    /** `Send`: deliver here, then hand the event to the other replicas. */
    method Send(userIds: seq<UserId>, evt: Event)
      requires Valid()
      modifies this`published, All()
      ensures Valid() && clients == old(clients)
      ensures forall c :: c in All() ==> c.conn == DeliverTimes(old(c.conn), evt.id, Count(userIds, c.user))
      ensures published == old(published) + [Envelope(origin, false, userIds, evt)]
    {
      SendLocal(userIds, evt.id);
      published := published + [Envelope(origin, false, userIds, evt)];
    }

    method BroadcastAll(evt: Event)
      requires Valid()
      modifies this`published, All()
      ensures Valid() && clients == old(clients)
      ensures forall c :: c in All() ==> c.conn == Deliver(old(c.conn), evt.id)
      ensures published == old(published) + [Envelope(origin, true, [], evt)]
    {
      BroadcastAllLocal(evt.id);
      published := published + [Envelope(origin, true, [], evt)];
    }

    /** The `Register` case of `Run`. The newcomer hears its own announcement. */
    method Register(client: Client, id: nat)
      requires Valid() && client.conn.open
      modifies this`clients, this`published, All(), client
      ensures Valid()
      ensures clients == Joined(old(clients), client.user, client)
      ensures client.user in old(clients) ==>
                published == old(published) && forall c :: c in All() ==> c.conn == old(c.conn)
      ensures client.user !in old(clients) ==>
                && published == old(published) + [Envelope(origin, true, [], Event(id, Online(client.user)))]
                && forall c :: c in All() ==> c.conn == Deliver(old(c.conn), id)
    {
      var before := ConnsOf(client.user);
      clients := clients[client.user := before + {client}];
      if before == {} {
        BroadcastAll(Event(id, Online(client.user)));
      }
    }

    /** The `Unregister` case of `Run`. When the user is unknown the channel stays open. */
    method Unregister(client: Client, id: nat)
      requires Valid() && client.conn.open
      modifies this`clients, this`published, this`lastSeen, All(), client
      ensures Valid()
      ensures clients == Departed(old(clients), client.user, client)
      ensures client.user !in old(clients) ==>
                && published == old(published) && lastSeen == old(lastSeen)
                && client.conn == old(client.conn)
      ensures client.user in old(clients) ==> client !in All() && client.conn == old(client.conn).Close()
      ensures client.user in old(clients) && old(clients)[client.user] != {client} ==>
                && published == old(published) && lastSeen == old(lastSeen)
                && forall c :: c in All() ==> c.conn == old(c.conn)
      ensures client.user in old(clients) && old(clients)[client.user] == {client} ==>
                && lastSeen == old(lastSeen) + [client.user]
                && published == old(published) + [Envelope(origin, true, [], Event(id, Offline(client.user)))]
                && forall c :: c in All() ==> c.conn == Deliver(old(c.conn), id)
    {
      if client.user in clients {
        var rest := clients[client.user] - {client};
        clients := clients[client.user := rest];
        client.conn := client.conn.Close();
        if rest == {} {
          clients := clients - {client.user};
          lastSeen := lastSeen + [client.user];
          BroadcastAll(Event(id, Offline(client.user)));
        }
      }
    }

    /** `IsOnline`: whether the user has a connection here. */
    method IsOnline(u: UserId) returns (online: bool)
      requires Valid()
      ensures online <==> exists c :: c in All() && c.user == u
    {
      online := u in clients && clients[u] != {};
      if online {
        var c :| c in clients[u];
        assert c in All() && c.user == u;
      }
    }

    // -------------------------------------------------------------- the broker

    /** `handleMessage`, on a payload that may not decode. */
    method HandleMessage(payload: Option<Envelope>)
      requires Valid()
      modifies All()
      ensures Valid()
      ensures forall c :: c in All() ==> c.conn == Received(old(c.conn), c.user, origin, payload)
    {
      if payload.Some? && payload.value.origin != origin {
        if payload.value.broadcast {
          BroadcastAllLocal(payload.value.event.id);
        } else {
          SendLocal(payload.value.userIds, payload.value.event.id);
        }
      }
    }

    /** `Broker.Run` over the payloads its subscription brings. */
    method RunBroker(payloads: seq<Option<Envelope>>)
      requires Valid()
      modifies All()
      ensures Valid()
      ensures forall c :: c in All() ==> c.conn == ReceivedAll(old(c.conn), c.user, origin, payloads)
    {
      for i := 0 to |payloads|
        invariant Valid()
        invariant forall c :: c in All() ==> c.conn == ReceivedAll(old(c.conn), c.user, origin, payloads[..i])
      {
        assert payloads[..i + 1][..i] == payloads[..i];
        HandleMessage(payloads[i]);
      }
      assert payloads[..|payloads|] == payloads;
    }
  }

  /** What one payload does to a connection of user u on the replica named `origin`. */
  function Received(c: Conn, u: UserId, origin: string, payload: Option<Envelope>): Conn {
    if payload.None? || payload.value.origin == origin then c
    else if payload.value.broadcast then Deliver(c, payload.value.event.id)
    else DeliverTimes(c, payload.value.event.id, Count(payload.value.userIds, u))
  }

  function ReceivedAll(c: Conn, u: UserId, origin: string, payloads: seq<Option<Envelope>>): Conn {
    if payloads == [] then c
    else
      var n := |payloads| - 1;
      Received(ReceivedAll(c, u, origin, payloads[..n]), u, origin, payloads[n])
  }

  /** The ids of the events in the payloads that come from elsewhere and address user u. */
  function Addressed(u: UserId, origin: string, payloads: seq<Option<Envelope>>): seq<nat> {
    if payloads == [] then []
    else
      var n := |payloads| - 1;
      Addressed(u, origin, payloads[..n])
      + match payloads[n]
        case None => []
        case Some(x) =>
          if x.origin == origin then []
          else if x.broadcast || u in x.userIds then [x.event.id]
          else []
  }

  lemma {:induction false} CountOfDistinct(ids: seq<UserId>, u: UserId)
    requires Distinct(ids)
    ensures Count(ids, u) == if u in ids then 1 else 0
  {
    if ids != [] {
      var n := |ids| - 1;
      assert ids == ids[..n] + [ids[n]];
      CountOfDistinct(ids[..n], u);
    }
  }

  ghost predicate DistinctUsers(payloads: seq<Option<Envelope>>) {
    forall i :: 0 <= i < |payloads| && payloads[i].Some? ==> Distinct(payloads[i].value.userIds)
  }

  lemma ReceivedOffers(c: Conn, u: UserId, origin: string, payload: Option<Envelope>)
    requires payload.Some? ==> Distinct(payload.value.userIds)
    ensures var ids := Addressed(u, origin, [payload]);
      && |ids| <= 1
      && Received(c, u, origin, payload) == if ids == [] then c else Deliver(c, ids[0])
  {
    assert [payload][..0] == [];
    if payload.Some? {
      CountOfDistinct(payload.value.userIds, u);
      assert DeliverTimes(c, payload.value.event.id, 0) == c;
      assert DeliverTimes(c, payload.value.event.id, 1) == Deliver(c, payload.value.event.id);
    }
  }

  /** A replica offers each of its connections exactly the payloads that come from elsewhere and
      address its user, each once and in the order of the log; it never cancels a connection
      whose queue had room for all of them. */
  lemma {:induction false} BrokerOffersRemoteInOrder(c: Conn, u: UserId, origin: string,
            payloads: seq<Option<Envelope>>)
    requires DistinctUsers(payloads)
    ensures var d := ReceivedAll(c, u, origin, payloads);
      && d.offered == c.offered + Addressed(u, origin, payloads)
      && (|c.queue| + |Addressed(u, origin, payloads)| <= CAPACITY ==>
            && d.accepted == c.accepted + Addressed(u, origin, payloads)
            && d.cancelled == c.cancelled
            && |d.queue| == |c.queue| + |Addressed(u, origin, payloads)|)
  {
    if payloads != [] {
      var n := |payloads| - 1;
      BrokerOffersRemoteInOrder(c, u, origin, payloads[..n]);
      ReceivedOffers(ReceivedAll(c, u, origin, payloads[..n]), u, origin, payloads[n]);
      assert Addressed(u, origin, payloads) ==
          Addressed(u, origin, payloads[..n]) + Addressed(u, origin, [payloads[n]]) by {
        assert [payloads[n]][..0] == [];
      }
    }
  }

  /** A delivery keeps the connection's invariant, and a refused event cancels it at once. */
  lemma DeliverKeeps(c: Conn, e: nat)
    requires Inv(c) && (c.Lost() ==> c.cancelled)
    ensures var d := Deliver(c, e);
      && Inv(d) && (d.Lost() ==> d.cancelled)
      && (!c.sneaked ==> !d.sneaked && HubOf(d.wire) <= d.offered)
  {
    OfferKeeps(c, e);
    CancelKeeps(c.Offer(e));
  }
}
