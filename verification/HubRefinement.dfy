/** One delivery that no other goroutine interrupts: the steps of module Fabric then do to every
    connection what the methods `SendLocal` and `BroadcastAllLocal` of the hub object do. */
module HubRefinement {
  import opened Basics
  import opened Connections
  import opened Fabric
  import opened FabricInv
  import opened FabricStructure
  import opened FabricStarts
  import opened FabricDeliveryStarts
  import opened FabricTheorems
  import HubObjects

  predicate OwnLabel(l: Label, a: nat) {
    match l
    case BeginPass(b) => b == a
    case NextUser(b) => b == a
    case OfferTo(b, _) => b == a
    case Disconnect(b) => b == a
    case EndPass(b) => b == a
    case DoEnlist(b) => b == a
    case DoStrike(b) => b == a
    case DoLastSeen(b) => b == a
    case DoPublish(b, ok) => b == a && ok
    case _ => false
  }

  /** Agent a alone takes `s` to `t`. */
  ghost predicate Alone(s: State, a: nat, t: State) {
    exists run: seq<Label> :: IsAlone(s, a, run, t)
  }

  ghost predicate IsAlone(s: State, a: nat, run: seq<Label>, t: State) {
    CanRun(s, run) && After(s, run) == t && forall i :: 0 <= i < |run| ==> OwnLabel(run[i], a)
  }

  lemma Go(s: State, a: nat, t: State, l: Label) returns (u: State)
    requires Alone(s, a, t) && Enabled(t, l) && OwnLabel(l, a)
    ensures u == Apply(t, l) && Alone(s, a, u)
  {
    var run: seq<Label> :| IsAlone(s, a, run, t);
    RunSnoc(s, run, l);
    u := Apply(t, l);
    assert IsAlone(s, a, run + [l], u);
  }

  lemma AloneTwice(s: State, a: nat, t: State, u: State)
    requires Alone(s, a, t) && Alone(t, a, u)
    ensures Alone(s, a, u)
  {
    var first: seq<Label> :| IsAlone(s, a, first, t);
    var second: seq<Label> :| IsAlone(t, a, second, u);
    RunConcat(s, first, second);
    assert IsAlone(s, a, first + second, u);
  }

  function Hit(x: Peer, e: nat): Peer {
    x.(conn := HubObjects.Deliver(x.conn, e))
  }

  /** The peers after one delivery to each connection of a set. */
  function Offered(peers: seq<Peer>, some: set<nat>, e: nat): seq<Peer> {
    seq(|peers|, (p: nat) requires p < |peers| => if p in some then Hit(peers[p], e) else peers[p])
  }

  /** The connections of the replica are known and their channels open. */
  ghost predicate AllOpen(peers: seq<Peer>, some: set<nat>) {
    forall p :: p in some ==> p < |peers| && peers[p].conn.open
  }

  predicate InPass(t: State, a: nat, e: nat, rest: seq<UserId>, left: set<nat>) {
    a < |t.agents| && t.agents[a].pass == Some(Pass(e, rest, left, None))
  }

  function WithPass(t: State, a: nat, pass: Option<Pass>, peers: seq<Peer>): State
    requires a < |t.agents|
  {
    t.(agents := t.agents[a := t.agents[a].(pass := pass)], peers := peers)
  }

  /** One send, and the disconnection that follows it when the queue is full. */
  lemma OfferOne(s: State, a: nat, t: State, e: nat, rest: seq<UserId>, left: set<nat>, p: nat) returns (u: State)
    requires Alone(s, a, t) && InPass(t, a, e, rest, left) && p in left && p < |t.peers| && t.peers[p].conn.open
    ensures Alone(s, a, u)
    ensures u == WithPass(t, a, Some(Pass(e, rest, left - {p}, None)), t.peers[p := Hit(t.peers[p], e)])
  {
    var full := t.peers[p].conn.Full();
    u := Go(s, a, t, OfferTo(a, p));
    if full {
      u := Go(s, a, u, Disconnect(a));
    }
    var want := WithPass(t, a, Some(Pass(e, rest, left - {p}, None)), t.peers[p := Hit(t.peers[p], e)]);
    assert u.peers == want.peers && u.agents == want.agents;
  }

  lemma {:induction false} OfferAll(s: State, a: nat, t: State, e: nat, rest: seq<UserId>,
            left: set<nat>) returns (u: State)
    requires Alone(s, a, t) && InPass(t, a, e, rest, left) && AllOpen(t.peers, left)
    ensures Alone(s, a, u)
    ensures u == WithPass(t, a, Some(Pass(e, rest, {}, None)), Offered(t.peers, left, e))
    decreases left
  {
    if left == {} {
      u := t;
      assert Offered(t.peers, left, e) == t.peers;
      assert t.agents[a := t.agents[a].(pass := Some(Pass(e, rest, {}, None)))] == t.agents;
    } else {
      var p :| p in left;
      var v := OfferOne(s, a, t, e, rest, left, p);
      u := OfferAll(s, a, v, e, rest, left - {p});
      assert Offered(v.peers, left - {p}, e) == Offered(t.peers, left, e);
      assert u.agents == t.agents[a := t.agents[a].(pass := Some(Pass(e, rest, {}, None)))];
    }
  }

  /** The peers after the connections of each listed user were sent the event in turn. */
  function OfferedUsers(peers: seq<Peer>, clients: map<UserId, set<nat>>, ids: seq<UserId>, e: nat): seq<Peer>
    decreases |ids|
  {
    if ids == [] then peers
    else OfferedUsers(Offered(peers, Conns(clients, ids[0]), e), clients, ids[1..], e)
  }

  ghost predicate MapOpen(peers: seq<Peer>, clients: map<UserId, set<nat>>) {
    forall u :: AllOpen(peers, Conns(clients, u))
  }

  lemma {:induction false} WalkUsers(s: State, a: nat, t: State, e: nat, rest: seq<UserId>) returns (u: State)
    requires Alone(s, a, t) && InPass(t, a, e, rest, {})
    requires t.agents[a].replica < |t.replicas| && MapOpen(t.peers, t.replicas[t.agents[a].replica].clients)
    ensures Alone(s, a, u)
    ensures u == WithPass(t, a, Some(Pass(e, [], {}, None)),
                          OfferedUsers(t.peers, t.replicas[t.agents[a].replica].clients, rest, e))
    decreases |rest|
  {
    var clients := t.replicas[t.agents[a].replica].clients;
    if rest == [] {
      u := t;
      assert t.agents[a := t.agents[a].(pass := Some(Pass(e, [], {}, None)))] == t.agents;
    } else {
      var left := Conns(clients, rest[0]);
      assert AllOpen(t.peers, left);
      var v := Go(s, a, t, NextUser(a));
      var w := OfferAll(s, a, v, e, rest[1..], left);
      assert w.peers == Offered(t.peers, left, e);
      forall x ensures AllOpen(w.peers, Conns(clients, x)) {
        assert AllOpen(t.peers, Conns(clients, x));
      }
      u := WalkUsers(s, a, w, e, rest[1..]);
      assert u.agents == t.agents[a := t.agents[a].(pass := Some(Pass(e, [], {}, None)))];
    }
  }

  /** What an uninterrupted delivery of event e to `dest` leaves on replica r. */
  function DeliveredTo(s: State, r: nat, dest: Dest, e: nat): seq<Peer>
    requires r < |s.replicas|
  {
    match dest
    case Everyone => Offered(s.peers, AllConns(s.replicas[r].clients), e)
    case Users(ids) => OfferedUsers(s.peers, s.replicas[r].clients, ids, e)
  }

  lemma LoopAlone(s: State, a: nat, e: nat) returns (u: State)
    requires Ready(s, a) && s.agents[a].ops[0] == Local(e) && e < |s.sends| && s.agents[a].replica < |s.replicas|
    requires MapOpen(s.peers, s.replicas[s.agents[a].replica].clients)
    ensures Alone(s, a, u) && InPass(u, a, e, [], {})
    ensures u == s.(agents := s.agents[a := Pop(s.agents[a]).(pass := Some(Pass(e, [], {}, None)))],
                    peers := DeliveredTo(s, s.agents[a].replica, s.sends[e].dest, e))
  {
    var clients := s.replicas[s.agents[a].replica].clients;
    assert IsAlone(s, a, [], s);
    var t := Go(s, a, s, BeginPass(a));
    match s.sends[e].dest {
      case Everyone =>
        MapOpenToAll(s.peers, clients);
        u := OfferAll(s, a, t, e, [], AllConns(clients));
      case Users(ids) => u := WalkUsers(s, a, t, e, ids);
    }
    assert u.agents == s.agents[a := Pop(s.agents[a]).(pass := Some(Pass(e, [], {}, None)))];
  }

  lemma MapOpenToAll(peers: seq<Peer>, clients: map<UserId, set<nat>>)
    requires MapOpen(peers, clients)
    ensures AllOpen(peers, AllConns(clients))
  {
    forall p | p in AllConns(clients) ensures p < |peers| && peers[p].conn.open {
      var x :| x in clients && p in clients[x];
      assert AllOpen(peers, Conns(clients, x));
    }
  }

  lemma DeliveryAlone(s: State, a: nat, e: nat)
    requires Ready(s, a) && s.agents[a].ops[0] == Local(e) && e < |s.sends| && s.agents[a].replica < |s.replicas|
    requires MapOpen(s.peers, s.replicas[s.agents[a].replica].clients)
    ensures var r := s.agents[a].replica;
      Alone(s, a, s.(agents := s.agents[a := Pop(s.agents[a])], peers := DeliveredTo(s, r, s.sends[e].dest, e)))
  {
    var u := LoopAlone(s, a, e);
    u := Go(s, a, u, EndPass(a));
    assert u.agents == s.agents[a := Pop(s.agents[a])];
  }

  // ---------------------------------------------------------------- and that is what the object does

  /** Peer p is in the map, once, under its own user; or not at all. */
  ghost predicate MappedRight(peers: seq<Peer>, clients: map<UserId, set<nat>>, p: nat, inMap: bool)
    requires p < |peers|
  {
    forall u :: p in Conns(clients, u) <==> inMap && u == peers[p].user
  }

  lemma {:induction false} DeliverFirst(c: Conn, e: nat, n: nat)
    ensures HubObjects.DeliverTimes(HubObjects.Deliver(c, e), e, n) == HubObjects.DeliverTimes(c, e, n + 1)
  {
    if n > 0 {
      DeliverFirst(c, e, n - 1);
    }
  }

  lemma {:induction false} CountFirst(ids: seq<UserId>, u: UserId)
    requires ids != []
    ensures HubObjects.Count(ids, u) == HubObjects.Count(ids[1..], u) + if ids[0] == u then 1 else 0
  {
    if |ids| == 1 {
      assert ids[1..] == [] && ids[..0] == [];
    } else {
      var n := |ids| - 1;
      assert ids[..n][1..] == ids[1..][..n - 1] && ids[1..][n - 1] == ids[n];
      CountFirst(ids[..n], u);
    }
  }

  lemma {:induction false} UsersHit(peers: seq<Peer>, clients: map<UserId, set<nat>>, ids: seq<UserId>, e: nat,
            p: nat, inMap: bool)
    requires p < |peers| && MappedRight(peers, clients, p, inMap)
    ensures var after := OfferedUsers(peers, clients, ids, e);
      && |after| == |peers|
      && after[p] == peers[p].(conn :=
           HubObjects.DeliverTimes(peers[p].conn, e, if inMap then HubObjects.Count(ids, peers[p].user) else 0))
    decreases |ids|
  {
    if ids != [] {
      var next := Offered(peers, Conns(clients, ids[0]), e);
      UsersHit(next, clients, ids[1..], e, p, inMap);
      CountFirst(ids, peers[p].user);
      if inMap && ids[0] == peers[p].user {
        DeliverFirst(peers[p].conn, e, HubObjects.Count(ids[1..], peers[p].user));
      }
    }
  }

  /** An uninterrupted delivery does to each peer what the hub object's method does to its client:
      as many sends as its user is listed, or one for a broadcast, and nothing off the map. */
  lemma DeliveryIsSendLocal(s: State, r: nat, dest: Dest, e: nat, p: nat, inMap: bool)
    requires r < |s.replicas| && p < |s.peers| && MappedRight(s.peers, s.replicas[r].clients, p, inMap)
    ensures var after := DeliveredTo(s, r, dest, e);
      && |after| == |s.peers|
      && after[p] == s.peers[p].(conn :=
           if !inMap then s.peers[p].conn
           else match dest
             case Everyone => HubObjects.Deliver(s.peers[p].conn, e)
             case Users(ids) => HubObjects.DeliverTimes(s.peers[p].conn, e, HubObjects.Count(ids, s.peers[p].user)))
  {
    match dest {
      case Users(ids) => UsersHit(s.peers, s.replicas[r].clients, ids, e, p, inMap);
      case Everyone =>
        assert p in AllConns(s.replicas[r].clients) <==> inMap by {
          if inMap {
            assert p in Conns(s.replicas[r].clients, s.peers[p].user);
          }
          if p in AllConns(s.replicas[r].clients) {
            var u :| u in s.replicas[r].clients && p in s.replicas[r].clients[u];
            assert p in Conns(s.replicas[r].clients, u);
          }
        }
    }
  }

  /** In every reachable state, an agent about to deliver an event can finish the delivery by
      itself, and then every client in its hub's map has been sent the event as `SendLocal` (for
      a list of users) or `BroadcastAllLocal` sends it, and nobody else anything. */
  lemma DeliveryRefines(s: State, a: nat) returns (t: State)
    requires Reachable(s) && Ready(s, a) && s.agents[a].ops[0].Local?
    ensures s.agents[a].replica < |s.replicas| && s.agents[a].ops[0].event < |s.sends|
    ensures Alone(s, a, t) && t == s.(agents := s.agents[a := Pop(s.agents[a])], peers := t.peers)
        && |t.peers| == |s.peers|
    ensures var r, e := s.agents[a].replica, s.agents[a].ops[0].event;
      forall p :: 0 <= p < |s.peers| ==> t.peers[p] == s.peers[p].(conn :=
        if !InMap(s, r, p) then s.peers[p].conn
        else match s.sends[e].dest
          case Everyone => HubObjects.Deliver(s.peers[p].conn, e)
          case Users(ids) => HubObjects.DeliverTimes(s.peers[p].conn, e, HubObjects.Count(ids, s.peers[p].user)))
  {
    AgentIsSound(s, a);
    var r, e := s.agents[a].replica, s.agents[a].ops[0].event;
    forall u ensures AllOpen(s.peers, Conns(s.replicas[r].clients, u)) {
      MapIsOpen(s, r, u);
    }
    DeliveryAlone(s, a, e);
    t := s.(agents := s.agents[a := Pop(s.agents[a])], peers := DeliveredTo(s, r, s.sends[e].dest, e));
    forall p | 0 <= p < |s.peers|
      ensures |t.peers| == |s.peers| && t.peers[p] == s.peers[p].(conn :=
        if !InMap(s, r, p) then s.peers[p].conn
        else match s.sends[e].dest
          case Everyone => HubObjects.Deliver(s.peers[p].conn, e)
          case Users(ids) => HubObjects.DeliverTimes(s.peers[p].conn, e, HubObjects.Count(ids, s.peers[p].user)))
    {
      MapIsRight(s, r, p);
      DeliveryIsSendLocal(s, r, s.sends[e].dest, e, p, InMap(s, r, p));
    }
    LengthKept(s, r, s.sends[e].dest, e);
  }

  // ---------------------------------------------------------------- the two cases of the hub loop

  /** What a broadcast of event e, by the hub loop of r, does to connection q. */
  function Heard(s: State, r: nat, e: nat, q: nat): Conn
    requires r < |s.replicas| && q < |s.peers|
  {
    if InMap(s, r, q) then HubObjects.Deliver(s.peers[q].conn, e) else s.peers[q].conn
  }

  /** The hub loop delivers its announcement and publishes it. */
  lemma AnnouncesAlone(s: State, r: nat, e: nat) returns (t: State)
    requires Reachable(s) && r < |s.replicas| && Ready(s, r) && s.agents[r].replica == r
    requires s.agents[r].ops == [Local(e), Publish(e)] && e < |s.sends| && s.sends[e].dest.Everyone?
    ensures Alone(s, r, t) && r < |t.agents| && t.agents[r].Idle()
    ensures t.replicas == s.replicas && t.sends == s.sends && t.log == s.log + [e]
    ensures |t.peers| == |s.peers| && forall q :: 0 <= q < |s.peers| ==>
        t.peers[q] == s.peers[q].(conn := Heard(s, r, e, q))
  {
    var u := DeliveryRefines(s, r);
    assert u.agents[r].ops == [Publish(e)];
    t := Go(s, r, u, DoPublish(r, true));
  }

  /** `v` is what the step that enlists a connection leaves of `s`. */
  ghost predicate Enlisted(s: State, v: State, r: nat, p: nat, u: UserId)
    requires r < |s.replicas|
  {
    var R, e := s.replicas[r], |s.sends|;
    && p < |s.peers| == |v.peers| && s.peers[p].user == u
    && r < |v.agents| && v.agents[r].replica == r && v.agents[r].pass.None?
    && v.replicas == s.replicas[r := R.(clients := HubObjects.Joined(R.clients, u, p))]
    && (forall q :: 0 <= q < |s.peers| ==> v.peers[q].conn == s.peers[q].conn)
    && v.log == s.log
    && if u in R.clients then v.sends == s.sends && v.agents[r].ops == []
       else v.sends == s.sends + [Sent(r, r, Everyone, Online(u))] && v.agents[r].ops == [Local(e), Publish(e)]
  }

  lemma EnlistStep(s: State, r: nat) returns (v: State, p: nat, u: UserId)
    requires Reachable(s) && r < |s.replicas| && Enabled(s, DoEnlist(r))
    ensures Reachable(v) && Alone(s, r, v) && p == s.agents[r].ops[0].peer && Enlisted(s, v, r, p, u)
  {
    ReachableHolds(s);
    HubIsThere(s, DoEnlist(r));
    ReachableStep(s, DoEnlist(r));
    assert IsAlone(s, r, [], s);
    v := Go(s, r, s, DoEnlist(r));
    p := s.agents[r].ops[0].peer;
    u := s.peers[p].user;
    assert ReplicaOk(s, r);
    EnlistEffect(s, r);
  }

  lemma EnlistEffect(s: State, r: nat)
    requires AtHub(s, DoEnlist(r)) && r < |s.replicas| && ReplicaOk(s, r)
    ensures Enlisted(s, Apply(s, DoEnlist(r)), r, s.agents[r].ops[0].peer, s.peers[s.agents[r].ops[0].peer].user)
  {
    HubTurns(s, DoEnlist(r));
  }

  ghost predicate Struck(s: State, v: State, r: nat, p: nat, u: UserId)
    requires r < |s.replicas|
  {
    var R, e := s.replicas[r], |s.sends|;
    && p < |s.peers| == |v.peers| && s.peers[p].user == u && u in R.clients
    && r < |v.agents| && v.agents[r].replica == r && v.agents[r].pass.None?
    && v.replicas == s.replicas[r := R.(clients := HubObjects.Departed(R.clients, u, p))]
    && v.peers[p].conn == s.peers[p].conn.Close()
    && (forall q :: 0 <= q < |s.peers| && q != p ==> v.peers[q] == s.peers[q])
    && v.log == s.log
    && if R.clients[u] != {p} then v.sends == s.sends && v.agents[r].ops == []
       else v.sends == s.sends + [Sent(r, r, Everyone, Offline(u))]
            && v.agents[r].ops == [LastSeen(u), Local(e), Publish(e)]
  }

  lemma StrikeStep(s: State, r: nat) returns (v: State, p: nat, u: UserId)
    requires Reachable(s) && r < |s.replicas| && Enabled(s, DoStrike(r))
    ensures Reachable(v) && Alone(s, r, v) && p == s.agents[r].ops[0].peer && Struck(s, v, r, p, u)
  {
    ReachableHolds(s);
    HubIsThere(s, DoStrike(r));
    ReachableStep(s, DoStrike(r));
    assert IsAlone(s, r, [], s);
    v := Go(s, r, s, DoStrike(r));
    p := s.agents[r].ops[0].peer;
    u := s.peers[p].user;
    assert ReplicaOk(s, r);
    StrikeEffect(s, r);
  }

  lemma StrikeEffect(s: State, r: nat)
    requires AtHub(s, DoStrike(r)) && r < |s.replicas| && ReplicaOk(s, r)
    ensures Struck(s, Apply(s, DoStrike(r)), r, s.agents[r].ops[0].peer, s.peers[s.agents[r].ops[0].peer].user)
  {
    HubTurns(s, DoStrike(r));
    assert s.replicas[r].clients[s.peers[s.agents[r].ops[0].peer].user] != {};
  }

  /** The `OnDisconnect` call before the announcement. */
  lemma ReportsAlone(s: State, r: nat, u: UserId, e: nat) returns (t: State)
    requires Reachable(s) && r < |s.replicas| && Ready(s, r) && s.agents[r].replica == r
    requires s.agents[r].ops == [LastSeen(u), Local(e), Publish(e)] && e < |s.sends| && s.sends[e].dest.Everyone?
    ensures Alone(s, r, t) && r < |t.agents| && t.agents[r].Idle() && t.sends == s.sends && t.log == s.log + [e]
    ensures t.replicas == s.replicas[r := s.replicas[r].(lastSeen := s.replicas[r].lastSeen + [u])]
    ensures |t.peers| == |s.peers| && forall q :: 0 <= q < |s.peers| ==>
        t.peers[q] == s.peers[q].(conn := Heard(s, r, e, q))
  {
    assert IsAlone(s, r, [], s);
    var w := Go(s, r, s, DoLastSeen(r));
    ReachableStep(s, DoLastSeen(r));
    t := AnnouncesAlone(w, r, e);
    AloneTwice(s, r, w, t);
    assert forall q :: 0 <= q < |s.peers| ==> Heard(w, r, e, q) == Heard(s, r, e, q);
  }

  lemma ClosedIsOut(s: State, r: nat, p: nat)
    requires Reachable(s) && r < |s.replicas| && p < |s.peers| && !s.peers[p].conn.open
    ensures !InMap(s, r, p)
  {
    ChannelLifecycle(s, r, p);
  }

  /** Between `s` and `t` the hub loop of r has announced nothing, or `body`, to the clients it then
      had, and of the connections nothing else has changed; `p` is left out when it was leaving. */
  ghost predicate Announced(s: State, t: State, r: nat, body: Option<Body>, leaving: Option<nat>)
    requires r < |t.replicas|
  {
    && |t.peers| == |s.peers|
    && match body
       case None =>
         t.log == s.log && t.sends == s.sends
         && forall q :: 0 <= q < |s.peers| && Some(q) != leaving ==> t.peers[q].conn == s.peers[q].conn
       case Some(b) =>
         t.log == s.log + [|s.sends|] && t.sends == s.sends + [Sent(r, r, Everyone, b)]
         && forall q :: 0 <= q < |s.peers| && Some(q) != leaving ==>
              t.peers[q].conn == if InMap(t, r, q)
                  then HubObjects.Deliver(s.peers[q].conn, |s.sends|) else s.peers[q].conn
  }

  /** The `Register` case of the hub loop, uninterrupted, does in the transition system what the hub
      object's method does: the map gains the connection, and exactly when the user had none its
      online announcement is heard by every connection in the new map, the new one included, and
      published. */
  lemma RegisterRefines(s: State, r: nat) returns (t: State, p: nat, u: UserId)
    requires Reachable(s) && r < |s.replicas| && Enabled(s, DoEnlist(r))
    ensures p == s.agents[r].ops[0].peer && p < |s.peers| && u == s.peers[p].user
    ensures Alone(s, r, t) && r < |t.agents| && t.agents[r].Idle()
    ensures t.replicas == s.replicas[r := s.replicas[r].(clients := HubObjects.Joined(s.replicas[r].clients, u, p))]
    ensures Announced(s, t, r, if u in s.replicas[r].clients then None else Some(Online(u)), None)
  {
    var v;
    v, p, u := EnlistStep(s, r);
    if u in s.replicas[r].clients {
      t := v;
    } else {
      t := AnnouncesAlone(v, r, |s.sends|);
      AloneTwice(s, r, v, t);
    }
  }

  /** So does the `Unregister` case: the map loses the connection, whose channel is closed, and
      exactly when it was its user's last one `OnDisconnect` is called and the offline announcement
      is heard by every connection left in the map and published. */
  lemma UnregisterRefines(s: State, r: nat) returns (t: State, p: nat, u: UserId)
    requires Reachable(s) && r < |s.replicas| && Enabled(s, DoStrike(r))
    ensures p == s.agents[r].ops[0].peer && p < |s.peers| && u == s.peers[p].user && u in s.replicas[r].clients
    ensures Alone(s, r, t) && r < |t.agents| && t.agents[r].Idle()
    ensures var R, last := s.replicas[r], s.replicas[r].clients[u] == {p};
      && t.replicas == s.replicas[r := R.(clients := HubObjects.Departed(R.clients, u, p),
                                          lastSeen := R.lastSeen + if last then [u] else [])]
      && Announced(s, t, r, if last then Some(Offline(u)) else None, Some(p))
      && t.peers[p].conn == s.peers[p].conn.Close()
  {
    var v;
    v, p, u := StrikeStep(s, r);
    if s.replicas[r].clients[u] == {p} {
      t := ReportsAlone(v, r, u, |s.sends|);
      AloneTwice(s, r, v, t);
      ClosedIsOut(v, r, p);
    } else {
      t := v;
      assert s.replicas[r].lastSeen + [] == s.replicas[r].lastSeen;
    }
  }

  lemma AgentIsSound(s: State, a: nat)
    requires Reachable(s) && Ready(s, a) && s.agents[a].ops[0].Local?
    ensures s.agents[a].replica < |s.replicas| && s.agents[a].ops[0].event < |s.sends|
  {
    ReachableHolds(s);
    assert AgentOk(s, a) && AgentOpOk(s, a, 0);
  }

  lemma MapIsOpen(s: State, r: nat, u: UserId)
    requires Reachable(s) && r < |s.replicas|
    ensures AllOpen(s.peers, Conns(s.replicas[r].clients, u))
  {
    ReachableHolds(s);
    assert ReplicaOk(s, r);
    forall p | p in Conns(s.replicas[r].clients, u) ensures p < |s.peers| && s.peers[p].conn.open {
      MapIsExact(s, r, u, p);
      assert PeerOk(s, p);
    }
  }

  lemma MapIsRight(s: State, r: nat, p: nat)
    requires Reachable(s) && r < |s.replicas| && p < |s.peers|
    ensures MappedRight(s.peers, s.replicas[r].clients, p, InMap(s, r, p))
  {
    ChannelLifecycle(s, r, p);
    var clients := s.replicas[r].clients;
    if InMap(s, r, p) {
      var u :| u in clients && p in clients[u];
      assert p in Conns(clients, u) && u == s.peers[p].user;
    }
    forall u ensures p in Conns(clients, u) <==> InMap(s, r, p) && u == s.peers[p].user {
      if p in Conns(clients, u) {
        assert u in clients && p in clients[u];
      }
    }
  }

  lemma {:induction false} LengthKept(s: State, r: nat, dest: Dest, e: nat)
    requires r < |s.replicas|
    ensures |DeliveredTo(s, r, dest, e)| == |s.peers|
  {
    match dest {
      case Everyone =>
      case Users(ids) => UsersKeepLength(s.peers, s.replicas[r].clients, ids, e);
    }
  }

  lemma {:induction false} UsersKeepLength(peers: seq<Peer>, clients: map<UserId, set<nat>>, ids: seq<UserId>, e: nat)
    ensures |OfferedUsers(peers, clients, ids, e)| == |peers|
    decreases |ids|
  {
    if ids != [] {
      UsersKeepLength(Offered(peers, Conns(clients, ids[0]), e), clients, ids[1..], e);
    }
  }
}
