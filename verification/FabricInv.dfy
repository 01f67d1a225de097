/** The inductive invariant of the fabric, one predicate per kind of entity. */
module FabricInv {
  import opened Basics
  import opened Connections
  import opened Fabric

  // ---------------------------------------------------------------- vocabulary

  predicate IsBroker(s: State, a: nat) {
    |s.replicas| <= a < 2 * |s.replicas|
  }

  /** The agent that offers event `e` to the connections of replica `r`. */
  function Deliverer(s: State, e: nat, r: nat): nat
    requires e < |s.sends|
  {
    if s.sends[e].origin == r then s.sends[e].home else |s.replicas| + r
  }

  function Rank(o: Op): int {
    if o.Local? then 2 * o.event else if o.Publish? then 2 * o.event + 1 else -1
  }

  /** The sends an agent has to do are in the order in which they were begun, each delivered
      locally before it is published. */
  ghost predicate InOrder(ops: seq<Op>) {
    forall i, j :: 0 <= i < j < |ops| && (ops[j].Local? || ops[j].Publish?) ==> Rank(ops[i]) < Rank(ops[j])
  }

  ghost predicate Solo(ops: seq<Op>) {
    forall i :: 0 <= i < |ops| && (ops[i].Enlist? || ops[i].Strike?) ==> |ops| == 1
  }

  /** Agent `a` is the one entitled to deliver `e`. */
  ghost predicate EventAt(s: State, a: nat, e: nat) {
    && e < |s.sends|
    && if IsBroker(s, a) then
         var r := a - |s.replicas|;
         && s.sends[e].origin != r && 0 < s.replicas[r].cursor <= |s.log|
         && s.log[s.replicas[r].cursor - 1] == e
       else s.sends[e].home == a
  }

  ghost predicate LogHas(s: State, e: nat, lo: nat, hi: nat) {
    exists k :: lo <= k < hi && k < |s.log| && s.log[k] == e
  }

  ghost predicate Skipped(s: State, r: nat, e: nat)
    requires r < |s.replicas|
  {
    exists k :: k in s.replicas[r].skipped && k < |s.log| && s.log[k] == e
  }

  // ---------------------------------------------------------------- per entity

  ghost predicate OpOk(s: State, a: nat, o: Op) {
    match o
    case Enlist(p) => a < |s.replicas| && p < |s.peers| && s.peers[p].replica == a
    case Strike(p) => a < |s.replicas| && p < |s.peers| && s.peers[p].replica == a
    case LastSeen(_) => a < |s.replicas|
    case Local(e) => EventAt(s, a, e)
    case Publish(e) => !IsBroker(s, a) && EventAt(s, a, e) && e !in s.log && e !in s.failed
    case Arm(dest) => 2 * |s.replicas| <= a && GoodDest(dest) && dest.Users?
  }

  ghost predicate TargetOk(s: State, a: nat, q: Pass, p: nat) {
    && p < |s.peers| && a < |s.agents| && s.peers[p].replica == s.agents[a].replica
    && s.peers[p].stage == Listed && s.peers[p].user !in q.rest
    && q.event < |s.sends| && Covers(s.sends[q.event].dest, s.peers[p].user)
  }

  ghost predicate PassOk(s: State, a: nat, q: Pass) {
    && EventAt(s, a, q.event)
    && Distinct(q.rest)
    && (forall u :: u in q.rest ==> Covers(s.sends[q.event].dest, u))
    && (forall p :: p in q.left ==> TargetOk(s, a, q, p))
    && (q.drop.Some? ==>
          && TargetOk(s, a, q, q.drop.value) && q.drop.value !in q.left
          && q.event in s.peers[q.drop.value].conn.offered)
  }

  ghost predicate AgentOk(s: State, a: nat) {
    a < |s.agents| ==>
      var g := s.agents[a];
      && g.replica < |s.replicas|
      && (a < |s.replicas| ==> g.replica == a)
      && (IsBroker(s, a) ==> g.replica == a - |s.replicas|)
      && (g.owner.Some? ==> 2 * |s.replicas| <= a && g.owner.value < |s.peers|)
      && InOrder(g.ops) && Solo(g.ops)
  }

  ghost predicate AgentOpOk(s: State, a: nat, i: nat) {
    a < |s.agents| && i < |s.agents[a].ops| ==> OpOk(s, a, s.agents[a].ops[i])
  }

  /** A delivery loop in progress, and only later sends of its agent still to come. */
  ghost predicate AgentPassOk(s: State, a: nat) {
    a < |s.agents| && s.agents[a].pass.Some? ==>
      && PassOk(s, a, s.agents[a].pass.value)
      && forall i :: 0 <= i < |s.agents[a].ops| ==> AfterPass(s.agents[a].ops[i], s.agents[a].pass.value.event)
  }

  ghost predicate AfterPass(o: Op, e: nat) {
    !o.Enlist? && !o.Strike? && (o.Local? || o.Publish? ==> 2 * e < Rank(o))
  }

  ghost predicate SendOk(s: State, e: nat) {
    e < |s.sends| ==>
      var x := s.sends[e];
      && x.home < |s.agents| && !IsBroker(s, x.home)
      && x.origin < |s.replicas| && x.origin == s.agents[x.home].replica
      && GoodDest(x.dest)
      && (x.body.Ack? ==>
            && x.body.of < e && s.sends[x.body.of].home == x.home
            && s.sends[x.body.of].origin == x.origin)
  }

  ghost predicate LogOk(s: State) {
    && Distinct(s.log)
    && (forall k :: 0 <= k < |s.log| ==> s.log[k] < |s.sends|)
    && (forall e :: e in s.failed ==> e < |s.sends|)
  }

  ghost predicate ReplicaOk(s: State, r: nat) {
    r < |s.replicas| ==>
      && s.replicas[r].cursor <= |s.log|
      && forall u :: u in s.replicas[r].clients ==>
           && s.replicas[r].clients[u] != {}
           && forall p :: p in s.replicas[r].clients[u] ==> ListedAs(s, p, r, u)
  }

  ghost predicate ListedAs(s: State, p: nat, r: nat, u: UserId) {
    p < |s.peers| && s.peers[p].replica == r && s.peers[p].user == u && s.peers[p].stage == Listed
  }

  ghost predicate PeerOk(s: State, p: nat) {
    p < |s.peers| ==>
      var x := s.peers[p];
      && x.replica < |s.replicas|
      && Inv(x.conn) && Distinct(x.conn.offered)
      && x.regAt <= |s.sends|
      && (x.conn.open <==> x.stage != Removed)
      && (x.stage == Outside ==> x.conn.offered == [])
      && (x.phase == Gone ==> x.conn.cancelled)
  }

  /** The hub loop is about to perform `o`. */
  predicate Doing(s: State, r: nat, o: Op) {
    r < |s.agents| && s.agents[r].ops != [] && s.agents[r].ops[0] == o
  }

  /** How far the read pump, the hub loop and the hub's map are with one connection. */
  ghost predicate StageOk(s: State, p: nat) {
    p < |s.peers| ==>
      var x := s.peers[p];
      && x.replica < |s.replicas|
      && (x.phase == Connecting ==> x.stage == Outside)
      && (x.stage == Outside ==> x.phase in {Connecting, Reading, Leaving})
      && (x.stage == Removed ==> x.phase in {Left, Gone})
      && (x.stage == Outside && x.phase != Connecting <==> Doing(s, x.replica, Enlist(p)))
      && (x.stage == Listed && x.phase in {Left, Gone} <==> Doing(s, x.replica, Strike(p)))
      && (x.stage == Listed ==> p in Conns(s.replicas[x.replica].clients, x.user))
  }

  /** Agent `g` is delivering `e` and has not come to connection `p` of user `u` yet. */
  ghost predicate StillComing(g: Agent, e: nat, p: nat, u: UserId) {
    g.pass.Some? && g.pass.value.event == e && (p in g.pass.value.left || u in g.pass.value.rest)
  }

  /** What holds once connection `p` has been offered `e`: nobody will offer it again, and if
      it was refused the connection is cancelled or its refuser is about to cancel it. */
  ghost predicate OfferOk(s: State, p: nat, e: nat) {
    p < |s.peers| && e in s.peers[p].conn.offered ==>
      var x := s.peers[p];
      && e < |s.sends| && Covers(s.sends[e].dest, x.user)
      && Deliverer(s, e, x.replica) < |s.agents|
      && var g := s.agents[Deliverer(s, e, x.replica)];
      && Local(e) !in g.ops
      && !StillComing(g, e, p, x.user)
      && (s.sends[e].origin != x.replica && x.replica < |s.replicas| ==>
            LogHas(s, e, 0, s.replicas[x.replica].cursor))
      && (e !in x.conn.accepted ==>
            || x.conn.cancelled
            || (g.pass.Some? && g.pass.value.event == e && g.pass.value.drop == Some(p)))
  }

  /** Connection `p` will still be offered `e` unless the log loses it. */
  ghost predicate Pending(s: State, p: nat, e: nat) {
    && p < |s.peers| && e < |s.sends| && s.peers[p].replica < |s.replicas|
    && Deliverer(s, e, s.peers[p].replica) < |s.agents| && s.sends[e].home < |s.agents|
    && var x := s.peers[p];
    var g := s.agents[Deliverer(s, e, x.replica)];
    || Local(e) in g.ops
    || StillComing(g, e, p, x.user)
    || (s.sends[e].origin != x.replica &&
        (Publish(e) in s.agents[s.sends[e].home].ops || LogHas(s, e, s.replicas[x.replica].cursor, |s.log|)))
  }

  /** The log lost `e` for replica `r`: the publish failed or the subscription missed it. */
  ghost predicate LostFor(s: State, r: nat, e: nat) {
    && r < |s.replicas| && e < |s.sends|
    && s.sends[e].origin != r && (e in s.failed || Skipped(s, r, e))
  }

  /** `p` was registered when the send `e` began, still is, and is addressed by it. */
  ghost predicate Entitled(s: State, p: nat, e: nat) {
    && p < |s.peers| && e < |s.sends|
    && s.peers[p].stage == Listed && s.peers[p].regAt <= e
    && Covers(s.sends[e].dest, s.peers[p].user)
  }

  ghost predicate CoverOk(s: State, p: nat, e: nat) {
    Entitled(s, p, e) ==>
      && s.peers[p].replica < |s.replicas|
      && Deliverer(s, e, s.peers[p].replica) < |s.agents| && s.sends[e].home < |s.agents|
      && (|| e in s.peers[p].conn.offered
          || Pending(s, p, e)
          || LostFor(s, s.peers[p].replica, e))
  }

  ghost predicate Remote(s: State, p: nat, e: nat) {
    p < |s.peers| && e < |s.sends| && s.sends[e].origin != s.peers[p].replica
  }

  /** The events of other replicas reach a connection in the order of the log. */
  ghost predicate OrderOk(s: State, p: nat) {
    p < |s.peers| ==>
      var o := s.peers[p].conn.offered;
      forall i, j, k, m ::
        && 0 <= i < j < |o| && Remote(s, p, o[i]) && Remote(s, p, o[j])
        && 0 <= k < |s.log| && s.log[k] == o[i] && 0 <= m < |s.log| && s.log[m] == o[j]
        ==> k < m
  }

  /** Whoever is acknowledged a message on the replica that sent it, and was registered and
      addressed when it was sent, got the message first or can no longer be written to. */
  ghost predicate AckOk(s: State, p: nat, i: nat) {
    && p < |s.peers| && i < |s.peers[p].conn.accepted|
    && AckFor(s, p, s.peers[p].conn.accepted[i])
    ==>
      || s.sends[s.peers[p].conn.accepted[i]].body.of in s.peers[p].conn.accepted[..i]
      || (s.peers[p].conn.cancelled && s.peers[p].conn.cutoff <= i)
  }

  ghost predicate AckFor(s: State, p: nat, e: nat)
  {
    && p < |s.peers| && e < |s.sends| && s.sends[e].body.Ack?
    && s.sends[e].origin == s.peers[p].replica
    && var m := s.sends[e].body.of;
    m < |s.sends| && s.peers[p].regAt <= m && Covers(s.sends[m].dest, s.peers[p].user)
  }

  ghost predicate TimerOk(s: State, t: nat) {
    t < |s.timers| ==>
      s.timers[t].replica < |s.replicas| && GoodDest(s.timers[t].dest) && s.timers[t].dest.Users?
  }

  ghost predicate Structure(s: State) {
    && 2 * |s.replicas| <= |s.agents|
    && !s.panicked
    && LogOk(s)
    && (forall a :: AgentOk(s, a))
    && (forall a, i :: AgentOpOk(s, a, i))
    && (forall a :: AgentPassOk(s, a))
    && (forall e :: SendOk(s, e))
    && (forall r :: ReplicaOk(s, r))
    && (forall p :: PeerOk(s, p))
    && (forall p :: StageOk(s, p))
    && (forall t :: TimerOk(s, t))
  }

  ghost predicate Delivery(s: State) {
    && (forall p, e :: OfferOk(s, p, e))
    && (forall p, e :: CoverOk(s, p, e))
    && (forall p :: OrderOk(s, p))
    && (forall p, i :: AckOk(s, p, i))
  }
}
