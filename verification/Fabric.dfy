/** The replicated event fabric as a small-step transition system: the hub loops, broker loops,
    read pumps, write pumps and calling goroutines of several replicas joined by one log.

    A step is a label together with its guard (`Enabled`) and its effect (`Apply`), so a run is
    a sequence of labels and every interleaving of the goroutines is one of them.
 */
module Fabric {
  import opened Basics
  import opened Connections

  type UserId = int

  datatype Dest = Everyone | Users(ids: seq<UserId>)

  datatype Body = Online(user: UserId) | Offline(user: UserId) | New | Ack(of: nat) | Other

  /** One call of `Send` or `BroadcastAll`; an event is named by its index among them. */
  datatype Sent = Sent(home: nat, origin: nat, dest: Dest, body: Body)

  /** What a goroutine has still to do. `Enlist` and `Strike` are the two cases of the hub
      loop after it received from `Register` or `Unregister`. */
  datatype Op =
    | Enlist(peer: nat)
    | Strike(peer: nat)
    | LastSeen(user: UserId)
    | Local(event: nat)
    | Publish(event: nat)
    | Arm(dest: Dest)

  /** A delivery loop in progress; it holds the replica's read lock. `left` are the connections
      of the current user still to be offered the event, `rest` the users after it, and `drop`
      a connection that refused the event and is about to be disconnected. */
  datatype Pass = Pass(event: nat, rest: seq<UserId>, left: set<nat>, drop: Option<nat>)

  /** A goroutine that can run a delivery loop. On n replicas agent r is the hub loop of
      replica r, agent n + r its broker loop, and the others are callers: read pumps running a
      handler (`owner` is the connection), REST handlers and timer callbacks. */
  datatype Agent = Agent(replica: nat, owner: Option<nat>, ops: seq<Op>, pass: Option<Pass>)
  {
    predicate Idle() {
      ops == [] && pass.None?
    }
  }

  datatype Replica = Replica(
    clients: map<UserId, set<nat>>,
    cursor: nat,
    skipped: set<nat>,
    lastSeen: seq<UserId>)

  /** Where the read pump is: `ServeHTTP` still sending on `Register`, reading, in the deferred
      function sending on `Unregister`, past it, and finished. */
  datatype Phase = Connecting | Reading | Leaving | Left | Gone

  datatype Stage = Outside | Listed | Removed

  datatype Peer = Peer(replica: nat, user: UserId, phase: Phase, stage: Stage, regAt: nat, conn: Conn)

  /** A typing timer that is armed. */
  datatype Timer = Timer(replica: nat, dest: Dest)

  datatype State = State(
    replicas: seq<Replica>,
    peers: seq<Peer>,
    agents: seq<Agent>,
    sends: seq<Sent>,
    log: seq<nat>,
    failed: set<nat>,
    timers: seq<Timer>,
    panicked: bool)

  datatype Label =
    // the environment
    | Connect(replica: nat, user: UserId)
    | StartMessage(peer: nat, members: seq<UserId>)
    | StartCast(replica: nat, owner: Option<nat>, dest: Dest, typing: bool)
    | ReplyError(peer: nat, tag: nat)
    // the system
    | RecvRegister(peer: nat)
    | DoEnlist(replica: nat)
    | RecvUnregister(peer: nat)
    | DoStrike(replica: nat)
    | DoLastSeen(replica: nat)
    | DoPublish(agent: nat, ok: bool)
    | DoArm(agent: nat)
    | Fire(timer: nat)
    | BeginPass(agent: nat)
    | NextUser(agent: nat)
    | OfferTo(agent: nat, peer: nat)
    | Disconnect(agent: nat)
    | EndPass(agent: nat)
    | TakeLog(replica: nat)
    | LoseLog(replica: nat)
    | ReadFails(peer: nat)
    | DeferCancel(peer: nat)
    | PumpTake(peer: nat)
    | PumpWrite(peer: nat)
    | PumpStop(peer: nat)

  predicate IsEnv(l: Label) {
    l.Connect? || l.StartMessage? || l.StartCast? || l.ReplyError?
  }

  // ---------------------------------------------------------------- reading the state

  function Conns(clients: map<UserId, set<nat>>, u: UserId): set<nat> {
    if u in clients then clients[u] else {}
  }

  function AllConns(clients: map<UserId, set<nat>>): set<nat> {
    set u, p | u in clients && p in clients[u] :: p
  }

  predicate Covers(dest: Dest, u: UserId) {
    dest.Everyone? || u in dest.ids
  }

  ghost predicate GoodDest(dest: Dest) {
    dest.Users? ==> Distinct(dest.ids)
  }

  /** No delivery loop holds the replica's read lock. */
  ghost predicate Unlocked(s: State, r: nat) {
    forall a :: 0 <= a < |s.agents| && s.agents[a].replica == r ==> s.agents[a].pass.None?
  }

  /** The read pump of `p` is not inside an event handler. */
  ghost predicate NotHandling(s: State, p: nat) {
    forall a :: 0 <= a < |s.agents| && s.agents[a].owner == Some(p) ==> s.agents[a].Idle()
  }

  // ---------------------------------------------------------------- writing the state

  function SetPeer(s: State, p: nat, x: Peer): State
    requires p < |s.peers|
  {
    s.(peers := s.peers[p := x])
  }

  function SetAgent(s: State, a: nat, x: Agent): State
    requires a < |s.agents|
  {
    s.(agents := s.agents[a := x])
  }

  function SetReplica(s: State, r: nat, x: Replica): State
    requires r < |s.replicas|
  {
    s.(replicas := s.replicas[r := x])
  }

  function SetConn(s: State, p: nat, c: Conn): State
    requires p < |s.peers|
  {
    SetPeer(s, p, s.peers[p].(conn := c))
  }

  // ---------------------------------------------------------------- the steps

  /** Agent `a` is about to start its next operation. */
  ghost predicate Ready(s: State, a: nat) {
    a < |s.agents| && s.agents[a].pass.None? && s.agents[a].ops != []
  }

  ghost predicate Passing(s: State, a: nat) {
    a < |s.agents| && s.agents[a].pass.Some?
  }

  ghost predicate Enabled(s: State, l: Label)
  {
    match l
    case Connect(r, u) => r < |s.replicas|
    case StartMessage(p, members) =>
      p < |s.peers| && s.peers[p].phase == Reading && NotHandling(s, p) && Distinct(members)
    case StartCast(r, owner, dest, typing) =>
      && r < |s.replicas| && GoodDest(dest) && dest.Users?
      && (owner.Some? ==>
            && owner.value < |s.peers| && s.peers[owner.value].replica == r
            && s.peers[owner.value].phase == Reading && NotHandling(s, owner.value))
    case ReplyError(p, _) => p < |s.peers| && s.peers[p].phase == Reading
    case RecvRegister(p) =>
      && p < |s.peers| && s.peers[p].phase == Connecting
      && s.peers[p].replica < |s.agents| && s.agents[s.peers[p].replica].Idle()
    case DoEnlist(r) =>
      && r < |s.replicas| && Ready(s, r) && s.agents[r].ops[0].Enlist?
      && s.agents[r].ops[0].peer < |s.peers| && Unlocked(s, r)
    case RecvUnregister(p) =>
      && p < |s.peers| && s.peers[p].phase == Leaving
      && s.peers[p].replica < |s.agents| && s.agents[s.peers[p].replica].Idle()
    case DoStrike(r) =>
      && r < |s.replicas| && Ready(s, r) && s.agents[r].ops[0].Strike?
      && s.agents[r].ops[0].peer < |s.peers| && Unlocked(s, r)
    case DoLastSeen(r) => r < |s.replicas| && Ready(s, r) && s.agents[r].ops[0].LastSeen?
    case DoPublish(a, _) => Ready(s, a) && s.agents[a].ops[0].Publish?
    case DoArm(a) => Ready(s, a) && s.agents[a].ops[0].Arm?
    case Fire(t) => t < |s.timers|
    case BeginPass(a) =>
      && Ready(s, a) && s.agents[a].ops[0].Local? && s.agents[a].ops[0].event < |s.sends|
      && s.agents[a].replica < |s.replicas|
    case NextUser(a) =>
      && Passing(s, a) && s.agents[a].replica < |s.replicas|
      && var q := s.agents[a].pass.value; q.left == {} && q.drop.None? && q.rest != []
    case OfferTo(a, p) =>
      && Passing(s, a) && p < |s.peers|
      && var q := s.agents[a].pass.value; p in q.left && q.drop.None?
    case Disconnect(a) =>
      Passing(s, a) && s.agents[a].pass.value.drop.Some? && s.agents[a].pass.value.drop.value < |s.peers|
    case EndPass(a) =>
      && Passing(s, a)
      && var q := s.agents[a].pass.value; q.left == {} && q.drop.None? && q.rest == []
    case TakeLog(r) => BrokerReady(s, r) && s.log[s.replicas[r].cursor] < |s.sends|
    case LoseLog(r) => BrokerReady(s, r)
    case ReadFails(p) => p < |s.peers| && s.peers[p].phase == Reading && NotHandling(s, p)
    case DeferCancel(p) => p < |s.peers| && s.peers[p].phase == Left
    case PumpTake(p) =>
      PumpStarted(s, p) && s.peers[p].conn.pump == Running && s.peers[p].conn.queue != []
    case PumpWrite(p) =>
      PumpStarted(s, p) && s.peers[p].conn.pump.Holding? && !s.peers[p].conn.cancelled
    case PumpStop(p) => PumpStarted(s, p) && s.peers[p].conn.pump != Stopped
  }

  predicate PumpStarted(s: State, p: nat) {
    p < |s.peers| && s.peers[p].phase != Connecting
  }

  predicate BrokerReady(s: State, r: nat) {
    && r < |s.replicas| && |s.replicas| + r < |s.agents| && s.agents[|s.replicas| + r].Idle()
    && s.replicas[r].cursor < |s.log|
  }

  function Pop(g: Agent): Agent
    requires g.ops != []
  {
    g.(ops := g.ops[1..])
  }

  /** The state after step `l`, for a step that is enabled. */
  ghost function Apply(s: State, l: Label): State
    requires Enabled(s, l)
  {
    match l
    case Connect(r, u) => s.(peers := s.peers + [Peer(r, u, Connecting, Outside, 0, FRESH)])
    case StartMessage(p, members) => ApplyMessage(s, p, members)
    case StartCast(r, owner, dest, typing) => ApplyCast(s, r, owner, dest, typing)
    case ReplyError(p, tag) =>
      var c := s.peers[p].conn;
      SetConn(s, p, c.TrySend(tag)).(panicked := s.panicked || !c.open)
    case RecvRegister(p) =>
      var x := s.peers[p];
      SetAgent(SetPeer(s, p, x.(phase := Reading)), x.replica, s.agents[x.replica].(ops := [Enlist(p)]))
    case DoEnlist(r) => ApplyEnlist(s, r)
    case RecvUnregister(p) =>
      var x := s.peers[p];
      SetAgent(SetPeer(s, p, x.(phase := Left)), x.replica, s.agents[x.replica].(ops := [Strike(p)]))
    case DoStrike(r) => ApplyStrike(s, r)
    case DoLastSeen(r) =>
      var R := s.replicas[r];
      SetReplica(SetAgent(s, r, Pop(s.agents[r])), r, R.(lastSeen := R.lastSeen + [s.agents[r].ops[0].user]))
    case DoPublish(a, ok) =>
      var e := s.agents[a].ops[0].event;
      var t := SetAgent(s, a, Pop(s.agents[a]));
      if ok then t.(log := s.log + [e]) else t.(failed := s.failed + {e})
    case DoArm(a) =>
      var g := s.agents[a];
      SetAgent(s, a, Pop(g)).(timers := s.timers + [Timer(g.replica, g.ops[0].dest)])
    case Fire(t) => ApplyFire(s, t)
    case BeginPass(a) => ApplyBegin(s, a)
    case NextUser(a) => ApplyNext(s, a)
    case OfferTo(a, p) => ApplyOffer(s, a, p)
    case Disconnect(a) => ApplyDrop(s, a)
    case EndPass(a) => SetAgent(s, a, s.agents[a].(pass := None))
    case TakeLog(r) =>
      var R := s.replicas[r];
      var e := s.log[R.cursor];
      var t := SetReplica(s, r, R.(cursor := R.cursor + 1));
      var b := |s.replicas| + r;
      if s.sends[e].origin == r then t else SetAgent(t, b, s.agents[b].(ops := [Local(e)]))
    case LoseLog(r) =>
      var R := s.replicas[r];
      SetReplica(s, r, R.(cursor := R.cursor + 1, skipped := R.skipped + {R.cursor}))
    case ReadFails(p) => SetPeer(s, p, s.peers[p].(phase := Leaving))
    case DeferCancel(p) =>
      SetPeer(s, p, s.peers[p].(phase := Gone, conn := s.peers[p].conn.Cancel()))
    case PumpTake(p) => SetConn(s, p, s.peers[p].conn.Dequeue())
    case PumpWrite(p) => SetConn(s, p, s.peers[p].conn.Write())
    case PumpStop(p) => SetConn(s, p, s.peers[p].conn.StopPump())
  }

  /** A delivery loop begins: a broadcast to everyone takes the connections there are. */
  ghost function ApplyBegin(s: State, a: nat): State
    requires Enabled(s, BeginPass(a))
  {
    var g := s.agents[a];
    var e := g.ops[0].event;
    var q := match s.sends[e].dest
      case Everyone => Pass(e, [], AllConns(s.replicas[g.replica].clients), None)
      case Users(ids) => Pass(e, ids, {}, None);
    SetAgent(s, a, Pop(g).(pass := Some(q)))
  }

  /** It comes to the next user of its list. */
  ghost function ApplyNext(s: State, a: nat): State
    requires Enabled(s, NextUser(a))
  {
    var g := s.agents[a];
    var q := g.pass.value;
    var next := Conns(s.replicas[g.replica].clients, q.rest[0]);
    SetAgent(s, a, g.(pass := Some(q.(rest := q.rest[1..], left := next))))
  }

  /** It sends to one connection, without blocking; sending on a closed channel panics. */
  ghost function ApplyOffer(s: State, a: nat, p: nat): State
    requires Enabled(s, OfferTo(a, p))
  {
    var g := s.agents[a];
    var q := g.pass.value;
    var c := s.peers[p].conn;
    var q' := q.(left := q.left - {p}, drop := if c.Full() then Some(p) else None);
    SetAgent(SetConn(s, p, c.Offer(q.event)), a, g.(pass := Some(q'))).(panicked := s.panicked || !c.open)
  }

  /** It disconnects the connection whose queue was full. */
  ghost function ApplyDrop(s: State, a: nat): State
    requires Enabled(s, Disconnect(a))
  {
    var g := s.agents[a];
    var q := g.pass.value;
    var p := q.drop.value;
    SetAgent(SetConn(s, p, s.peers[p].conn.Cancel()), a, g.(pass := Some(q.(drop := None))))
  }

  /** `handleMessageSend` from the point where the member list is known. */
  function ApplyMessage(s: State, p: nat, members: seq<UserId>): State
    requires p < |s.peers|
  {
    var x := s.peers[p];
    var e, h := |s.sends|, |s.agents|;
    s.(sends := s.sends + [Sent(h, x.replica, Users(members), New),
                           Sent(h, x.replica, Users([x.user]), Ack(e))],
       agents := s.agents + [Agent(x.replica, Some(p), [Local(e), Publish(e), Local(e + 1), Publish(e + 1)], None)])
  }

  /** Any other handler or REST call from the point where its one `Send` begins; a started
      typing indicator arms a timer afterwards. */
  function ApplyCast(s: State, r: nat, owner: Option<nat>, dest: Dest, typing: bool): State {
    var e, h := |s.sends|, |s.agents|;
    s.(sends := s.sends + [Sent(h, r, dest, Other)],
       agents := s.agents + [Agent(r, owner, [Local(e), Publish(e)] + (if typing then [Arm(dest)] else []), None)])
  }

  /** A timer runs out: its callback broadcasts once. */
  function ApplyFire(s: State, t: nat): State
    requires t < |s.timers|
  {
    var timer := s.timers[t];
    ApplyCast(s.(timers := s.timers[..t] + s.timers[t + 1..]), timer.replica, None, timer.dest, false)
  }

  /** The `Register` case of the hub loop. */
  function ApplyEnlist(s: State, r: nat): State
    requires r < |s.replicas| && r < |s.agents| && s.agents[r].ops != []
    requires s.agents[r].ops[0].Enlist? && s.agents[r].ops[0].peer < |s.peers|
  {
    var p := s.agents[r].ops[0].peer;
    var x := s.peers[p];
    var R := s.replicas[r];
    var before := Conns(R.clients, x.user);
    var R' := R.(clients := R.clients[x.user := before + {p}]);
    var t := SetPeer(s, p, x.(stage := Listed, regAt := |s.sends|));
    if before == {} then
      Announce(SetReplica(t, r, R'), r, Online(x.user), [])
    else
      SetAgent(SetReplica(t, r, R'), r, Pop(s.agents[r]))
  }

  /** The `Unregister` case of the hub loop; closing a closed channel panics. */
  function ApplyStrike(s: State, r: nat): State
    requires r < |s.replicas| && r < |s.agents| && s.agents[r].ops != []
    requires s.agents[r].ops[0].Strike? && s.agents[r].ops[0].peer < |s.peers|
  {
    var p := s.agents[r].ops[0].peer;
    var x := s.peers[p];
    var R := s.replicas[r];
    if x.user !in R.clients then
      SetAgent(SetPeer(s, p, x.(stage := Removed)), r, Pop(s.agents[r]))
    else
      var after := R.clients[x.user] - {p};
      var t := SetPeer(s, p, x.(stage := Removed, conn := x.conn.Close()));
      var u := t.(panicked := s.panicked || !x.conn.open);
      if after == {} then
        var R' := R.(clients := R.clients - {x.user});
        Announce(SetReplica(u, r, R'), r, Offline(x.user), [LastSeen(x.user)])
      else
        SetAgent(SetReplica(u, r, R.(clients := R.clients[x.user := after])), r, Pop(s.agents[r]))
  }

  /** The hub loop replaces its head operation by `first` and a presence broadcast. */
  function Announce(s: State, r: nat, body: Body, first: seq<Op>): State
    requires r < |s.agents| && s.agents[r].ops != []
  {
    var e := |s.sends|;
    SetAgent(s.(sends := s.sends + [Sent(r, r, Everyone, body)]), r,
             s.agents[r].(ops := first + [Local(e), Publish(e)] + s.agents[r].ops[1..]))
  }

  // ---------------------------------------------------------------- runs

  /** n replicas that have just started. */
  function Init(n: nat): State {
    State(seq(n, _ => Replica(map[], 0, {}, [])), [],
          seq(2 * n, (a: nat) => Agent(if a < n then a else if a < 2 * n then a - n else 0, None, [], None)),
          [], [], {}, [], false)
  }

  /** The labels in `run` can be taken one after the other from `s`. */
  ghost predicate CanRun(s: State, run: seq<Label>)
    decreases |run|
  {
    run == [] || (Enabled(s, run[0]) && CanRun(Apply(s, run[0]), run[1..]))
  }

  ghost function After(s: State, run: seq<Label>): State
    requires CanRun(s, run)
    decreases |run|
  {
    if run == [] then s else After(Apply(s, run[0]), run[1..])
  }
}
