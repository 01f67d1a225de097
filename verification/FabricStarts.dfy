/** The structural part of the invariant under the steps that begin sends or change who is
    connected. */
module FabricStarts {
  import opened Basics
  import opened Connections
  import opened Fabric
  import opened FabricInv
  import opened FabricEffects
  import opened FabricStructure

  // ---------------------------------------------------------------- beginning sends

  /** Nothing that exists changes, apart from the timers. */
  ghost predicate Extends(s: State, t: State) {
    && t.replicas == s.replicas && t.log == s.log && t.failed == s.failed && t.panicked == s.panicked
    && s.peers <= t.peers && s.agents <= t.agents && s.sends <= t.sends
  }

  lemma StartExtends(s: State, l: Label)
    requires Enabled(s, l) && StartStep(l)
    ensures Extends(s, Apply(s, l))
  {
  }

  lemma OldAgent(s: State, t: State, a: nat)
    requires Extends(s, t) && Structure(s) && a < |s.agents|
    ensures AgentOk(t, a) && AgentPassOk(t, a)
  {
    assert AgentOk(s, a) && AgentPassOk(s, a);
    if s.agents[a].pass.Some? {
      var q := s.agents[a].pass.value;
      assert EventAt(t, a, q.event);
      forall p | p in q.left ensures TargetOk(t, a, q, p) {
        assert TargetOk(s, a, q, p);
      }
    }
  }

  lemma OldOp(s: State, t: State, a: nat, i: nat)
    requires Extends(s, t) && Structure(s) && a < |s.agents|
    ensures AgentOpOk(t, a, i)
  {
    assert AgentOpOk(s, a, i);
  }

  lemma OldSend(s: State, t: State, e: nat)
    requires Extends(s, t) && Structure(s) && e < |s.sends|
    ensures SendOk(t, e)
  {
    assert SendOk(s, e);
  }

  lemma OldReplica(s: State, t: State, r: nat)
    requires Extends(s, t) && Structure(s)
    ensures ReplicaOk(t, r)
  {
    assert ReplicaOk(s, r);
    if r < |s.replicas| {
      forall u, p | u in s.replicas[r].clients && p in s.replicas[r].clients[u] ensures ListedAs(t, p, r, u) {
        assert ListedAs(s, p, r, u);
      }
    }
  }

  lemma OldPeer(s: State, t: State, p: nat)
    requires Extends(s, t) && Structure(s) && p < |s.peers|
    ensures PeerOk(t, p) && StageOk(t, p)
  {
    assert PeerOk(s, p) && StageOk(s, p);
  }

  lemma NewAgent(s: State, l: Label, i: nat)
    requires Structure(s) && Enabled(s, l) && StartStep(l) && !l.Connect?
    ensures var t := Apply(s, l); AgentOk(t, |s.agents|) && AgentOpOk(t, |s.agents|, i) && AgentPassOk(t, |s.agents|)
  {
    if l.Fire? {
      assert TimerOk(s, l.timer);
      NewTimerAgent(s, l, i);
    } else if l.StartMessage? {
      assert PeerOk(s, l.peer);
      NewMessageAgent(s, l, i);
    } else {
      NewCastAgent(s, l, i);
    }
  }

  lemma NewTimerAgent(s: State, l: Label, i: nat)
    requires LogOk(s) && Enabled(s, l) && l.Fire? && TimerOk(s, l.timer) && 2 * |s.replicas| <= |s.agents|
    ensures var t := Apply(s, l); AgentOk(t, |s.agents|) && AgentOpOk(t, |s.agents|, i) && AgentPassOk(t, |s.agents|)
  {
  }

  lemma NewMessageAgent(s: State, l: Label, i: nat)
    requires LogOk(s) && Enabled(s, l) && l.StartMessage? && PeerOk(s, l.peer) && 2 * |s.replicas| <= |s.agents|
    ensures var t := Apply(s, l); AgentOk(t, |s.agents|) && AgentOpOk(t, |s.agents|, i) && AgentPassOk(t, |s.agents|)
  {
  }

  lemma NewCastAgent(s: State, l: Label, i: nat)
    requires LogOk(s) && Enabled(s, l) && l.StartCast? && 2 * |s.replicas| <= |s.agents|
    ensures var t := Apply(s, l); AgentOk(t, |s.agents|) && AgentOpOk(t, |s.agents|, i) && AgentPassOk(t, |s.agents|)
  {
  }

  lemma NewSend(s: State, l: Label, e: nat)
    requires Structure(s) && Enabled(s, l) && StartStep(l) && |s.sends| <= e
    ensures SendOk(Apply(s, l), e)
  {
    if l.Fire? {
      assert TimerOk(s, l.timer);
    } else if l.StartMessage? {
      assert PeerOk(s, l.peer);
    }
  }

  lemma NewPeer(s: State, l: Label)
    requires Structure(s) && Enabled(s, l) && l.Connect?
    ensures PeerOk(Apply(s, l), |s.peers|) && StageOk(Apply(s, l), |s.peers|)
  {
    assert AgentOpOk(s, l.replica, 0);
  }

  lemma StartCounts(s: State, l: Label)
    requires Enabled(s, l) && StartStep(l)
    ensures var t := Apply(s, l);
      && (l.Connect? ==> |t.peers| == |s.peers| + 1 && |t.agents| == |s.agents|)
      && (!l.Connect? ==> |t.peers| == |s.peers| && |t.agents| == |s.agents| + 1)
  {
  }

  lemma StartKept(s: State, l: Label)
    requires Structure(s) && Enabled(s, l) && StartStep(l)
    ensures Structure(Apply(s, l))
  {
    var t := Apply(s, l);
    StartExtends(s, l);
    StartCounts(s, l);
    LogAndTimersKept(s, l);
    forall a: nat ensures AgentOk(t, a) && AgentPassOk(t, a) {
      if a < |s.agents| { OldAgent(s, t, a); } else if !l.Connect? && a == |s.agents| { NewAgent(s, l, 0); }
    }
    forall a: nat, i: nat ensures AgentOpOk(t, a, i) {
      if a < |s.agents| { OldOp(s, t, a, i); } else if !l.Connect? && a == |s.agents| { NewAgent(s, l, i); }
    }
    forall e: nat ensures SendOk(t, e) {
      if e < |s.sends| { OldSend(s, t, e); } else { NewSend(s, l, e); }
    }
    forall r ensures ReplicaOk(t, r) { OldReplica(s, t, r); }
    forall p: nat ensures PeerOk(t, p) && StageOk(t, p) {
      if p < |s.peers| { OldPeer(s, t, p); } else if l.Connect? && p == |s.peers| { NewPeer(s, l); }
    }
  }

  // ---------------------------------------------------------------- the hub's own steps

  /** The connection the hub loop of replica r is registering or unregistering. */
  function Subject(s: State, r: nat): nat
    requires r < |s.agents| && s.agents[r].ops != [] && (s.agents[r].ops[0].Enlist? || s.agents[r].ops[0].Strike?)
  {
    s.agents[r].ops[0].peer
  }

  /** One replica's hub loop works on one of its connections; nobody holds its read lock. */
  ghost predicate HubMove(s: State, t: State, r: nat, p: nat) {
    && r < |s.replicas| && r < |s.agents| && p < |s.peers|
    && t.log == s.log && t.failed == s.failed && t.timers == s.timers
    && |t.replicas| == |s.replicas| && |t.agents| == |s.agents| && |t.peers| == |s.peers|
    && (t.sends == s.sends
        || exists b :: t.sends == s.sends + [Sent(r, r, Everyone, b)] && !b.Ack?)
    && t.agents == s.agents[r := t.agents[r]]
    && t.agents[r].replica == s.agents[r].replica && t.agents[r].owner == s.agents[r].owner
    && t.agents[r].pass == s.agents[r].pass == None
    && t.replicas == s.replicas[r := t.replicas[r]]
    && t.replicas[r].cursor == s.replicas[r].cursor && t.replicas[r].skipped == s.replicas[r].skipped
    && t.peers == s.peers[p := t.peers[p]]
    && t.peers[p].replica == s.peers[p].replica && t.peers[p].user == s.peers[p].user
    && t.peers[p].phase == s.peers[p].phase
    && Unlocked(s, r)
    && s.peers[p].replica == r
  }

  /** A connection the hub loop is about to enlist is outside, one it is about to strike is
      listed, and the loop has nothing else to do. */
  ghost predicate AtHub(s: State, l: Label) {
    && Enabled(s, l) && HubStep(l)
    && var p, r := Subject(s, l.replica), l.replica;
    && PeerOk(s, p) && StageOk(s, p) && s.agents[r].ops == [s.agents[r].ops[0]]
    && s.peers[p].replica == r && s.agents[r].replica == r && s.agents[r].owner.None?
    && s.peers[p].stage == (if l.DoEnlist? then Outside else Listed)
    && (l.DoStrike? ==> s.peers[p].user in s.replicas[r].clients)
  }

  lemma HubIsThere(s: State, l: Label)
    requires Structure(s) && Enabled(s, l) && HubStep(l)
    ensures AtHub(s, l)
  {
    var p := Subject(s, l.replica);
    assert AgentOk(s, l.replica) && AgentOpOk(s, l.replica, 0);
    assert PeerOk(s, p) && StageOk(s, p) && ReplicaOk(s, l.replica);
  }

  lemma HubMoves(s: State, l: Label)
    requires AtHub(s, l)
    ensures HubMove(s, Apply(s, l), l.replica, Subject(s, l.replica))
  {
    if l.DoEnlist? { EnlistMoves(s, l); } else { StrikeMoves(s, l); }
  }

  lemma EnlistMoves(s: State, l: Label)
    requires AtHub(s, l) && l.DoEnlist?
    ensures HubMove(s, Apply(s, l), l.replica, Subject(s, l.replica))
  {
  }

  lemma StrikeMoves(s: State, l: Label)
    requires AtHub(s, l) && l.DoStrike?
    ensures HubMove(s, Apply(s, l), l.replica, Subject(s, l.replica))
  {
  }

  /** The hub loop announces that user u came or went, or has nothing more to do. */
  ghost predicate Announces(s: State, t: State, r: nat, body: Body, first: seq<Op>, last: bool)
    requires r < |t.agents|
  {
    var e := |s.sends|;
    if last then t.sends == s.sends + [Sent(r, r, Everyone, body)] && t.agents[r].ops == first + [Local(e), Publish(e)]
    else t.sends == s.sends && t.agents[r].ops == []
  }

  /** Connection p has joined the map of replica r. */
  ghost predicate JoinedMap(s: State, t: State, r: nat, p: nat) {
    && r < |s.replicas| && r < |t.replicas| && r < |t.agents| && p < |s.peers| && p < |t.peers|
    && var x, R := s.peers[p], s.replicas[r];
    && x.stage == Outside && t.peers[p] == x.(stage := Listed, regAt := |s.sends|)
    && t.replicas[r] == R.(clients := R.clients[x.user := Conns(R.clients, x.user) + {p}])
    && Announces(s, t, r, Online(x.user), [], Conns(R.clients, x.user) == {})
  }

  /** Connection p has left it. */
  ghost predicate LeftMap(s: State, t: State, r: nat, p: nat) {
    && r < |s.replicas| && r < |t.replicas| && r < |t.agents| && p < |s.peers| && p < |t.peers|
    && var x, R := s.peers[p], s.replicas[r];
    && x.stage == Listed && x.user in R.clients && t.peers[p] == x.(stage := Removed, conn := x.conn.Close())
    && var after := R.clients[x.user] - {p};
    && t.replicas[r] == R.(clients := if after == {} then R.clients - {x.user} else R.clients[x.user := after])
    && Announces(s, t, r, Offline(x.user), [LastSeen(x.user)], after == {})
  }

  /** All that the hub loop's own step does. */
  ghost predicate HubTurn(s: State, t: State, r: nat, p: nat) {
    HubMove(s, t, r, p) && (JoinedMap(s, t, r, p) || LeftMap(s, t, r, p))
  }

  lemma EnlistJoins(s: State, l: Label)
    requires AtHub(s, l) && l.DoEnlist?
    ensures JoinedMap(s, Apply(s, l), l.replica, Subject(s, l.replica))
  {
  }

  lemma StrikeLeaves(s: State, l: Label)
    requires AtHub(s, l) && l.DoStrike?
    ensures LeftMap(s, Apply(s, l), l.replica, Subject(s, l.replica))
  {
  }

  lemma HubTurns(s: State, l: Label)
    requires AtHub(s, l)
    ensures HubTurn(s, Apply(s, l), l.replica, Subject(s, l.replica))
    ensures if l.DoEnlist? then JoinedMap(s, Apply(s, l), l.replica, Subject(s, l.replica))
            else LeftMap(s, Apply(s, l), l.replica, Subject(s, l.replica))
  {
    HubMoves(s, l);
    if l.DoEnlist? { EnlistJoins(s, l); } else { StrikeLeaves(s, l); }
  }

  lemma HubAgent(s: State, t: State, r: nat, p: nat, a: nat)
    requires Structure(s) && HubMove(s, t, r, p) && a != r
    ensures AgentOk(t, a) && AgentPassOk(t, a)
  {
    assert AgentOk(s, a) && AgentPassOk(s, a);
    if a < |s.agents| && s.agents[a].pass.Some? {
      var q := s.agents[a].pass.value;
      assert s.agents[a].replica != r;
      assert EventAt(t, a, q.event);
      forall x | x in q.left ensures TargetOk(t, a, q, x) {
        assert TargetOk(s, a, q, x);
      }
    }
  }

  lemma HubOp(s: State, t: State, r: nat, p: nat, a: nat, i: nat)
    requires Structure(s) && HubMove(s, t, r, p) && a != r
    ensures AgentOpOk(t, a, i)
  {
    assert AgentOpOk(s, a, i);
  }

  /** What the hub loop does next: nothing, or a presence broadcast of its own. */
  lemma HubLoop(s: State, t: State, r: nat, p: nat)
    requires HubTurn(s, t, r, p) && s.agents[r].replica == r && s.agents[r].owner.None?
    ensures AgentOk(t, r) && AgentPassOk(t, r)
  {
  }

  lemma HubLoopOp(s: State, t: State, r: nat, p: nat, i: nat)
    requires HubTurn(s, t, r, p) && LogOk(s)
    ensures AgentOpOk(t, r, i)
  {
    assert |s.sends| !in s.log && |s.sends| !in s.failed;
  }

  lemma HubSend(s: State, t: State, r: nat, p: nat, e: nat)
    requires Structure(s) && HubMove(s, t, r, p)
    ensures SendOk(t, e)
  {
    assert SendOk(s, e);
    assert AgentOk(s, r);
  }

  lemma HubReplica(s: State, t: State, r: nat, p: nat, x: nat)
    requires HubTurn(s, t, r, p) && ReplicaOk(s, x)
    ensures ReplicaOk(t, x)
  {
    if x < |t.replicas| {
      forall u, q | u in t.replicas[x].clients && q in t.replicas[x].clients[u] ensures ListedAs(t, q, x, u) {
        assert q != p ==> u in s.replicas[x].clients && q in s.replicas[x].clients[u] && ListedAs(s, q, x, u);
        if q == p { HubSubject(s, t, r, p, x, u); }
      }
    }
  }

  /** The map holds p only while it is listed. */
  lemma HubSubject(s: State, t: State, r: nat, p: nat, x: nat, u: UserId)
    requires HubTurn(s, t, r, p) && ReplicaOk(s, x) && x < |t.replicas|
    requires u in t.replicas[x].clients && p in t.replicas[x].clients[u]
    ensures ListedAs(t, p, x, u)
  {
    if u in s.replicas[x].clients && p in s.replicas[x].clients[u] {
      assert ListedAs(s, p, x, u);
    }
  }

  lemma HubPeer(s: State, t: State, r: nat, p: nat, x: nat)
    requires HubTurn(s, t, r, p) && PeerOk(s, x)
    ensures PeerOk(t, x)
  {
    if x == p {
      CloseKeeps(s.peers[p].conn);
    }
  }

  lemma HubStage(s: State, t: State, r: nat, p: nat, x: nat)
    requires HubTurn(s, t, r, p) && StageOk(s, x) && StageOk(s, p) && |s.agents[r].ops| == 1
    requires s.agents[r].ops[0] == if s.peers[p].stage == Outside then Enlist(p) else Strike(p)
    ensures StageOk(t, x)
  {
    if x == p { HubStageOfSubject(s, t, r, p); } else { HubStageOfOther(s, t, r, p, x); }
  }

  lemma HubStageOfSubject(s: State, t: State, r: nat, p: nat)
    requires HubTurn(s, t, r, p) && StageOk(s, p) && |s.agents[r].ops| == 1
    requires s.agents[r].ops[0] == if s.peers[p].stage == Outside then Enlist(p) else Strike(p)
    ensures StageOk(t, p)
  {
  }

  lemma HubStageOfOther(s: State, t: State, r: nat, p: nat, x: nat)
    requires HubTurn(s, t, r, p) && StageOk(s, x) && x != p && |s.agents[r].ops| == 1
    requires s.agents[r].ops[0] == if s.peers[p].stage == Outside then Enlist(p) else Strike(p)
    ensures StageOk(t, x)
  {
  }

  lemma HubKept(s: State, l: Label)
    requires Structure(s) && Enabled(s, l) && HubStep(l)
    ensures Structure(Apply(s, l))
  {
    var t, r := Apply(s, l), l.replica;
    var p := Subject(s, r);
    HubIsThere(s, l);
    HubTurns(s, l);
    NoPanic(s, l);
    LogAndTimersKept(s, l);
    forall a: nat ensures AgentOk(t, a) && AgentPassOk(t, a) {
      if a == r { HubLoop(s, t, r, p); } else { HubAgent(s, t, r, p, a); }
    }
    forall a: nat, i: nat ensures AgentOpOk(t, a, i) {
      if a == r { HubLoopOp(s, t, r, p, i); } else { HubOp(s, t, r, p, a, i); }
    }
    forall e: nat ensures SendOk(t, e) { HubSend(s, t, r, p, e); }
    forall x ensures ReplicaOk(t, x) { HubReplica(s, t, r, p, x); }
    forall x ensures PeerOk(t, x) { HubPeer(s, t, r, p, x); }
    forall x ensures StageOk(t, x) { HubStage(s, t, r, p, x); }
  }
}
