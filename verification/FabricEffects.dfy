/** What a step leaves alone, stated once so that the invariant proofs need not look at the
    step itself. A step is inner unless it begins sends or changes who is connected. */
module FabricEffects {
  import opened Basics
  import opened Fabric
  import opened FabricInv

  predicate HubStep(l: Label) {
    l.DoEnlist? || l.DoStrike?
  }

  predicate StartStep(l: Label) {
    l.Connect? || l.StartMessage? || l.StartCast? || l.Fire?
  }

  predicate Inner(l: Label) {
    !HubStep(l) && !StartStep(l)
  }

  predicate PassStep(l: Label) {
    l.BeginPass? || l.NextUser? || l.OfferTo? || l.Disconnect? || l.EndPass?
  }

  /** An operation list is kept, loses its head, or was empty and gets one operation. */
  ghost predicate OpsMove(ops: seq<Op>, ops': seq<Op>) {
    ops' == ops || (ops != [] && ops' == ops[1..]) || (ops == [] && |ops'| == 1)
  }

  ghost predicate AgentStays(s: State, t: State, a: nat) {
    a < |s.agents| && a < |t.agents| ==>
      && t.agents[a].replica == s.agents[a].replica
      && t.agents[a].owner == s.agents[a].owner
      && OpsMove(s.agents[a].ops, t.agents[a].ops)
  }

  ghost predicate PeerStays(s: State, t: State, p: nat) {
    p < |s.peers| && p < |t.peers| ==>
      var x, y := s.peers[p], t.peers[p];
      && y.replica == x.replica && y.user == x.user && y.stage == x.stage && y.regAt == x.regAt
      && y.conn.open == x.conn.open && x.conn.offered <= y.conn.offered
  }

  ghost predicate ReplicaStays(s: State, t: State, r: nat) {
    r < |s.replicas| && r < |t.replicas| ==>
      && t.replicas[r].clients == s.replicas[r].clients
      && s.replicas[r].cursor <= t.replicas[r].cursor
      && (s.replicas[r].cursor <= |s.log| ==> t.replicas[r].cursor <= |t.log|)
      && (t.replicas[r].cursor != s.replicas[r].cursor ==>
            && |s.replicas| + r < |s.agents| && s.agents[|s.replicas| + r].Idle()
            && t.log == s.log)
  }

  ghost predicate Stays(s: State, t: State) {
    && t.sends == s.sends && s.log <= t.log
    && |t.replicas| == |s.replicas| && |t.agents| == |s.agents| && |t.peers| == |s.peers|
    && (forall a :: AgentStays(s, t, a))
    && (forall p :: PeerStays(s, t, p))
    && (forall r :: ReplicaStays(s, t, r))
  }

  lemma InnerPeers(s: State, l: Label, p: nat)
    requires Enabled(s, l) && Inner(l)
    ensures PeerStays(s, Apply(s, l), p)
  {
    if PassStep(l) { LoopPeers(s, l, p); } else { OtherPeers(s, l, p); }
  }

  lemma LoopPeers(s: State, l: Label, p: nat)
    requires Enabled(s, l) && PassStep(l)
    ensures PeerStays(s, Apply(s, l), p)
  {
  }

  lemma OtherPeers(s: State, l: Label, p: nat)
    requires Enabled(s, l) && Inner(l) && !PassStep(l)
    ensures PeerStays(s, Apply(s, l), p)
  {
  }

  lemma InnerAgents(s: State, l: Label, a: nat)
    requires Enabled(s, l) && Inner(l)
    ensures AgentStays(s, Apply(s, l), a)
  {
    if PassStep(l) { LoopAgents(s, l, a); } else { OtherAgents(s, l, a); }
  }

  lemma LoopAgents(s: State, l: Label, a: nat)
    requires Enabled(s, l) && PassStep(l)
    ensures AgentStays(s, Apply(s, l), a)
  {
  }

  lemma OtherAgents(s: State, l: Label, a: nat)
    requires Enabled(s, l) && Inner(l) && !PassStep(l)
    ensures AgentStays(s, Apply(s, l), a)
  {
  }

  lemma InnerReplicas(s: State, l: Label, r: nat)
    requires Enabled(s, l) && Inner(l)
    ensures ReplicaStays(s, Apply(s, l), r)
  {
    if PassStep(l) { LoopReplicas(s, l, r); } else { OtherReplicas(s, l, r); }
  }

  lemma LoopReplicas(s: State, l: Label, r: nat)
    requires Enabled(s, l) && PassStep(l)
    ensures ReplicaStays(s, Apply(s, l), r)
  {
  }

  lemma OtherReplicas(s: State, l: Label, r: nat)
    requires Enabled(s, l) && Inner(l) && !PassStep(l)
    ensures ReplicaStays(s, Apply(s, l), r)
  {
    if l.TakeLog? || l.LoseLog? { CursorReplicas(s, l, r); } else { StillReplicas(s, l, r); }
  }

  lemma CursorReplicas(s: State, l: Label, r: nat)
    requires Enabled(s, l) && (l.TakeLog? || l.LoseLog?)
    ensures ReplicaStays(s, Apply(s, l), r)
  {
  }

  lemma StillReplicas(s: State, l: Label, r: nat)
    requires Enabled(s, l) && Inner(l) && !PassStep(l) && !l.TakeLog? && !l.LoseLog?
    ensures ReplicaStays(s, Apply(s, l), r)
  {
  }

  lemma InnerRest(s: State, l: Label)
    requires Enabled(s, l) && Inner(l)
    ensures var t := Apply(s, l);
      && t.sends == s.sends && s.log <= t.log
      && |t.replicas| == |s.replicas| && |t.agents| == |s.agents| && |t.peers| == |s.peers|
  {
  }

  lemma InnerStays(s: State, l: Label)
    requires Enabled(s, l) && Inner(l)
    ensures Stays(s, Apply(s, l))
  {
    var t := Apply(s, l);
    InnerRest(s, l);
    forall a ensures AgentStays(s, t, a) { InnerAgents(s, l, a); }
    forall p ensures PeerStays(s, t, p) { InnerPeers(s, l, p); }
    forall r ensures ReplicaStays(s, t, r) { InnerReplicas(s, l, r); }
  }

  // ---------------------------------------------------------------- what follows from it

  lemma SendStays(s: State, t: State, e: nat)
    requires Stays(s, t) && SendOk(s, e)
    ensures SendOk(t, e)
  {
    if e < |s.sends| {
      assert AgentStays(s, t, s.sends[e].home);
    }
  }

  lemma ReplicaKept(s: State, t: State, r: nat)
    requires Stays(s, t) && ReplicaOk(s, r)
    ensures ReplicaOk(t, r)
  {
    assert ReplicaStays(s, t, r);
    if r < |s.replicas| {
      forall u, p | u in s.replicas[r].clients && p in s.replicas[r].clients[u] ensures ListedAs(t, p, r, u) {
        assert ListedAs(s, p, r, u);
        assert PeerStays(s, t, p);
      }
    }
  }

  lemma AgentKept(s: State, t: State, a: nat)
    requires Stays(s, t) && AgentOk(s, a)
    ensures AgentOk(t, a)
  {
    assert AgentStays(s, t, a);
  }

  lemma EventStays(s: State, t: State, a: nat, e: nat)
    requires Stays(s, t) && EventAt(s, a, e) && a < |s.agents|
    requires IsBroker(s, a) ==> !s.agents[a].Idle()
    ensures EventAt(t, a, e)
  {
    if IsBroker(s, a) {
      assert ReplicaStays(s, t, a - |s.replicas|);
    }
  }

  lemma OpStays(s: State, t: State, a: nat, o: Op)
    requires Stays(s, t) && a < |s.agents| && o in s.agents[a].ops && OpOk(s, a, o)
    requires o.Publish? ==> o.event !in t.log && o.event !in t.failed
    ensures OpOk(t, a, o)
  {
    match o
    case Enlist(p) => assert PeerStays(s, t, p);
    case Strike(p) => assert PeerStays(s, t, p);
    case LastSeen(_) =>
    case Local(e) => EventStays(s, t, a, e);
    case Publish(e) => EventStays(s, t, a, e);
    case Arm(_) =>
  }

  lemma TargetStays(s: State, t: State, a: nat, q: Pass, p: nat)
    requires Stays(s, t) && TargetOk(s, a, q, p)
    ensures TargetOk(t, a, q, p)
  {
    assert AgentStays(s, t, a);
    assert PeerStays(s, t, p);
  }

  lemma PassStays(s: State, t: State, a: nat, q: Pass)
    requires Stays(s, t) && a < |s.agents| && s.agents[a].pass == Some(q) && PassOk(s, a, q)
    ensures PassOk(t, a, q)
  {
    EventStays(s, t, a, q.event);
    forall p | p in q.left ensures TargetOk(t, a, q, p) {
      TargetStays(s, t, a, q, p);
    }
    if q.drop.Some? {
      TargetStays(s, t, a, q, q.drop.value);
      assert PeerStays(s, t, q.drop.value);
    }
  }
}
