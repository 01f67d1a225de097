/** Every inner step keeps the structural part of the invariant. */
module FabricStructure {
  import opened Basics
  import opened Connections
  import opened Fabric
  import opened FabricInv
  import opened FabricEffects

  lemma TimerKept(s: State, l: Label, t: nat)
    requires Enabled(s, l) && TimerOk(s, t) && TimerOk(s, t + 1)
    requires l.DoArm? ==> AgentOk(s, l.agent) && AgentOpOk(s, l.agent, 0)
    ensures TimerOk(Apply(s, l), t)
  {
    if PassStep(l) {
      LoopTimers(s, l);
    }
  }

  lemma LoopTimers(s: State, l: Label)
    requires Enabled(s, l) && PassStep(l)
    ensures Apply(s, l).timers == s.timers && Apply(s, l).replicas == s.replicas
  {
  }

  /** No step sends on a closed channel or closes one twice. */
  lemma NoPanic(s: State, l: Label)
    requires Structure(s) && Enabled(s, l)
    ensures !Apply(s, l).panicked
  {
    if l.ReplyError? {
      assert PeerOk(s, l.peer) && StageOk(s, l.peer);
    } else if l.OfferTo? {
      assert AgentPassOk(s, l.agent);
      assert TargetOk(s, l.agent, s.agents[l.agent].pass.value, l.peer);
      assert PeerOk(s, l.peer);
    } else if l.DoStrike? {
      var p := s.agents[l.replica].ops[0].peer;
      assert AgentOpOk(s, l.replica, 0);
      assert PeerOk(s, p) && StageOk(s, p);
    }
  }

  // ---------------------------------------------------------------- the log

  lemma LogGrows(s: State, l: Label)
    requires Enabled(s, l)
    ensures var t := Apply(s, l);
      && s.sends <= t.sends
      && ((t.log == s.log && t.failed == s.failed)
          || (l.DoPublish? && t.log == s.log && t.failed == s.failed + {s.agents[l.agent].ops[0].event})
          || (l.DoPublish? && t.log == s.log + [s.agents[l.agent].ops[0].event] && t.failed == s.failed))
  {
    if PassStep(l) {
      LoopsDoNotLog(s, l);
    } else if !l.DoPublish? {
      OthersDoNotLog(s, l);
    }
  }

  lemma OthersDoNotLog(s: State, l: Label)
    requires Enabled(s, l) && !PassStep(l) && !l.DoPublish?
    ensures var t := Apply(s, l); s.sends <= t.sends && t.log == s.log && t.failed == s.failed
  {
    if Inner(l) { InnersDoNotLog(s, l); } else if StartStep(l) { StartsDoNotLog(s, l); } else { HubsDoNotLog(s, l); }
  }

  lemma InnersDoNotLog(s: State, l: Label)
    requires Enabled(s, l) && Inner(l) && !PassStep(l) && !l.DoPublish?
    ensures var t := Apply(s, l); t.sends == s.sends && t.log == s.log && t.failed == s.failed
  {
  }

  lemma StartsDoNotLog(s: State, l: Label)
    requires Enabled(s, l) && StartStep(l)
    ensures var t := Apply(s, l); s.sends <= t.sends && t.log == s.log && t.failed == s.failed
  {
  }

  lemma HubsDoNotLog(s: State, l: Label)
    requires Enabled(s, l) && HubStep(l)
    ensures var t := Apply(s, l); s.sends <= t.sends && t.log == s.log && t.failed == s.failed
  {
  }

  lemma LoopsDoNotLog(s: State, l: Label)
    requires Enabled(s, l) && PassStep(l)
    ensures var t := Apply(s, l); t.sends == s.sends && t.log == s.log && t.failed == s.failed
  {
  }

  lemma LogKept(s: State, l: Label)
    requires Enabled(s, l) && LogOk(s)
    requires l.DoPublish? ==> AgentOpOk(s, l.agent, 0)
    ensures LogOk(Apply(s, l))
  {
    LogGrows(s, l);
  }

  /** An event that agent `a` has still to publish is not in the log after the step either. */
  lemma UnpublishedStays(s: State, l: Label, a: nat, i: nat)
    requires Structure(s) && Enabled(s, l) && Inner(l)
    requires a < |s.agents| && i < |s.agents[a].ops| && s.agents[a].ops[i].Publish?
    requires l.DoPublish? && a == l.agent ==> i > 0
    ensures s.agents[a].ops[i].event !in Apply(s, l).log
    ensures s.agents[a].ops[i].event !in Apply(s, l).failed
  {
    assert AgentOpOk(s, a, i);
    if l.DoPublish? {
      assert AgentOpOk(s, l.agent, 0);
      assert AgentOk(s, a);
    }
  }

  // ---------------------------------------------------------------- agents

  lemma NewOp(s: State, l: Label, a: nat)
    requires Enabled(s, l) && Inner(l) && a < |s.agents| && a < |Apply(s, l).agents|
    requires s.agents[a].ops == [] && Apply(s, l).agents[a].ops != []
    requires l.RecvRegister? || l.RecvUnregister? ==> StageOk(s, l.peer)
    ensures AgentOpOk(Apply(s, l), a, 0)
  {
    if l.RecvRegister? || l.RecvUnregister? {
      ReceivedOp(s, l, a);
    } else if l.TakeLog? {
      TakenOp(s, l, a);
    } else {
      NoNewOp(s, l, a);
    }
  }

  lemma ReceivedOp(s: State, l: Label, a: nat)
    requires Enabled(s, l) && (l.RecvRegister? || l.RecvUnregister?) && StageOk(s, l.peer)
    requires a < |s.agents| && s.agents[a].ops == [] && Apply(s, l).agents[a].ops != []
    ensures AgentOpOk(Apply(s, l), a, 0)
  {
  }

  lemma TakenOp(s: State, l: Label, a: nat)
    requires Enabled(s, l) && l.TakeLog? && a < |s.agents| && s.agents[a].ops == [] && Apply(s, l).agents[a].ops != []
    ensures AgentOpOk(Apply(s, l), a, 0)
  {
  }

  lemma NoNewOp(s: State, l: Label, a: nat)
    requires Enabled(s, l) && Inner(l) && !l.RecvRegister? && !l.RecvUnregister? && !l.TakeLog?
    requires a < |s.agents| && s.agents[a].ops == []
    ensures a < |Apply(s, l).agents| && Apply(s, l).agents[a].ops == []
  {
  }

  lemma OpKept(s: State, l: Label, a: nat, i: nat)
    requires Structure(s) && Enabled(s, l) && Inner(l) && Stays(s, Apply(s, l))
    ensures AgentOpOk(Apply(s, l), a, i)
  {
    var t := Apply(s, l);
    if a < |t.agents| && i < |t.agents[a].ops| {
      var ops := s.agents[a].ops;
      assert AgentStays(s, t, a);
      if ops == [] {
        if l.RecvRegister? || l.RecvUnregister? {
          assert StageOk(s, l.peer);
        }
        NewOp(s, l, a);
      } else {
        var j := if t.agents[a].ops == ops then i else i + 1;
        assert t.agents[a].ops[i] == ops[j];
        assert AgentOpOk(s, a, j);
        if ops[j].Publish? {
          PublishedIsPopped(s, l);
          UnpublishedStays(s, l, a, j);
        }
        OpStays(s, t, a, ops[j]);
      }
    }
  }

  lemma PublishedIsPopped(s: State, l: Label)
    requires Enabled(s, l)
    ensures l.DoPublish? ==>
              s.agents[l.agent].ops != [] && Apply(s, l).agents[l.agent].ops == s.agents[l.agent].ops[1..]
  {
  }

  /** A step other than those of a delivery loop leaves every loop in progress alone. */
  lemma PassUntouched(s: State, l: Label, a: nat)
    requires Enabled(s, l) && Inner(l) && a < |s.agents|
    requires !PassStep(l) || a != l.agent
    ensures Apply(s, l).agents[a].pass == s.agents[a].pass
    ensures s.agents[a].pass.Some? ==> Apply(s, l).agents[a].ops == s.agents[a].ops
  {
    if PassStep(l) { LoopPassUntouched(s, l, a); } else { OtherPassUntouched(s, l, a); }
  }

  lemma LoopPassUntouched(s: State, l: Label, a: nat)
    requires Enabled(s, l) && Inner(l) && a < |s.agents|
    requires !PassStep(l) || a != l.agent
    requires PassStep(l)
    ensures Apply(s, l).agents[a].pass == s.agents[a].pass
    ensures s.agents[a].pass.Some? ==> Apply(s, l).agents[a].ops == s.agents[a].ops
  {
  }

  lemma OtherPassUntouched(s: State, l: Label, a: nat)
    requires Enabled(s, l) && Inner(l) && a < |s.agents|
    requires !PassStep(l) || a != l.agent
    requires !PassStep(l)
    ensures Apply(s, l).agents[a].pass == s.agents[a].pass
    ensures s.agents[a].pass.Some? ==> Apply(s, l).agents[a].ops == s.agents[a].ops
  {
  }

  lemma PassKept(s: State, l: Label, a: nat)
    requires Structure(s) && Enabled(s, l) && Inner(l) && Stays(s, Apply(s, l))
    requires !PassStep(l) || a != l.agent
    ensures AgentPassOk(Apply(s, l), a)
  {
    var t := Apply(s, l);
    assert AgentPassOk(s, a);
    if a < |s.agents| && s.agents[a].pass.Some? {
      PassUntouched(s, l, a);
      PassStays(s, t, a, s.agents[a].pass.value);
    } else if a < |s.agents| {
      PassUntouched(s, l, a);
    }
  }

  /** Two connections in one replica's map are listed under their own users. */
  lemma MapIsExact(s: State, r: nat, u: UserId, p: nat)
    requires ReplicaOk(s, r) && r < |s.replicas| && p in Conns(s.replicas[r].clients, u)
    ensures ListedAs(s, p, r, u)
  {
  }

  lemma BeginKept(s: State, l: Label)
    requires Structure(s) && Enabled(s, l) && l.BeginPass?
    ensures AgentPassOk(Apply(s, l), l.agent)
  {
    var t, a := Apply(s, l), l.agent;
    var g := s.agents[a];
    assert AgentOpOk(s, a, 0) && AgentOk(s, a) && SendOk(s, g.ops[0].event);
    var q := t.agents[a].pass.value;
    forall p | p in q.left ensures TargetOk(t, a, q, p) {
      var u :| u in s.replicas[g.replica].clients && p in s.replicas[g.replica].clients[u];
      assert ReplicaOk(s, g.replica);
      MapIsExact(s, g.replica, u, p);
    }
    forall i | 0 <= i < |t.agents[a].ops| ensures AfterPass(t.agents[a].ops[i], q.event) {
      assert t.agents[a].ops[i] == g.ops[i + 1];
    }
  }

  lemma NextKept(s: State, l: Label)
    requires Structure(s) && Enabled(s, l) && l.NextUser?
    ensures AgentPassOk(Apply(s, l), l.agent)
  {
    var t, a := Apply(s, l), l.agent;
    var g := s.agents[a];
    assert AgentPassOk(s, a) && AgentOk(s, a);
    var q, q' := g.pass.value, t.agents[a].pass.value;
    assert q.rest[0] in q.rest && q.rest[0] !in q'.rest;
    assert EventAt(t, a, q'.event);
    assert ReplicaOk(s, g.replica);
    forall p | p in q'.left ensures TargetOk(t, a, q', p) {
      MapIsExact(s, g.replica, q.rest[0], p);
    }
  }

  lemma OfferKept(s: State, l: Label)
    requires Structure(s) && Enabled(s, l) && l.OfferTo?
    ensures AgentPassOk(Apply(s, l), l.agent)
  {
    var t, a := Apply(s, l), l.agent;
    assert AgentPassOk(s, a);
    var q, q' := s.agents[a].pass.value, t.agents[a].pass.value;
    assert TargetOk(s, a, q, l.peer);
    assert EventAt(t, a, q'.event);
    forall p | p in q'.left ensures TargetOk(t, a, q', p) {
      assert TargetOk(s, a, q, p);
    }
    assert q.event in t.peers[l.peer].conn.offered by {
      var o := t.peers[l.peer].conn.offered;
      assert o[|o| - 1] == q.event;
    }
  }

  lemma EndKept(s: State, l: Label)
    requires Structure(s) && Enabled(s, l) && (l.Disconnect? || l.EndPass?)
    ensures AgentPassOk(Apply(s, l), l.agent)
  {
    var t, a := Apply(s, l), l.agent;
    assert AgentPassOk(s, a);
    if l.Disconnect? {
      var q, q' := s.agents[a].pass.value, t.agents[a].pass.value;
      assert EventAt(t, a, q'.event);
      forall p | p in q'.left ensures TargetOk(t, a, q', p) {
        assert TargetOk(s, a, q, p);
      }
    }
  }

  // ---------------------------------------------------------------- connections

  lemma PumpKept(s: State, l: Label, p: nat)
    requires PeerOk(s, p) && Enabled(s, l) && p < |s.peers|
    requires (l.ReplyError? || l.PumpTake? || l.PumpWrite? || l.PumpStop? || l.DeferCancel?) && l.peer == p
    ensures PeerOk(Apply(s, l), p)
  {
    var c := s.peers[p].conn;
    match l {
      case ReplyError(_, tag) => TrySendKeeps(c, tag);
      case PumpTake(_) => DequeueKeeps(c);
      case PumpWrite(_) => WriteKeeps(c);
      case PumpStop(_) => StopPumpKeeps(c);
      case DeferCancel(_) => CancelKeeps(c);
    }
  }

  lemma DelivererIs(s: State, a: nat, e: nat)
    requires Structure(s) && a < |s.agents| && EventAt(s, a, e)
    ensures Deliverer(s, e, s.agents[a].replica) == a
  {
    assert AgentOk(s, a) && SendOk(s, e);
  }

  lemma OfferedPeerKept(s: State, l: Label)
    requires Structure(s) && Enabled(s, l) && l.OfferTo?
    requires OfferOk(s, l.peer, s.agents[l.agent].pass.value.event)
    ensures PeerOk(Apply(s, l), l.peer)
  {
    var q, p := s.agents[l.agent].pass.value, l.peer;
    assert PeerOk(s, p) && AgentPassOk(s, l.agent) && AgentOk(s, l.agent);
    assert TargetOk(s, l.agent, q, p);
    DelivererIs(s, l.agent, q.event);
    OfferKeeps(s.peers[p].conn, q.event);
  }

  lemma DisconnectedPeerKept(s: State, l: Label)
    requires Structure(s) && Enabled(s, l) && l.Disconnect?
    ensures PeerOk(Apply(s, l), s.agents[l.agent].pass.value.drop.value)
  {
    var p := s.agents[l.agent].pass.value.drop.value;
    assert PeerOk(s, p);
    CancelKeeps(s.peers[p].conn);
  }

  /** The connection a step works on, if any. */
  function Touched(s: State, l: Label): Option<nat> {
    match l
    case OfferTo(_, p) => Some(p)
    case Disconnect(a) =>
      if a < |s.agents| && s.agents[a].pass.Some? then s.agents[a].pass.value.drop else None
    case ReplyError(p, _) => Some(p)
    case DeferCancel(p) => Some(p)
    case PumpTake(p) => Some(p)
    case PumpWrite(p) => Some(p)
    case PumpStop(p) => Some(p)
    case _ => None
  }

  lemma UntouchedConn(s: State, l: Label, p: nat)
    requires Enabled(s, l) && Inner(l) && p < |s.peers| && Touched(s, l) != Some(p)
    ensures p < |Apply(s, l).peers| && Apply(s, l).peers[p].conn == s.peers[p].conn
    ensures Apply(s, l).peers[p].phase == Gone ==> s.peers[p].phase == Gone
  {
    if PassStep(l) { LoopUntouchedConn(s, l, p); } else { OtherUntouchedConn(s, l, p); }
  }

  lemma LoopUntouchedConn(s: State, l: Label, p: nat)
    requires Enabled(s, l) && Inner(l) && p < |s.peers| && Touched(s, l) != Some(p)
    requires PassStep(l)
    ensures p < |Apply(s, l).peers| && Apply(s, l).peers[p].conn == s.peers[p].conn
    ensures Apply(s, l).peers[p].phase == Gone ==> s.peers[p].phase == Gone
  {
  }

  lemma OtherUntouchedConn(s: State, l: Label, p: nat)
    requires Enabled(s, l) && Inner(l) && p < |s.peers| && Touched(s, l) != Some(p)
    requires !PassStep(l)
    ensures p < |Apply(s, l).peers| && Apply(s, l).peers[p].conn == s.peers[p].conn
    ensures Apply(s, l).peers[p].phase == Gone ==> s.peers[p].phase == Gone
  {
  }

  lemma PeerKept(s: State, l: Label, p: nat)
    requires Structure(s) && Enabled(s, l) && Inner(l) && Stays(s, Apply(s, l))
    requires l.OfferTo? ==> OfferOk(s, l.peer, s.agents[l.agent].pass.value.event)
    ensures PeerOk(Apply(s, l), p)
  {
    assert PeerOk(s, p);
    assert PeerStays(s, Apply(s, l), p);
    if p >= |s.peers| {
    } else if Touched(s, l) != Some(p) {
      UntouchedConn(s, l, p);
    } else if l.OfferTo? {
      OfferedPeerKept(s, l);
    } else if l.Disconnect? {
      DisconnectedPeerKept(s, l);
    } else {
      PumpKept(s, l, p);
    }
  }

  // ---------------------------------------------------------------- stages

  predicate PhaseStep(l: Label) {
    l.RecvRegister? || l.RecvUnregister? || l.ReadFails? || l.DeferCancel?
  }

  lemma StageKeptPhase(s: State, l: Label, p: nat)
    requires Structure(s) && Enabled(s, l) && PhaseStep(l)
    ensures StageOk(Apply(s, l), p)
  {
    assert StageOk(s, p);
    assert StageOk(s, l.peer);
  }

  lemma PhaseUntouched(s: State, l: Label, p: nat)
    requires Enabled(s, l) && Inner(l) && !PhaseStep(l) && p < |s.peers|
    ensures p < |Apply(s, l).peers| && Apply(s, l).peers[p].phase == s.peers[p].phase
  {
  }

  /** Outside the hub's own steps the head of a hub loop's list is no `Enlist` or `Strike`
      that was not there before. */
  lemma HeadUntouched(s: State, l: Label, r: nat, o: Op)
    requires Enabled(s, l) && Inner(l) && !PhaseStep(l) && (o.Enlist? || o.Strike?)
    requires r < |s.replicas| && AgentOk(s, r)
    ensures Doing(Apply(s, l), r, o) <==> Doing(s, r, o)
  {
    if PassStep(l) {
      HeadUntouchedByLoop(s, l, r, o);
    }
  }

  lemma HeadUntouchedByLoop(s: State, l: Label, r: nat, o: Op)
    requires Enabled(s, l) && PassStep(l) && (o.Enlist? || o.Strike?)
    requires r < |s.replicas| && AgentOk(s, r)
    ensures Doing(Apply(s, l), r, o) <==> Doing(s, r, o)
  {
  }

  lemma StageKept(s: State, l: Label, p: nat)
    requires Structure(s) && Enabled(s, l) && Inner(l) && Stays(s, Apply(s, l))
    ensures StageOk(Apply(s, l), p)
  {
    var t := Apply(s, l);
    if PhaseStep(l) {
      StageKeptPhase(s, l, p);
    } else if p < |s.peers| {
      assert StageOk(s, p);
      assert PeerStays(s, t, p);
      PhaseUntouched(s, l, p);
      assert AgentOk(s, s.peers[p].replica);
      HeadUntouched(s, l, s.peers[p].replica, Enlist(p));
      HeadUntouched(s, l, s.peers[p].replica, Strike(p));
      assert ReplicaStays(s, t, s.peers[p].replica);
    }
  }

  // ---------------------------------------------------------------- all together

  lemma AgentsKept(s: State, l: Label, t: State, a: nat)
    requires Structure(s) && Enabled(s, l) && Inner(l) && t == Apply(s, l) && Stays(s, t)
    ensures AgentPassOk(t, a)
  {
    if PassStep(l) && a == l.agent {
      match l {
        case BeginPass(_) => BeginKept(s, l);
        case NextUser(_) => NextKept(s, l);
        case OfferTo(_, _) => OfferKept(s, l);
        case Disconnect(_) => EndKept(s, l);
        case EndPass(_) => EndKept(s, l);
      }
    } else {
      PassKept(s, l, a);
    }
  }

  lemma LogAndTimersKept(s: State, l: Label)
    requires Structure(s) && Enabled(s, l)
    ensures LogOk(Apply(s, l)) && forall x :: TimerOk(Apply(s, l), x)
  {
    if l.DoPublish? {
      assert AgentOpOk(s, l.agent, 0);
    }
    LogKept(s, l);
    forall x: nat ensures TimerOk(Apply(s, l), x) {
      assert TimerOk(s, x) && TimerOk(s, x + 1);
      if l.DoArm? {
        assert AgentOk(s, l.agent) && AgentOpOk(s, l.agent, 0);
      }
      TimerKept(s, l, x);
    }
  }

  lemma StructureKept(s: State, l: Label)
    requires Structure(s) && Enabled(s, l) && Inner(l)
    requires l.OfferTo? ==> OfferOk(s, l.peer, s.agents[l.agent].pass.value.event)
    ensures Structure(Apply(s, l))
  {
    var t := Apply(s, l);
    InnerStays(s, l);
    NoPanic(s, l);
    LogAndTimersKept(s, l);
    forall a: nat ensures AgentOk(t, a) { AgentKept(s, t, a); }
    forall a: nat, i: nat ensures AgentOpOk(t, a, i) { OpKept(s, l, a, i); }
    forall a: nat ensures AgentPassOk(t, a) { AgentsKept(s, l, t, a); }
    forall e: nat ensures SendOk(t, e) { SendStays(s, t, e); }
    forall r: nat ensures ReplicaOk(t, r) { ReplicaKept(s, t, r); }
    forall p: nat ensures PeerOk(t, p) { PeerKept(s, l, p); }
    forall p: nat ensures StageOk(t, p) { StageKept(s, l, p); }
  }
}
