/** What the log loses, and that what it lost for a replica is never delivered there. */
module FabricLoss {
  import opened Basics
  import opened Fabric
  import opened FabricInv
  import opened FabricEffects
  import opened FabricStructure
  import opened FabricStarts
  import opened FabricDeliveryStarts
  import opened FabricTheorems

  /** Only entries a replica has come to were skipped by it. */
  ghost predicate SkippedOk(s: State, r: nat) {
    r < |s.replicas| ==> forall k :: k in s.replicas[r].skipped ==> k < s.replicas[r].cursor <= |s.log|
  }

  /** A broker loop at work has not skipped the entry it came to last. */
  ghost predicate BrokerOk(s: State, r: nat) {
    r < |s.replicas| && |s.replicas| + r < |s.agents| && !s.agents[|s.replicas| + r].Idle() ==>
      0 < s.replicas[r].cursor && s.replicas[r].cursor - 1 !in s.replicas[r].skipped
  }

  /** Replica r took event e from the log. */
  ghost predicate Taken(s: State, r: nat, e: nat) {
    r < |s.replicas| && exists k: nat :: TakenAt(s, r, e, k)
  }

  predicate TakenAt(s: State, r: nat, e: nat, k: nat)
    requires r < |s.replicas|
  {
    k < s.replicas[r].cursor && k < |s.log| && s.log[k] == e && k !in s.replicas[r].skipped
  }

  /** A foreign event that was offered to a connection was taken from the log by its replica. */
  ghost predicate TakenOk(s: State, p: nat, e: nat) {
    p < |s.peers| && e in s.peers[p].conn.offered && Remote(s, p, e) ==> Taken(s, s.peers[p].replica, e)
  }

  ghost predicate FailedOk(s: State) {
    forall e :: e in s.failed ==> e !in s.log
  }

  ghost predicate LossInv(s: State) {
    FailedOk(s) && (forall r :: SkippedOk(s, r)) && (forall r :: BrokerOk(s, r)) && (forall p, e :: TakenOk(s, p, e))
  }

  // ---------------------------------------------------------------- what a step does to all this

  /** Only two steps of its own broker loop move a replica along the log. */
  ghost predicate CursorMoves(s: State, l: Label, t: State, r: nat) {
    r < |s.replicas| ==>
      && |t.replicas| == |s.replicas|
      && var x, y := s.replicas[r], t.replicas[r];
      if l == TakeLog(r) then y.cursor == x.cursor + 1 && y.skipped == x.skipped
      else if l == LoseLog(r) then y.cursor == x.cursor + 1 && y.skipped == x.skipped + {x.cursor}
      else y.cursor == x.cursor && y.skipped == x.skipped
  }

  lemma LoopsMoveNoCursor(s: State, l: Label)
    requires Enabled(s, l) && PassStep(l)
    ensures Apply(s, l).replicas == s.replicas
  {
  }

  lemma CursorMove(s: State, l: Label, r: nat)
    requires Enabled(s, l)
    ensures CursorMoves(s, l, Apply(s, l), r)
  {
    if PassStep(l) {
      LoopsMoveNoCursor(s, l);
    } else if StartStep(l) {
      StartExtends(s, l);
    } else if HubStep(l) {
      HubMovesNoCursor(s, l, r);
    } else {
      OthersMoveCursor(s, l, r);
    }
  }

  lemma HubMovesNoCursor(s: State, l: Label, r: nat)
    requires Enabled(s, l) && HubStep(l)
    ensures CursorMoves(s, l, Apply(s, l), r)
  {
    if l.DoEnlist? { EnlistMovesNoCursor(s, l, r); } else { StrikeMovesNoCursor(s, l, r); }
  }

  lemma EnlistMovesNoCursor(s: State, l: Label, r: nat)
    requires Enabled(s, l) && l.DoEnlist?
    ensures CursorMoves(s, l, Apply(s, l), r)
  {
  }

  lemma StrikeMovesNoCursor(s: State, l: Label, r: nat)
    requires Enabled(s, l) && l.DoStrike?
    ensures CursorMoves(s, l, Apply(s, l), r)
  {
  }

  lemma OthersMoveCursor(s: State, l: Label, r: nat)
    requires Enabled(s, l) && Inner(l) && !PassStep(l)
    ensures CursorMoves(s, l, Apply(s, l), r)
  {
  }

  /** A broker loop gets work only by taking an entry. */
  lemma BrokerSleeps(s: State, l: Label, r: nat)
    requires Structure(s) && Enabled(s, l) && l != TakeLog(r)
    requires r < |s.replicas| && s.agents[|s.replicas| + r].Idle()
    ensures |s.replicas| + r < |Apply(s, l).agents| && Apply(s, l).agents[|s.replicas| + r].Idle()
  {
    var b := |s.replicas| + r;
    if StartStep(l) {
      StartExtends(s, l);
    } else if PassStep(l) {
      LoopsWakeNobody(s, l, b);
    } else if HubStep(l) {
      HubIsThere(s, l);
    } else if l.RecvRegister? || l.RecvUnregister? {
      assert PeerOk(s, l.peer);
      ReceivingWakesHub(s, l, b);
    } else {
      OthersWakeNobody(s, l, b, r);
    }
  }

  lemma LoopsWakeNobody(s: State, l: Label, b: nat)
    requires Enabled(s, l) && PassStep(l) && b < |s.agents| && s.agents[b].Idle()
    ensures b < |Apply(s, l).agents| && Apply(s, l).agents[b].Idle()
  {
  }

  lemma ReceivingWakesHub(s: State, l: Label, b: nat)
    requires Enabled(s, l) && (l.RecvRegister? || l.RecvUnregister?) && |s.replicas| <= b < |s.agents|
        && s.agents[b].Idle()
    requires s.peers[l.peer].replica < |s.replicas|
    ensures b < |Apply(s, l).agents| && Apply(s, l).agents[b].Idle()
  {
  }

  lemma OthersWakeNobody(s: State, l: Label, b: nat, r: nat)
    requires Enabled(s, l) && Inner(l) && !PassStep(l) && !l.RecvRegister? && !l.RecvUnregister?
    requires b == |s.replicas| + r && b < |s.agents| && s.agents[b].Idle() && l != TakeLog(r)
    ensures b < |Apply(s, l).agents| && Apply(s, l).agents[b].Idle()
  {
  }

  /** Only an offer of its own adds to what was offered to a connection. */
  lemma OfferedMoves(s: State, l: Label, p: nat)
    requires Structure(s) && Enabled(s, l) && p < |Apply(s, l).peers|
    ensures var t := Apply(s, l);
      if p >= |s.peers| then t.peers[p].conn.offered == []
      else
        && t.peers[p].replica == s.peers[p].replica
        && t.peers[p].conn.offered
             == s.peers[p].conn.offered + if l.OfferTo? && l.peer == p then [s.agents[l.agent].pass.value.event] else []
  {
    if StartStep(l) {
      StartExtends(s, l);
      StartsOfferNothing(s, l, p);
    } else if HubStep(l) {
      HubOffersNothing(s, l, p);
    } else if PassStep(l) {
      LoopsOffer(s, l, p);
    } else {
      OthersOfferNothing(s, l, p);
    }
  }

  lemma HubOffersNothing(s: State, l: Label, p: nat)
    requires Structure(s) && Enabled(s, l) && HubStep(l) && p < |Apply(s, l).peers|
    ensures var t := Apply(s, l);
      && |t.peers| == |s.peers| && t.peers[p].replica == s.peers[p].replica
      && t.peers[p].conn.offered == s.peers[p].conn.offered + []
  {
    HubIsThere(s, l);
    HubTurns(s, l);
  }

  lemma StartsOfferNothing(s: State, l: Label, p: nat)
    requires Enabled(s, l) && StartStep(l) && p < |Apply(s, l).peers|
    ensures p >= |s.peers| ==> Apply(s, l).peers[p].conn.offered == []
  {
  }

  lemma LoopsOffer(s: State, l: Label, p: nat)
    requires Enabled(s, l) && PassStep(l) && p < |s.peers|
    ensures var t := Apply(s, l);
      && |t.peers| == |s.peers| && t.peers[p].replica == s.peers[p].replica
      && t.peers[p].conn.offered
           == s.peers[p].conn.offered + if l.OfferTo? && l.peer == p then [s.agents[l.agent].pass.value.event] else []
  {
  }

  lemma OthersOfferNothing(s: State, l: Label, p: nat)
    requires Enabled(s, l) && Inner(l) && !PassStep(l) && p < |Apply(s, l).peers|
    ensures var t := Apply(s, l);
      && |t.peers| == |s.peers| && t.peers[p].replica == s.peers[p].replica
      && t.peers[p].conn.offered == s.peers[p].conn.offered + []
  {
  }

  // ---------------------------------------------------------------- every step keeps it

  lemma FailedKept(s: State, l: Label)
    requires Structure(s) && FailedOk(s) && Enabled(s, l)
    ensures FailedOk(Apply(s, l))
  {
    LogGrows(s, l);
    if l.DoPublish? {
      assert AgentOpOk(s, l.agent, 0);
    }
  }

  lemma SkippedKept(s: State, l: Label, r: nat)
    requires Structure(s) && SkippedOk(s, r) && Enabled(s, l)
    ensures |Apply(s, l).replicas| == |s.replicas| ==> SkippedOk(Apply(s, l), r)
  {
    if r < |s.replicas| {
      CursorMove(s, l, r);
      LogGrows(s, l);
      assert ReplicaOk(s, r);
    }
  }

  lemma BrokerKept(s: State, l: Label, r: nat)
    requires Structure(s) && SkippedOk(s, r) && BrokerOk(s, r) && Enabled(s, l) && r < |s.replicas|
    ensures |Apply(s, l).replicas| == |s.replicas| && BrokerOk(Apply(s, l), r)
  {
    CursorMove(s, l, r);
    if l != TakeLog(r) && s.agents[|s.replicas| + r].Idle() {
      BrokerSleeps(s, l, r);
    }
  }

  lemma TakenStays(s: State, l: Label, r: nat, e: nat)
    requires Enabled(s, l) && Taken(s, r, e)
    ensures Taken(Apply(s, l), r, e)
  {
    var k: nat :| TakenAt(s, r, e, k);
    CursorMove(s, l, r);
    LogGrows(s, l);
    assert TakenAt(Apply(s, l), r, e, k);
  }

  /** What a connection is offered from elsewhere, its broker loop has just taken. */
  lemma OfferedIsTaken(s: State, l: Label)
    requires Structure(s) && LossInv(s) && Enabled(s, l) && l.OfferTo?
    requires Remote(s, l.peer, s.agents[l.agent].pass.value.event)
    ensures Taken(s, s.peers[l.peer].replica, s.agents[l.agent].pass.value.event)
  {
    var a, q := l.agent, s.agents[l.agent].pass.value;
    assert AgentOk(s, a) && AgentPassOk(s, a) && SendOk(s, q.event);
    assert TargetOk(s, a, q, l.peer);
    var r := s.peers[l.peer].replica;
    assert IsBroker(s, a) && a == |s.replicas| + r;
    assert BrokerOk(s, r);
    assert TakenAt(s, r, q.event, s.replicas[r].cursor - 1);
  }

  lemma TakenKept(s: State, l: Label, p: nat, e: nat)
    requires FabricInvariant(s) && LossInv(s) && Enabled(s, l)
    ensures TakenOk(Apply(s, l), p, e)
  {
    var t := Apply(s, l);
    LogGrows(s, l);
    if p < |t.peers| && e in t.peers[p].conn.offered && Remote(t, p, e) {
      OfferedMoves(s, l, p);
      assert TakenOk(s, p, e) && OfferOk(s, p, e);
      if e !in s.peers[p].conn.offered {
        assert AgentPassOk(s, l.agent);
        OfferedIsTaken(s, l);
      }
      TakenStays(s, l, s.peers[p].replica, e);
    }
  }

  lemma CountOfReplicas(s: State, l: Label)
    requires Enabled(s, l)
    ensures |Apply(s, l).replicas| == |s.replicas|
  {
    if StartStep(l) {
      StartExtends(s, l);
    } else if Inner(l) {
      InnerRest(s, l);
    }
  }

  lemma LossKept(s: State, l: Label)
    requires FabricInvariant(s) && LossInv(s) && Enabled(s, l)
    ensures LossInv(Apply(s, l))
  {
    var t := Apply(s, l);
    CountOfReplicas(s, l);
    FailedKept(s, l);
    forall r: nat ensures SkippedOk(t, r) && BrokerOk(t, r) {
      assert SkippedOk(s, r) && BrokerOk(s, r);
      if r < |s.replicas| {
        SkippedKept(s, l, r);
        BrokerKept(s, l, r);
      }
    }
    forall p: nat, e: nat ensures TakenOk(t, p, e) {
      TakenKept(s, l, p, e);
    }
  }

  lemma {:induction false} LossRun(s: State, run: seq<Label>)
    requires FabricInvariant(s) && LossInv(s) && CanRun(s, run)
    ensures LossInv(After(s, run))
    decreases |run|
  {
    if run != [] {
      StepKeeps(s, run[0]);
      LossKept(s, run[0]);
      LossRun(Apply(s, run[0]), run[1..]);
    }
  }

  lemma LossReached(s: State)
    requires Reachable(s)
    ensures LossInv(s)
  {
    var n: nat, run: seq<Label> :| CanRun(Init(n), run) && After(Init(n), run) == s;
    InitHolds(n);
    LossRun(Init(n), run);
  }

  lemma TakenIsNotLost(s: State, r: nat, e: nat)
    requires Taken(s, r, e) && Distinct(s.log) && FailedOk(s)
    ensures !Skipped(s, r, e) && e !in s.failed
  {
    var k: nat :| TakenAt(s, r, e, k);
    forall m | m in s.replicas[r].skipped && m < |s.log| ensures s.log[m] != e {
      assert m != k;
    }
  }

  /** An event that the log lost for a replica is offered to none of its connections. */
  lemma LostIsNeverOffered(s: State, p: nat, e: nat)
    requires Reachable(s) && p < |s.peers| && e < |s.sends| && s.peers[p].replica < |s.replicas|
    requires LostFor(s, s.peers[p].replica, e)
    ensures e !in s.peers[p].conn.offered
  {
    LossReached(s);
    ReachableHolds(s);
    assert TakenOk(s, p, e);
    if Taken(s, s.peers[p].replica, e) {
      TakenIsNotLost(s, s.peers[p].replica, e);
    }
  }

  /** Once nothing is under way, a connection that was registered when a send to its user began,
      and still is, has been offered the event once, or never if the log lost it for its replica. */
  lemma ExactlyOnce(s: State, p: nat, e: nat)
    requires Reachable(s) && Settled(s) && Entitled(s, p, e)
    ensures s.peers[p].replica < |s.replicas|
    ensures multiset(s.peers[p].conn.offered)[e] == if LostFor(s, s.peers[p].replica, e) then 0 else 1
  {
    EntitledHasReplica(s, p, e);
    if LostFor(s, s.peers[p].replica, e) {
      LostIsNeverOffered(s, p, e);
    } else {
      OfferedOnce(s, p, e);
    }
  }

  lemma EntitledHasReplica(s: State, p: nat, e: nat)
    requires Reachable(s) && Entitled(s, p, e)
    ensures s.peers[p].replica < |s.replicas|
  {
    ReachableHolds(s);
    assert PeerOk(s, p);
  }
}
