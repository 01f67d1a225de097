/** Every inner step keeps the delivery part of the invariant. */
module FabricDelivery {
  import opened Basics
  import opened Fabric
  import opened FabricInv
  import opened FabricEffects
  import opened FabricStructure

  /** A step of the whole fabric between two states that keep the structure. */
  ghost predicate Stepped(s: State, l: Label, t: State) {
    && Structure(s) && Delivery(s) && Enabled(s, l) && Inner(l)
    && t == Apply(s, l) && Stays(s, t) && Structure(t)
  }

  // ---------------------------------------------------------------- where things come from

  /** Only taking an entry from the log gives an agent a new event to deliver. */
  lemma LocalComesFromLog(s: State, l: Label, a: nat, e: nat)
    requires Enabled(s, l) && Inner(l) && a < |s.agents|
    requires Local(e) in Apply(s, l).agents[a].ops && Local(e) !in s.agents[a].ops
    ensures l.TakeLog? && a == |s.replicas| + l.replica && e == s.log[s.replicas[l.replica].cursor]
    ensures s.sends[e].origin != l.replica
  {
  }

  /** An agent starts to come to a connection only by beginning a delivery loop. */
  lemma ComingComesFromLoop(s: State, l: Label, a: nat, e: nat, p: nat)
    requires Structure(s) && Enabled(s, l) && Inner(l) && a < |s.agents| && p < |s.peers|
    requires s.agents[a].replica == s.peers[p].replica
    requires StillComing(Apply(s, l).agents[a], e, p, s.peers[p].user)
    requires !StillComing(s.agents[a], e, p, s.peers[p].user)
    ensures l.BeginPass? && l.agent == a && s.agents[a].ops[0] == Local(e)
  {
    if !PassStep(l) || l.agent != a {
      PassUntouched(s, l, a);
    } else if l.NextUser? {
      var g := s.agents[a];
      var q := g.pass.value;
      assert AgentOk(s, a) && ReplicaOk(s, g.replica);
      if p in Conns(s.replicas[g.replica].clients, q.rest[0]) {
        MapIsExact(s, g.replica, q.rest[0], p);
      }
    }
  }

  /** A connection is offered an event only by `OfferTo`. */
  lemma OfferedComesFromLoop(s: State, l: Label, p: nat)
    requires Enabled(s, l) && Inner(l) && p < |s.peers|
    requires l.OfferTo? ==> l.peer != p
    ensures p < |Apply(s, l).peers|
    ensures Apply(s, l).peers[p].conn.offered == s.peers[p].conn.offered
    ensures Apply(s, l).peers[p].conn.accepted == s.peers[p].conn.accepted
  {
    if PassStep(l) { LoopOfferedComesFromLoop(s, l, p); } else { OtherOfferedComesFromLoop(s, l, p); }
  }

  lemma LoopOfferedComesFromLoop(s: State, l: Label, p: nat)
    requires Enabled(s, l) && Inner(l) && p < |s.peers|
    requires l.OfferTo? ==> l.peer != p
    requires PassStep(l)
    ensures p < |Apply(s, l).peers|
    ensures Apply(s, l).peers[p].conn.offered == s.peers[p].conn.offered
    ensures Apply(s, l).peers[p].conn.accepted == s.peers[p].conn.accepted
  {
  }

  lemma OtherOfferedComesFromLoop(s: State, l: Label, p: nat)
    requires Enabled(s, l) && Inner(l) && p < |s.peers|
    requires l.OfferTo? ==> l.peer != p
    requires !PassStep(l)
    ensures p < |Apply(s, l).peers|
    ensures Apply(s, l).peers[p].conn.offered == s.peers[p].conn.offered
    ensures Apply(s, l).peers[p].conn.accepted == s.peers[p].conn.accepted
  {
  }

  lemma CancelIsFinal(s: State, l: Label, p: nat)
    requires Enabled(s, l) && Inner(l) && p < |s.peers|
    ensures p < |Apply(s, l).peers|
    ensures var c, d := s.peers[p].conn, Apply(s, l).peers[p].conn;
      && c.accepted <= d.accepted
      && (c.cancelled ==> d.cancelled && d.cutoff == c.cutoff)
  {
    if PassStep(l) { LoopCancelIsFinal(s, l, p); } else { OtherCancelIsFinal(s, l, p); }
  }

  lemma LoopCancelIsFinal(s: State, l: Label, p: nat)
    requires Enabled(s, l) && Inner(l) && p < |s.peers|
    requires PassStep(l)
    ensures p < |Apply(s, l).peers|
    ensures var c, d := s.peers[p].conn, Apply(s, l).peers[p].conn;
      && c.accepted <= d.accepted
      && (c.cancelled ==> d.cancelled && d.cutoff == c.cutoff)
  {
  }

  lemma OtherCancelIsFinal(s: State, l: Label, p: nat)
    requires Enabled(s, l) && Inner(l) && p < |s.peers|
    requires !PassStep(l)
    ensures p < |Apply(s, l).peers|
    ensures var c, d := s.peers[p].conn, Apply(s, l).peers[p].conn;
      && c.accepted <= d.accepted
      && (c.cancelled ==> d.cancelled && d.cutoff == c.cutoff)
  {
  }

  /** A refusal is forgotten only by disconnecting the connection. */
  lemma DropEndsInCancel(s: State, l: Label, a: nat, e: nat, p: nat)
    requires Structure(s) && Enabled(s, l) && Inner(l) && a < |s.agents|
    requires s.agents[a].pass.Some? && s.agents[a].pass.value.event == e
    requires s.agents[a].pass.value.drop == Some(p)
    ensures p < |s.peers|
    ensures var t := Apply(s, l);
      || t.peers[p].conn.cancelled
      || (t.agents[a].pass.Some? && t.agents[a].pass.value.event == e && t.agents[a].pass.value.drop == Some(p))
  {
    assert AgentPassOk(s, a);
    assert TargetOk(s, a, s.agents[a].pass.value, p);
    if !PassStep(l) || l.agent != a {
      PassUntouched(s, l, a);
    }
  }

  // ---------------------------------------------------------------- at most once

  /** Where an event that was offered came from. */
  lemma OfferedOrigin(s: State, p: nat, e: nat)
    requires Structure(s) && OfferOk(s, p, e) && p < |s.peers| && e in s.peers[p].conn.offered
    ensures e < |s.sends| && Deliverer(s, e, s.peers[p].replica) < |s.agents| && s.peers[p].replica < |s.replicas|
    ensures s.agents[Deliverer(s, e, s.peers[p].replica)].replica == s.peers[p].replica
    ensures s.sends[e].origin != s.peers[p].replica ==> LogHas(s, e, 0, s.replicas[s.peers[p].replica].cursor)
    ensures s.sends[e].origin == s.peers[p].replica ==> !IsBroker(s, s.sends[e].home)
  {
    assert PeerOk(s, p) && SendOk(s, e) && AgentOk(s, Deliverer(s, e, s.peers[p].replica));
  }

  lemma NotAgainListed(s: State, l: Label, t: State, p: nat, e: nat)
    requires Stepped(s, l, t) && p < |s.peers| && e in s.peers[p].conn.offered
    requires e < |s.sends| && Deliverer(s, e, s.peers[p].replica) < |s.agents|
    ensures Local(e) !in t.agents[Deliverer(s, e, s.peers[p].replica)].ops
  {
    assert OfferOk(s, p, e);
    OfferedOrigin(s, p, e);
    var a := Deliverer(s, e, s.peers[p].replica);
    if Local(e) in t.agents[a].ops {
      LocalComesFromLog(s, l, a, e);
      assert false;
    }
  }

  lemma NotAgainComing(s: State, l: Label, t: State, p: nat, e: nat)
    requires Stepped(s, l, t) && p < |s.peers| && e in s.peers[p].conn.offered
    requires e < |s.sends| && Deliverer(s, e, s.peers[p].replica) < |s.agents|
    ensures !StillComing(t.agents[Deliverer(s, e, s.peers[p].replica)], e, p, s.peers[p].user)
  {
    assert OfferOk(s, p, e);
    OfferedOrigin(s, p, e);
    var a := Deliverer(s, e, s.peers[p].replica);
    if StillComing(t.agents[a], e, p, s.peers[p].user) {
      ComingComesFromLoop(s, l, a, e, p);
      assert false;
    }
  }

  lemma NotAgain(s: State, l: Label, t: State, p: nat, e: nat)
    requires Stepped(s, l, t) && p < |s.peers| && e in s.peers[p].conn.offered
    ensures e < |s.sends| && Deliverer(s, e, s.peers[p].replica) < |s.agents|
    ensures var g := t.agents[Deliverer(s, e, s.peers[p].replica)];
      Local(e) !in g.ops && !StillComing(g, e, p, s.peers[p].user)
  {
    assert OfferOk(s, p, e);
    NotAgainListed(s, l, t, p, e);
    NotAgainComing(s, l, t, p, e);
  }

  lemma SeenStays(s: State, l: Label, t: State, r: nat, e: nat)
    requires Stepped(s, l, t) && r < |s.replicas| && LogHas(s, e, 0, s.replicas[r].cursor)
    ensures LogHas(t, e, 0, t.replicas[r].cursor)
  {
    assert ReplicaStays(s, t, r);
    var k :| 0 <= k < s.replicas[r].cursor && k < |s.log| && s.log[k] == e;
    assert t.log[k] == e;
  }

  /** A connection that refused the event is cancelled, or its refuser is still about to do that. */
  lemma RefusalEnds(s: State, l: Label, t: State, p: nat, e: nat)
    requires Stepped(s, l, t) && p < |s.peers| && e in s.peers[p].conn.offered
    requires e < |s.sends| && Deliverer(s, e, s.peers[p].replica) < |s.agents|
    ensures p < |t.peers|
    ensures var g := t.agents[Deliverer(s, e, s.peers[p].replica)];
      || e in t.peers[p].conn.accepted || t.peers[p].conn.cancelled
      || (g.pass.Some? && g.pass.value.event == e && g.pass.value.drop == Some(p))
  {
    assert OfferOk(s, p, e);
    CancelIsFinal(s, l, p);
    RefusedStays(s, l, p, e);
    if e !in s.peers[p].conn.accepted && !s.peers[p].conn.cancelled {
      DropEndsInCancel(s, l, Deliverer(s, e, s.peers[p].replica), e, p);
    }
  }

  lemma OfferOnce(s: State, l: Label, t: State, p: nat, e: nat)
    requires Stepped(s, l, t) && p < |s.peers| && e in s.peers[p].conn.offered
    ensures OfferOk(t, p, e)
  {
    assert OfferOk(s, p, e) && PeerStays(s, t, p);
    OfferedOrigin(s, p, e);
    NotAgain(s, l, t, p, e);
    if s.sends[e].origin != s.peers[p].replica {
      SeenStays(s, l, t, s.peers[p].replica, e);
    }
    RefusalEnds(s, l, t, p, e);
  }

  /** An event that was refused is not accepted later. */
  lemma RefusedStays(s: State, l: Label, p: nat, e: nat)
    requires Structure(s) && Delivery(s) && Enabled(s, l) && Inner(l) && p < |s.peers|
    requires e in s.peers[p].conn.offered
    ensures p < |Apply(s, l).peers|
    ensures e in Apply(s, l).peers[p].conn.accepted <==> e in s.peers[p].conn.accepted
  {
    if l.OfferTo? && l.peer == p {
      var q := s.agents[l.agent].pass.value;
      assert AgentPassOk(s, l.agent) && TargetOk(s, l.agent, q, p);
      DelivererIs(s, l.agent, q.event);
      assert OfferOk(s, p, q.event);
    } else {
      OfferedComesFromLoop(s, l, p);
    }
  }

  lemma OfferFirst(s: State, l: Label, t: State)
    requires Stepped(s, l, t) && l.OfferTo?
    ensures OfferOk(t, l.peer, s.agents[l.agent].pass.value.event)
  {
    var a, p := l.agent, l.peer;
    var q := s.agents[a].pass.value;
    assert AgentOk(s, a) && AgentPassOk(s, a) && TargetOk(s, a, q, p) && PeerOk(s, p);
    DelivererIs(s, a, q.event);
    LocalIsLater(s, a);
    var r := s.peers[p].replica;
    if s.sends[q.event].origin != r {
      assert s.log[s.replicas[r].cursor - 1] == q.event;
      assert LogHas(t, q.event, 0, t.replicas[r].cursor);
    }
  }

  /** While an agent delivers an event it has no second delivery of it to do. */
  lemma LocalIsLater(s: State, a: nat)
    requires Structure(s) && a < |s.agents| && s.agents[a].pass.Some?
    ensures Local(s.agents[a].pass.value.event) !in s.agents[a].ops
  {
    assert AgentPassOk(s, a);
  }

  lemma OfferOkKept(s: State, l: Label, t: State, p: nat, e: nat)
    requires Stepped(s, l, t)
    ensures OfferOk(t, p, e)
  {
    if p < |t.peers| && e in t.peers[p].conn.offered {
      if e in s.peers[p].conn.offered {
        OfferOnce(s, l, t, p, e);
      } else if l.OfferTo? && l.peer == p {
        OfferFirst(s, l, t);
      } else {
        OfferedComesFromLoop(s, l, p);
      }
    }
  }

  // ---------------------------------------------------------------- at least once

  /** An inner step, and what an entitled connection's fate depends on before it. */
  ghost predicate Moved(s: State, l: Label, t: State) {
    Enabled(s, l) && Inner(l) && t == Apply(s, l) && Stays(s, t)
  }

  ghost predicate Ground(s: State, p: nat, e: nat) {
    && Entitled(s, p, e) && PeerOk(s, p) && StageOk(s, p) && SendOk(s, e)
    && ReplicaOk(s, s.peers[p].replica)
    && Deliverer(s, e, s.peers[p].replica) < |s.agents|
    && AgentOk(s, Deliverer(s, e, s.peers[p].replica))
    && s.agents[Deliverer(s, e, s.peers[p].replica)].replica == s.peers[p].replica
  }

  lemma LoopBegins(s: State, a: nat, p: nat)
    requires Enabled(s, BeginPass(a)) && p < |s.peers| && StageOk(s, p) && s.peers[p].stage == Listed
    requires s.peers[p].replica == s.agents[a].replica
    requires Covers(s.sends[s.agents[a].ops[0].event].dest, s.peers[p].user)
    ensures StillComing(Apply(s, BeginPass(a)).agents[a], s.agents[a].ops[0].event, p, s.peers[p].user)
  {
    var R := s.replicas[s.agents[a].replica];
    assert s.peers[p].user in R.clients && p in R.clients[s.peers[p].user];
  }

  lemma LocalLeadsOn(s: State, l: Label, t: State, p: nat, e: nat)
    requires Moved(s, l, t) && Ground(s, p, e) && p < |t.peers|
    requires Local(e) in s.agents[Deliverer(s, e, s.peers[p].replica)].ops
    ensures Pending(t, p, e)
  {
    var a := Deliverer(s, e, s.peers[p].replica);
    assert PeerStays(s, t, p);
    if Local(e) !in t.agents[a].ops {
      LocalIsBegun(s, l, a, e);
      LoopBegins(s, a, p);
    }
  }

  lemma LocalIsBegun(s: State, l: Label, a: nat, e: nat)
    requires Enabled(s, l) && Inner(l) && a < |s.agents|
    requires Local(e) in s.agents[a].ops && Local(e) !in Apply(s, l).agents[a].ops
    ensures l.BeginPass? && l.agent == a && s.agents[a].ops[0] == Local(e)
  {
  }

  /** A delivery loop comes to every connection it is still coming to. */
  lemma LoopGoesOn(s: State, l: Label, a: nat, e: nat, p: nat)
    requires Structure(s) && Enabled(s, l) && Inner(l) && a < |s.agents|
    requires p < |s.peers| && s.peers[p].replica == s.agents[a].replica && s.peers[p].stage == Listed
    requires StillComing(s.agents[a], e, p, s.peers[p].user)
    ensures StillComing(Apply(s, l).agents[a], e, p, s.peers[p].user) || (l == OfferTo(a, p))
  {
    if !PassStep(l) || l.agent != a {
      PassUntouched(s, l, a);
    } else {
      assert StageOk(s, p) && AgentPassOk(s, a);
    }
  }

  lemma OfferedNow(s: State, a: nat, p: nat)
    requires Enabled(s, OfferTo(a, p))
    ensures p < |Apply(s, OfferTo(a, p)).peers|
    ensures s.agents[a].pass.value.event in Apply(s, OfferTo(a, p)).peers[p].conn.offered
  {
    var o := Apply(s, OfferTo(a, p)).peers[p].conn.offered;
    assert o[|o| - 1] == s.agents[a].pass.value.event;
  }

  lemma ComingLeadsOn(s: State, l: Label, t: State, p: nat, e: nat)
    requires Moved(s, l, t) && Ground(s, p, e) && p < |t.peers|
    requires Structure(s)
    requires StillComing(s.agents[Deliverer(s, e, s.peers[p].replica)], e, p, s.peers[p].user)
    ensures Pending(t, p, e) || e in t.peers[p].conn.offered
  {
    var a := Deliverer(s, e, s.peers[p].replica);
    assert PeerStays(s, t, p);
    LoopGoesOn(s, l, a, e, p);
    if l == OfferTo(a, p) {
      OfferedNow(s, a, p);
    }
  }

  lemma PublishLeadsOn(s: State, l: Label, t: State, p: nat, e: nat)
    requires Moved(s, l, t) && Ground(s, p, e) && p < |t.peers|
    requires s.sends[e].origin != s.peers[p].replica && Publish(e) in s.agents[s.sends[e].home].ops
    ensures Pending(t, p, e) || LostFor(t, s.peers[p].replica, e)
  {
    var h, r := s.sends[e].home, s.peers[p].replica;
    assert PeerStays(s, t, p) && ReplicaStays(s, t, r);
    if Publish(e) !in t.agents[h].ops {
      PublishIsDone(s, l, h, e);
      if l.ok {
        assert t.log[|s.log|] == e;
        assert LogHas(t, e, t.replicas[r].cursor, |t.log|);
      }
    }
  }

  lemma PublishIsDone(s: State, l: Label, a: nat, e: nat)
    requires Enabled(s, l) && Inner(l) && a < |s.agents|
    requires Publish(e) in s.agents[a].ops && Publish(e) !in Apply(s, l).agents[a].ops
    ensures l.DoPublish? && l.agent == a && s.agents[a].ops[0] == Publish(e)
  {
  }

  lemma LogLeadsOn(s: State, l: Label, t: State, p: nat, e: nat)
    requires Moved(s, l, t) && Ground(s, p, e) && p < |t.peers|
    requires s.sends[e].origin != s.peers[p].replica
    requires LogHas(s, e, s.replicas[s.peers[p].replica].cursor, |s.log|)
    ensures Pending(t, p, e) || LostFor(t, s.peers[p].replica, e)
  {
    var r := s.peers[p].replica;
    assert PeerStays(s, t, p);
    var k :| s.replicas[r].cursor <= k < |s.log| && s.log[k] == e;
    assert t.log[k] == e;
    if t.replicas[r].cursor <= k {
      assert LogHas(t, e, t.replicas[r].cursor, |t.log|);
    } else {
      CursorMoves(s, l, r);
      assert k == s.replicas[r].cursor;
    }
  }

  lemma CursorMoves(s: State, l: Label, r: nat)
    requires Enabled(s, l) && Inner(l) && r < |s.replicas|
    requires Apply(s, l).replicas[r].cursor != s.replicas[r].cursor
    ensures (l.TakeLog? || l.LoseLog?) && l.replica == r
    ensures Apply(s, l).replicas[r].cursor == s.replicas[r].cursor + 1
  {
  }

  lemma LossStays(s: State, l: Label, t: State, r: nat, e: nat)
    requires Moved(s, l, t) && r < |s.replicas| && e < |s.sends| && LostFor(s, r, e)
    ensures LostFor(t, r, e)
  {
    SkippedStays(s, l, r);
    if Skipped(s, r, e) {
      var k :| k in s.replicas[r].skipped && k < |s.log| && s.log[k] == e;
      assert k in t.replicas[r].skipped && t.log[k] == e;
    }
  }

  lemma SkippedStays(s: State, l: Label, r: nat)
    requires Enabled(s, l) && Inner(l) && r < |s.replicas|
    ensures s.failed <= Apply(s, l).failed && s.replicas[r].skipped <= Apply(s, l).replicas[r].skipped
  {
  }

  lemma CoverOkKept(s: State, l: Label, t: State, p: nat, e: nat)
    requires Stepped(s, l, t)
    ensures CoverOk(t, p, e)
  {
    if Entitled(t, p, e) {
      assert PeerStays(s, t, p) && CoverOk(s, p, e) && PeerOk(s, p) && SendOk(s, e);
      var r := s.peers[p].replica;
      var a := Deliverer(s, e, r);
      assert StageOk(s, p) && ReplicaOk(s, r) && AgentOk(s, a);
      if e in s.peers[p].conn.offered {
      } else if LostFor(s, r, e) {
        LossStays(s, l, t, r, e);
      } else if Local(e) in s.agents[a].ops {
        LocalLeadsOn(s, l, t, p, e);
      } else if StillComing(s.agents[a], e, p, s.peers[p].user) {
        ComingLeadsOn(s, l, t, p, e);
      } else if Publish(e) in s.agents[s.sends[e].home].ops {
        PublishLeadsOn(s, l, t, p, e);
      } else {
        LogLeadsOn(s, l, t, p, e);
      }
    }
  }

  // ---------------------------------------------------------------- order

  lemma OrderOkKept(s: State, l: Label, t: State, p: nat)
    requires Stepped(s, l, t)
    ensures OrderOk(t, p)
  {
    if p < |t.peers| {
      assert OrderOk(s, p) && PeerStays(s, t, p);
      var o, o' := s.peers[p].conn.offered, t.peers[p].conn.offered;
      forall i, j, k, m |
        && 0 <= i < j < |o'| && Remote(t, p, o'[i]) && Remote(t, p, o'[j])
        && 0 <= k < |t.log| && t.log[k] == o'[i] && 0 <= m < |t.log| && t.log[m] == o'[j]
        ensures k < m
      {
        if j < |o| {
          OldPosition(s, l, t, p, o[i], k);
          OldPosition(s, l, t, p, o[j], m);
          assert Remote(s, p, o[i]) && Remote(s, p, o[j]);
        } else {
          NewestIsLast(s, l, t, p, i, j, k, m);
        }
      }
    }
  }

  /** The place in the log of an event that a connection was offered lies before the cursor. */
  lemma OldPosition(s: State, l: Label, t: State, p: nat, e: nat, k: nat)
    requires Stepped(s, l, t) && p < |s.peers| && e in s.peers[p].conn.offered && Remote(s, p, e)
    requires k < |t.log| && t.log[k] == e
    ensures s.peers[p].replica < |s.replicas| && k < s.replicas[s.peers[p].replica].cursor && k < |s.log|
  {
    assert OfferOk(s, p, e) && PeerOk(s, p);
    var r := s.peers[p].replica;
    assert LogHas(s, e, 0, s.replicas[r].cursor);
    var k' :| 0 <= k' < s.replicas[r].cursor && k' < |s.log| && s.log[k'] == e;
    assert t.log[k'] == e;
  }

  lemma NewestIsLast(s: State, l: Label, t: State, p: nat, i: nat, j: nat, k: nat, m: nat)
    requires Stepped(s, l, t) && p < |s.peers| && p < |t.peers|
    requires var o, o' := s.peers[p].conn.offered, t.peers[p].conn.offered;
      && i < j < |o'| && |o| <= j && Remote(t, p, o'[i]) && Remote(t, p, o'[j])
      && k < |t.log| && t.log[k] == o'[i] && m < |t.log| && t.log[m] == o'[j]
    ensures k < m
  {
    if !(l.OfferTo? && l.peer == p) {
      OfferedComesFromLoop(s, l, p);
    } else {
      var a, r := l.agent, s.peers[p].replica;
      var q := s.agents[a].pass.value;
      var o := s.peers[p].conn.offered;
      assert t.peers[p].conn.offered == o + [q.event];
      assert AgentOk(s, a) && AgentPassOk(s, a) && TargetOk(s, a, q, p) && PeerStays(s, t, p);
      DelivererIs(s, a, q.event);
      assert s.log[s.replicas[r].cursor - 1] == q.event;
      assert t.log[s.replicas[r].cursor - 1] == q.event;
      assert m == s.replicas[r].cursor - 1;
      OldPosition(s, l, t, p, o[i], k);
      assert OfferOk(s, p, q.event);
    }
  }

  // ---------------------------------------------------------------- acknowledgements

  lemma AckOkKept(s: State, l: Label, t: State, p: nat, i: nat)
    requires Stepped(s, l, t)
    ensures AckOk(t, p, i)
  {
    if p < |t.peers| && i < |t.peers[p].conn.accepted| && AckFor(t, p, t.peers[p].conn.accepted[i]) {
      assert PeerStays(s, t, p);
      CancelIsFinal(s, l, p);
      if i < |s.peers[p].conn.accepted| {
        assert AckOk(s, p, i);
        assert t.peers[p].conn.accepted[..i] == s.peers[p].conn.accepted[..i];
      } else {
        NewAck(s, l, t, p, i);
      }
    }
  }

  /** The acknowledgement comes from the goroutine that delivered the message before. */
  lemma NewAck(s: State, l: Label, t: State, p: nat, i: nat)
    requires Stepped(s, l, t) && p < |s.peers| && p < |t.peers|
    requires |s.peers[p].conn.accepted| <= i < |t.peers[p].conn.accepted|
    requires AckFor(t, p, t.peers[p].conn.accepted[i])
    ensures AckOk(t, p, i)
  {
    if !(l.OfferTo? && l.peer == p) {
      OfferedComesFromLoop(s, l, p);
    } else {
      var a := l.agent;
      var q, c := s.agents[a].pass.value, s.peers[p].conn;
      assert t.peers[p].conn.accepted == c.accepted + [q.event];
      assert AgentPassOk(s, a) && TargetOk(s, a, q, p) && PeerStays(s, t, p) && SendOk(s, q.event);
      DelivererIs(s, a, q.event);
      var m := s.sends[q.event].body.of;
      assert Deliverer(s, m, s.peers[p].replica) == a;
      assert Local(m) !in s.agents[a].ops;
      assert CoverOk(s, p, m) && OfferOk(s, p, m);
      assert m in c.accepted || c.cancelled;
      assert PeerOk(s, p);
      assert t.peers[p].conn.accepted[..i] == c.accepted;
    }
  }

  // ---------------------------------------------------------------- all together

  lemma DeliveryKept(s: State, l: Label)
    requires Structure(s) && Delivery(s) && Enabled(s, l) && Inner(l)
    ensures Structure(Apply(s, l)) && Delivery(Apply(s, l))
  {
    var t := Apply(s, l);
    if l.OfferTo? {
      assert OfferOk(s, l.peer, s.agents[l.agent].pass.value.event);
    }
    InnerStays(s, l);
    StructureKept(s, l);
    forall p: nat, e: nat ensures OfferOk(t, p, e) { OfferOkKept(s, l, t, p, e); }
    forall p: nat, e: nat ensures CoverOk(t, p, e) { CoverOkKept(s, l, t, p, e); }
    forall p: nat ensures OrderOk(t, p) { OrderOkKept(s, l, t, p); }
    forall p: nat, i: nat ensures AckOk(t, p, i) { AckOkKept(s, l, t, p, i); }
  }
}
