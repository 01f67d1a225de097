/** The delivery part of the invariant under the steps that begin sends or change who is
    connected, and the invariant over whole runs. */
module FabricDeliveryStarts {
  import opened Connections
  import opened Fabric
  import opened FabricInv
  import opened FabricEffects
  import opened FabricStructure
  import opened FabricStarts
  import opened FabricDelivery

  lemma AcceptedWasOffered(c: Conn, e: nat)
    requires Inv(c) && e in c.accepted
    ensures e in c.offered
  {
    var i :| 0 <= i < |c.accepted| && c.accepted[i] == e;
    if c.firstLoss.Some? {
      var k := c.firstLoss.value;
      if i < k {
        assert c.accepted[..k][i] == c.offered[..k][i];
      } else {
        assert OfferedAfter(c, c.accepted[i], k);
      }
    }
  }

  // ---------------------------------------------------------------- beginning sends

  lemma OldOffer(s: State, t: State, p: nat, e: nat)
    requires Structure(s) && Delivery(s) && Extends(s, t) && p < |s.peers|
    ensures OfferOk(t, p, e)
  {
    assert OfferOk(s, p, e) && PeerOk(s, p);
    if e in s.peers[p].conn.offered {
      assert SendOk(s, e);
      var r := s.peers[p].replica;
      if LogHas(s, e, 0, s.replicas[r].cursor) {
        var k :| 0 <= k < s.replicas[r].cursor && k < |s.log| && s.log[k] == e;
        assert t.log[k] == e;
        assert LogHas(t, e, 0, t.replicas[r].cursor);
      }
    }
  }

  lemma OldCover(s: State, t: State, p: nat, e: nat)
    requires Structure(s) && Delivery(s) && Extends(s, t) && p < |s.peers| && e < |s.sends|
    ensures CoverOk(t, p, e)
  {
    assert CoverOk(s, p, e) && PeerOk(s, p);
    var r := s.peers[p].replica;
    if LogHas(s, e, s.replicas[r].cursor, |s.log|) {
      var k :| s.replicas[r].cursor <= k < |s.log| && s.log[k] == e;
      assert t.log[k] == e;
      assert LogHas(t, e, t.replicas[r].cursor, |t.log|);
    }
    if Skipped(s, r, e) {
      var k :| k in s.replicas[r].skipped && k < |s.log| && s.log[k] == e;
      assert k in t.replicas[r].skipped && t.log[k] == e;
    }
  }

  /** A send that has just begun is still to be delivered and published by its goroutine. */
  lemma NewCover(s: State, l: Label, p: nat, e: nat)
    requires Structure(s) && Enabled(s, l) && StartStep(l) && p < |s.peers| && |s.sends| <= e
    ensures CoverOk(Apply(s, l), p, e)
  {
    assert PeerOk(s, p);
    var t := Apply(s, l);
    if Entitled(t, p, e) {
      NewSend(s, l, e);
      var g := t.agents[|s.agents|];
      assert t.sends[e].home == |s.agents|;
      assert Local(e) in g.ops && Publish(e) in g.ops by {
        var i := 2 * (e - |s.sends|);
        assert g.ops[i] == Local(e) && g.ops[i + 1] == Publish(e);
      }
    }
  }

  lemma OldOrder(s: State, t: State, p: nat)
    requires Structure(s) && Delivery(s) && Extends(s, t) && p < |s.peers|
    ensures OrderOk(t, p)
  {
    assert OrderOk(s, p);
    var o := s.peers[p].conn.offered;
    forall i, j, k, m |
      && 0 <= i < j < |o| && Remote(t, p, o[i]) && Remote(t, p, o[j])
      && 0 <= k < |t.log| && t.log[k] == o[i] && 0 <= m < |t.log| && t.log[m] == o[j]
      ensures k < m
    {
      assert OfferOk(s, p, o[i]) && OfferOk(s, p, o[j]);
      assert Remote(s, p, o[i]) && Remote(s, p, o[j]);
    }
  }

  lemma OldAck(s: State, t: State, p: nat, i: nat)
    requires Structure(s) && Delivery(s) && Extends(s, t) && p < |s.peers|
    ensures AckOk(t, p, i)
  {
    assert AckOk(s, p, i) && PeerOk(s, p);
    if i < |s.peers[p].conn.accepted| {
      var e := s.peers[p].conn.accepted[i];
      AcceptedWasOffered(s.peers[p].conn, e);
      assert OfferOk(s, p, e) && SendOk(s, e);
    }
  }

  lemma NewPeerDelivery(s: State, l: Label, e: nat)
    requires Enabled(s, l) && l.Connect?
    ensures var t := Apply(s, l);
      OfferOk(t, |s.peers|, e) && CoverOk(t, |s.peers|, e) && OrderOk(t, |s.peers|) && AckOk(t, |s.peers|, e)
  {
  }

  lemma StartDeliveryKept(s: State, l: Label)
    requires Structure(s) && Delivery(s) && Enabled(s, l) && StartStep(l)
    ensures Delivery(Apply(s, l))
  {
    var t := Apply(s, l);
    StartExtends(s, l);
    StartCounts(s, l);
    forall p: nat ensures OrderOk(t, p) {
      if p < |s.peers| { OldOrder(s, t, p); } else if l.Connect? && p == |s.peers| { NewPeerDelivery(s, l, 0); }
    }
    forall p: nat, e: nat ensures OfferOk(t, p, e) && CoverOk(t, p, e) && AckOk(t, p, e) {
      if p < |s.peers| {
        OldOffer(s, t, p, e);
        if e < |s.sends| { OldCover(s, t, p, e); } else { NewCover(s, l, p, e); }
        OldAck(s, t, p, e);
      } else if l.Connect? && p == |s.peers| {
        NewPeerDelivery(s, l, e);
      }
    }
  }

  // ---------------------------------------------------------------- the hub's own steps

  /** What the hub loop's own step means for delivery: the loop had no event to deliver, and
      has at most one that has just begun. */
  ghost predicate HubMeans(s: State, t: State, r: nat, p: nat) {
    && HubMove(s, t, r, p)
    && t.peers[p].conn.(open := true) == s.peers[p].conn.(open := true)
    && (forall o :: o in s.agents[r].ops ==> !o.Local? && !o.Publish?)
    && (forall o :: o in t.agents[r].ops && (o.Local? || o.Publish?) ==> o.event == |s.sends| < |t.sends|)
    && (|s.sends| < |t.sends| ==> Local(|s.sends|) in t.agents[r].ops && Publish(|s.sends|) in t.agents[r].ops)
    && (t.peers[p].stage == Listed ==> t.peers[p].regAt == |s.sends| && s.peers[p].conn.offered == [])
    && (t.peers[p].stage != Listed ==> t.peers[p].regAt == s.peers[p].regAt)
  }

  lemma HubMeaning(s: State, l: Label)
    requires AtHub(s, l)
    ensures HubMeans(s, Apply(s, l), l.replica, Subject(s, l.replica))
  {
    HubTurns(s, l);
    TurnMeans(s, Apply(s, l), l.replica, Subject(s, l.replica));
  }

  lemma TurnMeans(s: State, t: State, r: nat, p: nat)
    requires HubTurn(s, t, r, p) && PeerOk(s, p) && s.agents[r].ops in {[Enlist(p)], [Strike(p)]}
    ensures HubMeans(s, t, r, p)
  {
    var ops, e := t.agents[r].ops, |s.sends|;
    if e < |t.sends| {
      assert ops[|ops| - 2] == Local(e) && ops[|ops| - 1] == Publish(e);
    }
  }

  lemma HubOffer(s: State, t: State, r: nat, p: nat, x: nat, e: nat)
    requires Structure(s) && Delivery(s) && HubMeans(s, t, r, p)
    ensures OfferOk(t, x, e)
  {
    assert OfferOk(s, x, e);
    if x < |s.peers| && e in s.peers[x].conn.offered {
      assert SendOk(s, e);
      var v := s.peers[x].replica;
      if s.sends[e].origin != v && v < |s.replicas| {
        var k :| 0 <= k < s.replicas[v].cursor && k < |s.log| && s.log[k] == e;
        assert t.log[k] == e;
        assert LogHas(t, e, 0, t.replicas[v].cursor);
      }
    }
  }

  lemma HubCover(s: State, t: State, r: nat, p: nat, x: nat, e: nat)
    requires Structure(s) && Delivery(s) && HubMeans(s, t, r, p)
    ensures CoverOk(t, x, e)
  {
    if Entitled(t, x, e) {
      assert PeerOk(s, x);
      if e < |s.sends| {
        assert CoverOk(s, x, e) && SendOk(s, e);
        var v := s.peers[x].replica;
        if LogHas(s, e, s.replicas[v].cursor, |s.log|) {
          var k :| s.replicas[v].cursor <= k < |s.log| && s.log[k] == e;
          assert t.log[k] == e;
          assert LogHas(t, e, t.replicas[v].cursor, |t.log|);
        }
        if Skipped(s, v, e) {
          var k :| k in s.replicas[v].skipped && k < |s.log| && s.log[k] == e;
          assert k in t.replicas[v].skipped && t.log[k] == e;
        }
      }
    }
  }

  lemma HubOrder(s: State, t: State, r: nat, p: nat, x: nat)
    requires Structure(s) && Delivery(s) && HubMeans(s, t, r, p)
    ensures OrderOk(t, x)
  {
    assert OrderOk(s, x);
    if x < |s.peers| {
      var o := s.peers[x].conn.offered;
      forall i, j, k, m |
        && 0 <= i < j < |o| && Remote(t, x, o[i]) && Remote(t, x, o[j])
        && 0 <= k < |t.log| && t.log[k] == o[i] && 0 <= m < |t.log| && t.log[m] == o[j]
        ensures k < m
      {
        assert OfferOk(s, x, o[i]) && OfferOk(s, x, o[j]);
        assert Remote(s, x, o[i]) && Remote(s, x, o[j]);
      }
    }
  }

  lemma HubAck(s: State, t: State, r: nat, p: nat, x: nat, i: nat)
    requires Structure(s) && Delivery(s) && HubMeans(s, t, r, p)
    ensures AckOk(t, x, i)
  {
    assert AckOk(s, x, i) && PeerOk(s, x);
    if x < |s.peers| && i < |s.peers[x].conn.accepted| {
      var e := s.peers[x].conn.accepted[i];
      AcceptedWasOffered(s.peers[x].conn, e);
      assert OfferOk(s, x, e) && SendOk(s, e);
    }
  }

  lemma HubDeliveryKept(s: State, l: Label)
    requires Structure(s) && Delivery(s) && Enabled(s, l) && HubStep(l)
    ensures Delivery(Apply(s, l))
  {
    var t, r := Apply(s, l), l.replica;
    var p := Subject(s, r);
    HubIsThere(s, l);
    HubMeaning(s, l);
    forall x: nat, e: nat ensures OfferOk(t, x, e) { HubOffer(s, t, r, p, x, e); }
    forall x: nat, e: nat ensures CoverOk(t, x, e) { HubCover(s, t, r, p, x, e); }
    forall x: nat ensures OrderOk(t, x) { HubOrder(s, t, r, p, x); }
    forall x: nat, i: nat ensures AckOk(t, x, i) { HubAck(s, t, r, p, x, i); }
  }

  // ---------------------------------------------------------------- whole runs

  ghost predicate FabricInvariant(s: State) {
    Structure(s) && Delivery(s)
  }

  lemma InitHolds(n: nat)
    ensures FabricInvariant(Init(n))
  {
    var s := Init(n);
    assert forall a: nat :: AgentOk(s, a);
  }

  lemma StepKeeps(s: State, l: Label)
    requires FabricInvariant(s) && Enabled(s, l)
    ensures FabricInvariant(Apply(s, l))
  {
    if Inner(l) {
      DeliveryKept(s, l);
    } else if StartStep(l) {
      StartKept(s, l);
      StartDeliveryKept(s, l);
    } else {
      HubKept(s, l);
      HubDeliveryKept(s, l);
    }
  }

  lemma {:induction false} RunKeeps(s: State, run: seq<Label>)
    requires FabricInvariant(s) && CanRun(s, run)
    ensures FabricInvariant(After(s, run))
    decreases |run|
  {
    if run != [] {
      StepKeeps(s, run[0]);
      RunKeeps(Apply(s, run[0]), run[1..]);
    }
  }
}
