/** The gap that NoSilentGap leaves open is real: a run of the whole fabric leads to it. */
module FabricGap {
  import opened Basics
  import opened Connections
  import opened Fabric
  import opened FabricInv
  import opened FabricTheorems

  /** Connection p is live, in its hub's map, and its write pump is waiting for the queue. */
  predicate Live(s: State, p: nat) {
    && p < |s.peers| && s.peers[p].replica < |s.replicas| && s.peers[p].phase == Reading
    && p in Conns(s.replicas[s.peers[p].replica].clients, s.peers[p].user)
    && s.peers[p].conn.pump == Running
  }

  /** Apart from agents, sends and connection p's own queue and wire, two states agree. */
  ghost predicate Same(s: State, t: State, p: nat)
    requires p < |s.peers|
  {
    && t.replicas == s.replicas && |t.peers| == |s.peers|
    && t.peers == s.peers[p := s.peers[p].(conn := t.peers[p].conn)]
    && s.agents <= t.agents
  }

  lemma Go(s: State, l: Label) returns (t: State)
    requires Reachable(s) && Enabled(s, l)
    ensures t == Apply(s, l) && Reachable(t)
  {
    ReachableStep(s, l);
    t := Apply(s, l);
  }

  /** Some REST call sends one event to the user of p and comes to p first. */
  lemma ComesTo(s: State, p: nat) returns (t: State)
    requires Reachable(s) && Live(s, p)
    ensures Reachable(t) && Same(s, t, p) && t.peers == s.peers
    ensures var a := |s.agents|;
      && |t.agents| == a + 1 && |t.sends| == |s.sends| + 1
      && t.agents[a].pass.Some? && t.agents[a].pass.value.event == |s.sends|
      && p in t.agents[a].pass.value.left && t.agents[a].pass.value.drop.None?
  {
    t := Begins(s, p);
    var a := |s.agents|;
    assert t.agents[a].pass == Some(Pass(|s.sends|, [s.peers[p].user], {}, None));
    t := Go(t, NextUser(a));
  }

  lemma Begins(s: State, p: nat) returns (t: State)
    requires Reachable(s) && Live(s, p)
    ensures Reachable(t) && Same(s, t, p) && t.peers == s.peers && |t.sends| == |s.sends| + 1
    ensures var a, x := |s.agents|, s.peers[p];
      && |t.agents| == a + 1 && t.agents[a].replica == x.replica
      && t.agents[a].pass == Some(Pass(|s.sends|, [x.user], {}, None))
  {
    var x, a := s.peers[p], |s.agents|;
    t := Go(s, StartCast(x.replica, None, Users([x.user]), false));
    assert t.agents[a].ops[0] == Local(|s.sends|) && t.sends[|s.sends|].dest == Users([x.user]);
    t := Go(t, BeginPass(a));
  }

  lemma Offers(s: State, a: nat, p: nat) returns (t: State)
    requires Reachable(s) && p < |s.peers| && a < |s.agents| && s.agents[a].pass.Some?
    requires p in s.agents[a].pass.value.left && s.agents[a].pass.value.drop.None?
    ensures Reachable(t) && |t.agents| == |s.agents| && t.sends == s.sends && t.replicas == s.replicas
    ensures t.peers == s.peers[p := s.peers[p].(conn := s.peers[p].conn.Offer(s.agents[a].pass.value.event))]
    ensures forall b :: 0 <= b < |s.agents| && b != a ==> t.agents[b] == s.agents[b]
  {
    t := Go(s, OfferTo(a, p));
  }

  /** The write pump of p takes the next item, or writes the one it holds. */
  lemma Pumps(s: State, p: nat) returns (t: State)
    requires Reachable(s) && p < |s.peers| && s.peers[p].phase == Reading
    requires
      || (s.peers[p].conn.pump == Running && s.peers[p].conn.queue != [])
      || (s.peers[p].conn.pump.Holding? && !s.peers[p].conn.cancelled)
    ensures Reachable(t)
    ensures var c := s.peers[p].conn;
      t == SetConn(s, p, if c.pump == Running then c.Dequeue() else c.Write())
  {
    t := Go(s, if s.peers[p].conn.pump == Running then PumpTake(p) else PumpWrite(p));
  }

  lemma {:induction false} Drains(s: State, p: nat) returns (t: State)
    requires Reachable(s) && p < |s.peers| && s.peers[p].phase == Reading
    requires s.peers[p].conn.pump != Stopped && !s.peers[p].conn.cancelled
    ensures Reachable(t) && t == SetConn(s, p, Drain(s.peers[p].conn))
    decreases 2 * |s.peers[p].conn.queue| + |InHand(s.peers[p].conn.pump)|
  {
    var c := s.peers[p].conn;
    if c.pump.Holding? || c.queue != [] {
      var u := Pumps(s, p);
      t := Drains(u, p);
      assert t.peers == SetConn(s, p, Drain(c)).peers;
    } else {
      t := s;
      assert SetConn(s, p, c).peers == s.peers;
    }
  }

  /** From every reachable state in which a live connection has a full queue and has lost nothing,
      two deliveries to its user and its write pump can interleave so that the wire shows an event
      where an earlier one is missing, under a context that nobody has cancelled yet. */
  lemma FullQueueGaps(s: State, p: nat) returns (t: State)
    requires Reachable(s) && Live(s, p) && s.peers[p].conn.Full() && !s.peers[p].conn.Lost()
        && !s.peers[p].conn.cancelled
    ensures Reachable(t) && p < |t.peers|
    ensures var c := t.peers[p].conn; !c.cancelled && c.sneaked && !(HubOf(c.wire) <= c.offered)
  {
    var c, a, e := s.peers[p].conn, |s.agents|, |s.sends|;
    var s1 := ComesTo(s, p);
    var s2 := ComesTo(s1, p);
    assert s2.agents[a] == s1.agents[a];
    var s3 := Offers(s2, a, p);
    assert s3.peers[p].conn == c.Offer(e);
    var s4 := Pumps(s3, p);
    assert s4.peers[p].conn == c.Offer(e).Dequeue();
    assert s4.agents[a + 1] == s2.agents[a + 1];
    var s5 := Offers(s4, a + 1, p);
    assert s5.peers[p].conn == c.Offer(e).Dequeue().Offer(e + 1);
    t := Drains(s5, p);
    ReachableHolds(s);
    assert PeerOk(s, p);
    GapHappens(c, e, e + 1);
    DrainKeepsFlags(s5.peers[p].conn);
  }

  lemma {:induction false} DrainKeepsFlags(c: Conn)
    requires c.pump != Stopped
    ensures Drain(c).sneaked == c.sneaked && Drain(c).cancelled == c.cancelled
    decreases 2 * |c.queue| + |InHand(c.pump)|
  {
    if c.pump.Holding? {
      DrainKeepsFlags(c.Write());
    } else if c.queue != [] {
      DrainKeepsFlags(c.Dequeue());
    }
  }

  /** A client connects to a replica that has just started. */
  lemma Connects(u: UserId) returns (s: State)
    ensures Reachable(s) && |s.peers| == 1 && Live(s, 0) && s.peers[0].conn == FRESH && s.peers[0].user == u
  {
    assert CanRun(Init(1), []) && After(Init(1), []) == Init(1);
    s := Go(Init(1), Connect(0, u));
    s := Go(s, RecvRegister(0));
    s := Go(s, DoEnlist(0));
  }

  /** Its queue fills up. */
  lemma {:induction false} Fills(u: UserId, n: nat) returns (s: State)
    requires n <= CAPACITY
    ensures Reachable(s) && Live(s, 0) && !s.peers[0].conn.cancelled && !s.peers[0].conn.Lost()
    ensures |s.peers[0].conn.queue| == n
  {
    if n == 0 {
      s := Connects(u);
    } else {
      var t := Fills(u, n - 1);
      var v := ComesTo(t, 0);
      s := Offers(v, |t.agents|, 0);
    }
  }

  /** So a run of the fabric from its start leaves a gap on the wire of a live connection. */
  lemma GapIsReachable(u: UserId) returns (s: State)
    ensures Reachable(s) && |s.peers| > 0
    ensures var c := s.peers[0].conn; !c.cancelled && !(HubOf(c.wire) <= c.offered)
  {
    var full := Fills(u, CAPACITY);
    s := FullQueueGaps(full, 0);
  }
}
