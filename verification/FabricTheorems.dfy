/** What holds in every state that a run of the fabric can reach. */
module FabricTheorems {
  import opened Basics
  import opened Connections
  import opened Fabric
  import opened FabricInv
  import opened FabricEffects
  import opened FabricStructure
  import opened FabricStarts
  import opened FabricDeliveryStarts

  ghost predicate Reachable(s: State) {
    exists n: nat, run: seq<Label> :: CanRun(Init(n), run) && After(Init(n), run) == s
  }

  lemma ReachableHolds(s: State)
    requires Reachable(s)
    ensures FabricInvariant(s)
  {
    var n: nat, run: seq<Label> :| CanRun(Init(n), run) && After(Init(n), run) == s;
    InitHolds(n);
    RunKeeps(Init(n), run);
  }

  // ---------------------------------------------------------------- runs of runs

  lemma {:induction false} RunConcat(s: State, a: seq<Label>, b: seq<Label>)
    requires CanRun(s, a) && CanRun(After(s, a), b)
    ensures CanRun(s, a + b) && After(s, a + b) == After(After(s, a), b)
    decreases |a|
  {
    if a == [] {
      assert a + b == b;
    } else {
      assert (a + b)[0] == a[0] && (a + b)[1..] == a[1..] + b;
      RunConcat(Apply(s, a[0]), a[1..], b);
    }
  }

  lemma RunOne(s: State, l: Label)
    requires Enabled(s, l)
    ensures CanRun(s, [l]) && After(s, [l]) == Apply(s, l)
  {
    assert [l][0] == l && [l][1..] == [];
    assert CanRun(Apply(s, l), []) && After(Apply(s, l), []) == Apply(s, l);
  }

  lemma RunSnoc(s: State, run: seq<Label>, l: Label)
    requires CanRun(s, run) && Enabled(After(s, run), l)
    ensures CanRun(s, run + [l]) && After(s, run + [l]) == Apply(After(s, run), l)
  {
    RunOne(After(s, run), l);
    RunConcat(s, run, [l]);
  }

  lemma ReachableRuns(s: State, run: seq<Label>)
    requires Reachable(s) && CanRun(s, run)
    ensures Reachable(After(s, run))
  {
    var n: nat, before: seq<Label> :| CanRun(Init(n), before) && After(Init(n), before) == s;
    RunConcat(Init(n), before, run);
  }

  lemma ReachableStep(s: State, l: Label)
    requires Reachable(s) && Enabled(s, l)
    ensures Reachable(Apply(s, l))
  {
    RunOne(s, l);
    ReachableRuns(s, [l]);
  }

  // ---------------------------------------------------------------- connections

  /** The hub's map of replica r holds connection p. */
  predicate InMap(s: State, r: nat, p: nat)
    requires r < |s.replicas|
  {
    p in AllConns(s.replicas[r].clients)
  }

  /** A connection is in a hub's map exactly while its registration has been processed and its
      channel is open, only on its own replica and under its own user; nothing has ever sent on
      a closed channel or closed one twice; no user is left with an empty set. */
  lemma ChannelLifecycle(s: State, r: nat, p: nat)
    requires Reachable(s) && r < |s.replicas| && p < |s.peers|
    ensures !s.panicked
    ensures InMap(s, r, p) <==>
              s.peers[p].replica == r && s.peers[p].stage != Outside && s.peers[p].conn.open
    ensures forall u :: u in s.replicas[r].clients ==> s.replicas[r].clients[u] != {}
    ensures forall u :: p in Conns(s.replicas[r].clients, u) ==> u == s.peers[p].user
    ensures s.peers[p].phase == Connecting ==> s.peers[p].stage == Outside
  {
    ReachableHolds(s);
    assert ReplicaOk(s, r) && PeerOk(s, p) && StageOk(s, p);
    forall u | p in Conns(s.replicas[r].clients, u) ensures ListedAs(s, p, r, u) {
      MapIsExact(s, r, u, p);
    }
    if s.peers[p].stage == Listed && s.peers[p].replica == r {
      assert s.peers[p].user in s.replicas[r].clients;
    }
  }

  /** No connection is ever offered the same event twice, and no broker loop delivers an event
      of its own replica. */
  lemma AtMostOnce(s: State, p: nat, a: nat)
    requires Reachable(s) && p < |s.peers| && a < |s.agents|
    ensures Distinct(s.peers[p].conn.offered)
    ensures IsBroker(s, a) && s.agents[a].pass.Some? ==>
              && s.agents[a].pass.value.event < |s.sends|
              && s.sends[s.agents[a].pass.value.event].origin != s.agents[a].replica
  {
    ReachableHolds(s);
    assert PeerOk(s, p) && AgentOk(s, a) && AgentPassOk(s, a);
  }

  /** Nothing is under way: no goroutine has anything to do and every replica has read the log. */
  ghost predicate Settled(s: State) {
    && (forall a :: 0 <= a < |s.agents| ==> s.agents[a].Idle())
    && (forall r :: 0 <= r < |s.replicas| ==> s.replicas[r].cursor == |s.log|)
  }

  /** Once the fabric has settled, a connection that was registered when a send to its user
      began, and still is, has been offered the event once, unless the log lost it. */
  lemma OfferedOnce(s: State, p: nat, e: nat)
    requires Reachable(s) && Settled(s) && Entitled(s, p, e)
    requires s.peers[p].replica < |s.replicas| ==> !LostFor(s, s.peers[p].replica, e)
    ensures multiset(s.peers[p].conn.offered)[e] == 1
  {
    ReachableHolds(s);
    assert CoverOk(s, p, e) && PeerOk(s, p) && SendOk(s, e);
    assert e in s.peers[p].conn.offered;
    OnceInDistinct(s.peers[p].conn.offered, e);
  }

  lemma {:induction false} OnceInDistinct(o: seq<nat>, e: nat)
    requires Distinct(o)
    ensures multiset(o)[e] == if e in o then 1 else 0
  {
    if o != [] {
      var n := |o| - 1;
      assert o == o[..n] + [o[n]];
      OnceInDistinct(o[..n], e);
    }
  }

  /** Two connections that were both offered two events of replicas other than their own were
      offered them in the same order. */
  lemma RemoteOrderAgrees(s: State, p: nat, q: nat, i: nat, j: nat, i': nat, j': nat)
    requires Reachable(s) && p < |s.peers| && q < |s.peers|
    requires i < |s.peers[p].conn.offered| && j < |s.peers[p].conn.offered|
    requires i' < |s.peers[q].conn.offered| && j' < |s.peers[q].conn.offered|
    requires s.peers[p].conn.offered[i] == s.peers[q].conn.offered[i']
    requires s.peers[p].conn.offered[j] == s.peers[q].conn.offered[j']
    requires Remote(s, p, s.peers[p].conn.offered[i]) && Remote(s, p, s.peers[p].conn.offered[j])
    requires Remote(s, q, s.peers[p].conn.offered[i]) && Remote(s, q, s.peers[p].conn.offered[j])
    ensures i < j <==> i' < j'
  {
    ReachableHolds(s);
    var e, f := s.peers[p].conn.offered[i], s.peers[p].conn.offered[j];
    assert OfferOk(s, p, e) && OfferOk(s, p, f) && PeerOk(s, p) && PeerOk(s, q);
    assert OrderOk(s, p) && OrderOk(s, q);
    var k := PlaceInLog(s, p, e);
    var m := PlaceInLog(s, p, f);
    OrderByLog(s, p, i, j, k, m);
    OrderByLog(s, q, i', j', k, m);
  }

  lemma PlaceInLog(s: State, p: nat, e: nat) returns (k: nat)
    requires FabricInvariant(s) && p < |s.peers| && e in s.peers[p].conn.offered && Remote(s, p, e)
    ensures k < |s.log| && s.log[k] == e
  {
    assert OfferOk(s, p, e) && PeerOk(s, p);
    assert LogHas(s, e, 0, s.replicas[s.peers[p].replica].cursor);
    k :| 0 <= k < s.replicas[s.peers[p].replica].cursor && k < |s.log| && s.log[k] == e;
  }

  lemma OrderByLog(s: State, p: nat, i: nat, j: nat, k: nat, m: nat)
    requires FabricInvariant(s) && p < |s.peers|
    requires var o := s.peers[p].conn.offered;
      && i < |o| && j < |o| && Remote(s, p, o[i]) && Remote(s, p, o[j])
      && k < |s.log| && s.log[k] == o[i] && m < |s.log| && s.log[m] == o[j]
    ensures i < j <==> k < m
  {
    assert OrderOk(s, p) && PeerOk(s, p);
  }

  // ---------------------------------------------------------------- gaps

  /** Somebody is about to disconnect connection p. */
  ghost predicate CancelPending(s: State, p: nat) {
    exists a :: 0 <= a < |s.agents| && s.agents[a].pass.Some? && s.agents[a].pass.value.drop == Some(p)
  }

  /** A connection that missed an event is cancelled or about to be; and what is on its wire is
      a gapless part of what was addressed to it exactly when the write pump has not got past
      the first event it missed, which it never has unless another goroutine slipped an event
      into the queue between the refusal and the cancellation. */
  lemma NoSilentGap(s: State, p: nat)
    requires Reachable(s) && p < |s.peers|
    ensures var c := s.peers[p].conn;
      && (c.Lost() ==> c.cancelled || CancelPending(s, p))
      && (HubOf(c.wire) <= c.offered <==> c.firstLoss.None? || |HubOf(c.wire)| <= c.firstLoss.value)
      && (!c.sneaked ==> HubOf(c.wire) <= c.offered)
  {
    ReachableHolds(s);
    var c := s.peers[p].conn;
    assert PeerOk(s, p);
    GapExactly(c);
    if c.Lost() && !c.cancelled {
      var e := LostEvent(c);
      assert OfferOk(s, p, e);
    }
  }

  /** The first event that did not enter the queue never entered it. */
  lemma LostEvent(c: Conn) returns (e: nat)
    requires Inv(c) && c.Lost() && Distinct(c.offered)
    ensures e in c.offered && e !in c.accepted
  {
    var k := c.firstLoss.value;
    e := c.offered[k];
    forall i | 0 <= i < |c.accepted| ensures c.accepted[i] != c.offered[k] {
      if i < k {
        assert c.accepted[..k][i] == c.offered[..k][i];
      } else {
        assert OfferedAfter(c, c.accepted[i], k);
      }
    }
  }

  /** Every refusal is followed at once by the disconnection it causes. */
  ghost predicate Prompt(s: State, run: seq<Label>)
    requires CanRun(s, run)
    decreases |run|
  {
    run != [] ==>
      && (forall a :: 0 <= a < |s.agents| && s.agents[a].pass.Some? && s.agents[a].pass.value.drop.Some? ==>
            run[0] == Disconnect(a))
      && Prompt(Apply(s, run[0]), run[1..])
  }

  ghost predicate NoneSneaked(s: State) {
    forall p :: 0 <= p < |s.peers| ==> !s.peers[p].conn.sneaked
  }

  lemma SneakingIn(s: State, l: Label, p: nat)
    requires Enabled(s, l) && p < |s.peers| && !s.peers[p].conn.sneaked
    ensures p < |Apply(s, l).peers|
    ensures Apply(s, l).peers[p].conn.sneaked ==>
              l.OfferTo? && l.peer == p && s.peers[p].conn.Lost() && !s.peers[p].conn.cancelled
  {
    if Inner(l) {
      if Touched(s, l) != Some(p) {
        UntouchedConn(s, l, p);
      } else {
        TouchedSneaks(s, l, p);
      }
    } else {
      StartsDoNotSneak(s, l, p);
    }
  }

  lemma TouchedSneaks(s: State, l: Label, p: nat)
    requires Enabled(s, l) && p < |s.peers| && !s.peers[p].conn.sneaked && Inner(l) && Touched(s, l) == Some(p)
    ensures Apply(s, l).peers[p].conn.sneaked ==>
              l.OfferTo? && l.peer == p && s.peers[p].conn.Lost() && !s.peers[p].conn.cancelled
  {
  }

  lemma StartsDoNotSneak(s: State, l: Label, p: nat)
    requires Enabled(s, l) && p < |s.peers| && !Inner(l)
    ensures p < |Apply(s, l).peers| && Apply(s, l).peers[p].conn.sneaked == s.peers[p].conn.sneaked
  {
    if StartStep(l) { StartExtends(s, l); } else { HubsDoNotSneak(s, l, p); }
  }

  lemma HubsDoNotSneak(s: State, l: Label, p: nat)
    requires Enabled(s, l) && HubStep(l)
    ensures |Apply(s, l).peers| == |s.peers|
    ensures p < |s.peers| ==> Apply(s, l).peers[p].conn.sneaked == s.peers[p].conn.sneaked
  {
  }

  lemma NewcomersAreFresh(s: State, l: Label, p: nat)
    requires Enabled(s, l) && |s.peers| <= p < |Apply(s, l).peers|
    ensures !Apply(s, l).peers[p].conn.sneaked
  {
    if Inner(l) {
      InnerRest(s, l);
    } else if HubStep(l) {
      HubsDoNotSneak(s, l, p);
    } else {
      StartsAreFresh(s, l, p);
    }
  }

  lemma StartsAreFresh(s: State, l: Label, p: nat)
    requires Enabled(s, l) && StartStep(l) && |s.peers| <= p < |Apply(s, l).peers|
    ensures !Apply(s, l).peers[p].conn.sneaked
  {
  }

  lemma PromptStep(s: State, l: Label, p: nat)
    requires FabricInvariant(s) && NoneSneaked(s) && Enabled(s, l)
    requires forall a :: 0 <= a < |s.agents| && s.agents[a].pass.Some? && s.agents[a].pass.value.drop.Some? ==>
        l == Disconnect(a)
    requires p < |Apply(s, l).peers|
    ensures !Apply(s, l).peers[p].conn.sneaked
  {
    if p >= |s.peers| {
      NewcomersAreFresh(s, l, p);
    } else {
      SneakingIn(s, l, p);
      var c := s.peers[p].conn;
      assert PeerOk(s, p);
      if l.OfferTo? && c.Lost() {
        var e := LostEvent(c);
        assert OfferOk(s, p, e);
      }
    }
  }

  lemma {:induction false} PromptRun(s: State, run: seq<Label>)
    requires FabricInvariant(s) && NoneSneaked(s) && CanRun(s, run) && Prompt(s, run)
    ensures NoneSneaked(After(s, run)) && FabricInvariant(After(s, run))
    decreases |run|
  {
    if run != [] {
      StepKeeps(s, run[0]);
      forall p | 0 <= p < |Apply(s, run[0]).peers| ensures !Apply(s, run[0]).peers[p].conn.sneaked {
        PromptStep(s, run[0], p);
      }
      PromptRun(Apply(s, run[0]), run[1..]);
    }
  }

  /** When each failed enqueue and its disconnection are one step, no wire ever has a gap. */
  lemma PromptRunsHaveNoGap(n: nat, run: seq<Label>, p: nat)
    requires CanRun(Init(n), run) && Prompt(Init(n), run)
    requires p < |After(Init(n), run).peers|
    ensures HubOf(After(Init(n), run).peers[p].conn.wire) <= After(Init(n), run).peers[p].conn.offered
  {
    InitHolds(n);
    PromptRun(Init(n), run);
    assert PeerOk(After(Init(n), run), p);
  }

  // ---------------------------------------------------------------- disconnection

  /** A cancelled connection stays cancelled and its wire as it is. */
  ghost predicate WireStays(s: State, t: State, p: nat) {
    p < |s.peers| && s.peers[p].conn.cancelled ==>
      p < |t.peers| && t.peers[p].conn.cancelled && t.peers[p].conn.wire == s.peers[p].conn.wire
  }

  lemma LoopsKeepWire(s: State, l: Label, p: nat)
    requires Enabled(s, l) && PassStep(l)
    ensures WireStays(s, Apply(s, l), p)
  {
  }

  lemma OthersKeepWire(s: State, l: Label, p: nat)
    requires Enabled(s, l) && Inner(l) && !PassStep(l)
    ensures WireStays(s, Apply(s, l), p)
  {
  }

  lemma HubKeepsWire(s: State, l: Label, p: nat)
    requires Enabled(s, l) && HubStep(l)
    ensures WireStays(s, Apply(s, l), p)
  {
  }

  lemma StepKeepsWire(s: State, l: Label, p: nat)
    requires Enabled(s, l)
    ensures WireStays(s, Apply(s, l), p)
  {
    if PassStep(l) {
      LoopsKeepWire(s, l, p);
    } else if StartStep(l) {
      StartExtends(s, l);
    } else if HubStep(l) {
      HubKeepsWire(s, l, p);
    } else {
      OthersKeepWire(s, l, p);
    }
  }

  /** `Disconnect` is final: whatever happens afterwards, nothing more reaches the wire. */
  lemma {:induction false} DisconnectIsFinal(s: State, run: seq<Label>, p: nat)
    requires CanRun(s, run) && p < |s.peers| && s.peers[p].conn.cancelled
    ensures var t := After(s, run);
      p < |t.peers| && t.peers[p].conn.cancelled && t.peers[p].conn.wire == s.peers[p].conn.wire
    decreases |run|
  {
    if run != [] {
      StepKeepsWire(s, run[0], p);
      DisconnectIsFinal(Apply(s, run[0]), run[1..], p);
    }
  }

  // ---------------------------------------------------------------- acknowledgements

  /** A connection on the replica where a message was sent, registered before the send began
      and addressed by it, has been written the message before any acknowledgement of it,
      however the goroutines interleave. */
  lemma AckImpliesMessage(s: State, p: nat, i: nat)
    requires Reachable(s) && p < |s.peers|
    requires i < |HubOf(s.peers[p].conn.wire)| && AckFor(s, p, HubOf(s.peers[p].conn.wire)[i])
    ensures s.sends[HubOf(s.peers[p].conn.wire)[i]].body.of in HubOf(s.peers[p].conn.wire)[..i]
  {
    ReachableHolds(s);
    var c := s.peers[p].conn;
    assert PeerOk(s, p);
    assert c.accepted[i] == HubOf(c.wire)[i];
    assert AckOk(s, p, i);
    assert c.accepted[..i] == HubOf(c.wire)[..i];
  }
}
