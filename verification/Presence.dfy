/** Presence as each replica announces it. */
module Presence {
  import opened Fabric
  import opened FabricInv
  import opened FabricEffects
  import opened FabricStructure
  import opened FabricStarts
  import opened FabricDeliveryStarts
  import opened FabricTheorems

  /** The presence announcements replica r has begun for user u, `true` for online. */
  function Announced(sends: seq<Sent>, r: nat, u: UserId): seq<bool> {
    if sends == [] then []
    else
      var n := |sends| - 1;
      Announced(sends[..n], r, u)
      + if sends[n].origin != r then []
        else if sends[n].body == Online(u) then [true]
        else if sends[n].body == Offline(u) then [false]
        else []
  }

  /** The users replica r has announced as offline, in order. */
  function WentOffline(sends: seq<Sent>, r: nat): seq<UserId> {
    if sends == [] then []
    else
      var n := |sends| - 1;
      WentOffline(sends[..n], r)
      + if sends[n].origin == r && sends[n].body.Offline? then [sends[n].body.user] else []
  }

  /** The `OnDisconnect` calls a hub loop has still to make. */
  function Unreported(ops: seq<Op>): seq<UserId> {
    if ops == [] then [] else (if ops[0].LastSeen? then [ops[0].user] else []) + Unreported(ops[1..])
  }

  /** `IsOnline` of the hub of replica r. */
  predicate IsOnline(s: State, r: nat, u: UserId)
    requires r < |s.replicas|
  {
    Conns(s.replicas[r].clients, u) != {}
  }

  ghost predicate Alternates(b: seq<bool>) {
    forall i :: 0 <= i < |b| ==> b[i] == (i % 2 == 0)
  }

  ghost predicate UserOk(s: State, r: nat, u: UserId) {
    r < |s.replicas| ==>
      && Alternates(Announced(s.sends, r, u))
      && (IsOnline(s, r, u) <==> |Announced(s.sends, r, u)| % 2 == 1)
  }

  ghost predicate ReportOk(s: State, r: nat) {
    r < |s.replicas| && r < |s.agents| ==>
      WentOffline(s.sends, r) == s.replicas[r].lastSeen + Unreported(s.agents[r].ops)
  }

  ghost predicate PresenceInv(s: State) {
    && (forall r, u :: UserOk(s, r, u))
    && (forall r :: ReportOk(s, r))
  }

  /** A send that is no announcement changes nothing here. */
  lemma {:induction false} OthersAnnounceNothing(sends: seq<Sent>, more: seq<Sent>, r: nat, u: UserId)
    requires forall i :: 0 <= i < |more| ==> more[i].origin != r || (!more[i].body.Online? && !more[i].body.Offline?)
    ensures Announced(sends + more, r, u) == Announced(sends, r, u)
    ensures WentOffline(sends + more, r) == WentOffline(sends, r)
  {
    if more == [] {
      assert sends + more == sends;
    } else {
      var n := |more| - 1;
      assert (sends + more)[..|sends| + n] == sends + more[..n];
      OthersAnnounceNothing(sends, more[..n], r, u);
    }
  }

  lemma AnnounceOne(sends: seq<Sent>, x: Sent, r: nat, u: UserId)
    ensures Announced(sends + [x], r, u) == Announced(sends, r, u)
      + if x.origin != r then [] else if x.body == Online(u) then [true] else if x.body == Offline(u)
          then [false] else []
    ensures WentOffline(sends + [x], r) == WentOffline(sends, r)
      + if x.origin == r && x.body.Offline? then [x.body.user] else []
  {
    assert (sends + [x])[..|sends|] == sends;
  }

  /** Away from the hub's own steps neither the map nor the announcements change. */
  lemma QuietSends(s: State, l: Label)
    requires Enabled(s, l) && !HubStep(l)
    ensures var t := Apply(s, l);
      && s.sends <= t.sends
      && forall i :: |s.sends| <= i < |t.sends| ==> !t.sends[i].body.Online? && !t.sends[i].body.Offline?
  {
    if Inner(l) {
      InnerRest(s, l);
    }
  }

  lemma QuietMap(s: State, l: Label, r: nat)
    requires Enabled(s, l) && !HubStep(l) && r < |s.replicas| && r < |s.agents|
    ensures var t := Apply(s, l);
      && r < |t.replicas| && r < |t.agents|
      && t.replicas[r].clients == s.replicas[r].clients
  {
    if Inner(l) {
      InnerRest(s, l);
      InnerReplicas(s, l, r);
      assert ReplicaStays(s, Apply(s, l), r);
    } else {
      StartExtends(s, l);
    }
  }

  /** Every `OnDisconnect` call leaves the loop's list as it is made. */
  lemma Reported(s: State, l: Label, r: nat)
    requires Enabled(s, l) && !HubStep(l) && r < |s.replicas| && r < |s.agents|
    requires l.RecvRegister? || l.RecvUnregister? ==> s.peers[l.peer].replica < |s.replicas|
    ensures var t := Apply(s, l);
      && r < |t.replicas| && r < |t.agents|
      && t.replicas[r].lastSeen + Unreported(t.agents[r].ops)
         == s.replicas[r].lastSeen + Unreported(s.agents[r].ops)
  {
    if PassStep(l) {
      ReportedByLoops(s, l, r);
    } else if l.DoLastSeen? {
      ReportedByHub(s, l, r);
    } else if StartStep(l) {
      StartExtends(s, l);
    } else {
      ReportedByOthers(s, l, r);
    }
  }

  lemma ReportedByHub(s: State, l: Label, r: nat)
    requires Enabled(s, l) && l.DoLastSeen? && r < |s.replicas| && r < |s.agents|
    ensures var t := Apply(s, l);
      && r < |t.replicas| && r < |t.agents|
      && t.replicas[r].lastSeen + Unreported(t.agents[r].ops)
         == s.replicas[r].lastSeen + Unreported(s.agents[r].ops)
  {
    if l.replica == r {
      var u := s.agents[r].ops[0].user;
      assert s.replicas[r].lastSeen + Unreported(s.agents[r].ops)
        == (s.replicas[r].lastSeen + [u]) + Unreported(s.agents[r].ops[1..]);
    }
  }

  lemma ReportedByOthers(s: State, l: Label, r: nat)
    requires Enabled(s, l) && Inner(l) && !PassStep(l) && !l.DoLastSeen? && r < |s.replicas| && r < |s.agents|
    requires l.RecvRegister? || l.RecvUnregister? ==> s.peers[l.peer].replica < |s.replicas|
    ensures var t := Apply(s, l);
      && r < |t.replicas| && r < |t.agents|
      && t.replicas[r].lastSeen == s.replicas[r].lastSeen
      && Unreported(t.agents[r].ops) == Unreported(s.agents[r].ops)
  {
  }

  lemma ReportedByLoops(s: State, l: Label, r: nat)
    requires Enabled(s, l) && PassStep(l) && r < |s.replicas| && r < |s.agents|
    ensures var t := Apply(s, l);
      && t.replicas == s.replicas && r < |t.agents|
      && Unreported(t.agents[r].ops) == Unreported(s.agents[r].ops)
  {
  }

  lemma QuietStep(s: State, l: Label, r: nat, u: UserId)
    requires FabricInvariant(s) && PresenceInv(s) && Enabled(s, l) && !HubStep(l)
    ensures UserOk(Apply(s, l), r, u) && ReportOk(Apply(s, l), r)
  {
    var t := Apply(s, l);
    QuietCount(s, l);
    if r < |s.replicas| {
      assert UserOk(s, r, u) && ReportOk(s, r);
      QuietSends(s, l);
      assert t.sends == s.sends + t.sends[|s.sends|..];
      OthersAnnounceNothing(s.sends, t.sends[|s.sends|..], r, u);
      QuietMap(s, l, r);
      if l.RecvRegister? || l.RecvUnregister? {
        assert PeerOk(s, l.peer);
      }
      Reported(s, l, r);
    }
  }

  lemma QuietCount(s: State, l: Label)
    requires Enabled(s, l) && !HubStep(l)
    ensures |Apply(s, l).replicas| == |s.replicas|
  {
    if Inner(l) { InnerRest(s, l); } else { StartExtends(s, l); }
  }

  lemma EnlistUser(s: State, l: Label, r: nat, u: UserId)
    requires AtHub(s, l) && l.DoEnlist? && UserOk(s, r, u) && r < |s.agents|
    ensures UserOk(Apply(s, l), r, u)
  {
    var p := Subject(s, l.replica);
    HubTurns(s, l);
    AnnounceOne(s.sends, Sent(l.replica, l.replica, Everyone, Online(s.peers[p].user)), r, u);
    assert s.sends + [] == s.sends;
  }

  lemma StrikeUser(s: State, l: Label, r: nat, u: UserId)
    requires AtHub(s, l) && l.DoStrike? && UserOk(s, r, u) && r < |s.agents|
    requires ReplicaOk(s, l.replica)
    ensures UserOk(Apply(s, l), r, u)
  {
    var p := Subject(s, l.replica);
    HubTurns(s, l);
    AnnounceOne(s.sends, Sent(l.replica, l.replica, Everyone, Offline(s.peers[p].user)), r, u);
  }

  lemma UnreportedLists(e: nat, u: UserId, o: Op)
    ensures Unreported([Local(e), Publish(e)]) == []
    ensures Unreported([LastSeen(u), Local(e), Publish(e)]) == [u]
    ensures o.Enlist? || o.Strike? ==> Unreported([o]) == []
  {
    assert [Publish(e)][1..] == [] && [o][1..] == [];
    assert Unreported([Publish(e)]) == [];
    assert [Local(e), Publish(e)][1..] == [Publish(e)];
    assert [LastSeen(u), Local(e), Publish(e)][1..] == [Local(e), Publish(e)];
  }

  lemma JoinReport(s: State, t: State, h: nat, p: nat, r: nat)
    requires HubMove(s, t, h, p) && JoinedMap(s, t, h, p) && s.agents[h].ops == [Enlist(p)]
    requires ReportOk(s, r) && r < |s.agents|
    ensures ReportOk(t, r)
  {
    var u := s.peers[p].user;
    AnnounceOne(s.sends, Sent(h, h, Everyone, Online(u)), r, u);
    UnreportedLists(|s.sends|, u, Enlist(p));
    assert [] + [Local(|s.sends|), Publish(|s.sends|)] == [Local(|s.sends|), Publish(|s.sends|)];
    assert WentOffline(s.sends, r) + [] == WentOffline(s.sends, r);
  }

  lemma LeaveReport(s: State, t: State, h: nat, p: nat, r: nat)
    requires HubMove(s, t, h, p) && LeftMap(s, t, h, p) && s.agents[h].ops == [Strike(p)]
    requires ReportOk(s, r) && r < |s.agents|
    ensures ReportOk(t, r)
  {
    var u := s.peers[p].user;
    AnnounceOne(s.sends, Sent(h, h, Everyone, Offline(u)), r, u);
    UnreportedLists(|s.sends|, u, Strike(p));
    var e := |s.sends|;
    assert [LastSeen(u)] + [Local(e), Publish(e)] == [LastSeen(u), Local(e), Publish(e)];
    assert WentOffline(s.sends, r) + [] == WentOffline(s.sends, r);
  }

  lemma HubReport(s: State, l: Label, r: nat)
    requires AtHub(s, l) && ReportOk(s, r) && r < |s.agents|
    ensures ReportOk(Apply(s, l), r)
  {
    var p := Subject(s, l.replica);
    HubTurns(s, l);
    if l.DoEnlist? { JoinReport(s, Apply(s, l), l.replica, p, r); }
        else { LeaveReport(s, Apply(s, l), l.replica, p, r); }
  }

  lemma PresenceStep(s: State, l: Label)
    requires FabricInvariant(s) && PresenceInv(s) && Enabled(s, l)
    ensures PresenceInv(Apply(s, l))
  {
    var t := Apply(s, l);
    if HubStep(l) {
      HubIsThere(s, l);
      HubMoves(s, l);
      assert ReplicaOk(s, l.replica);
      forall r: nat, u ensures UserOk(t, r, u) {
        assert UserOk(s, r, u);
        if r < |s.replicas| {
          if l.DoEnlist? { EnlistUser(s, l, r, u); } else { StrikeUser(s, l, r, u); }
        }
      }
      forall r: nat ensures ReportOk(t, r) {
        assert ReportOk(s, r);
        if r < |s.agents| { HubReport(s, l, r); }
      }
    } else {
      forall r: nat, u ensures UserOk(t, r, u) { QuietStep(s, l, r, u); }
      forall r: nat ensures ReportOk(t, r) { QuietStep(s, l, r, 0); }
    }
  }

  lemma {:induction false} PresenceRun(s: State, run: seq<Label>)
    requires FabricInvariant(s) && PresenceInv(s) && CanRun(s, run)
    ensures PresenceInv(After(s, run))
    decreases |run|
  {
    if run != [] {
      StepKeeps(s, run[0]);
      PresenceStep(s, run[0]);
      PresenceRun(Apply(s, run[0]), run[1..]);
    }
  }

  lemma PresenceReached(s: State)
    requires Reachable(s)
    ensures PresenceInv(s)
  {
    var n: nat, run: seq<Label> :| CanRun(Init(n), run) && After(Init(n), run) == s;
    InitHolds(n);
    PresenceRun(Init(n), run);
  }

  /** On every replica the announcements for a user alternate, online first; the hub's answer to
      `IsOnline` is the last announcement; and whenever the hub loop is between two iterations
      `OnDisconnect` has been called exactly for the offline announcements, in their order. */
  lemma PresenceIsExact(s: State, r: nat, u: UserId)
    requires Reachable(s) && r < |s.replicas| && r < |s.agents|
    ensures var b := Announced(s.sends, r, u);
      && (forall i :: 0 <= i < |b| ==> b[i] == (i % 2 == 0))
      && (IsOnline(s, r, u) <==> b != [] && b[|b| - 1])
    ensures s.agents[r].Idle() ==> s.replicas[r].lastSeen == WentOffline(s.sends, r)
  {
    PresenceReached(s);
    assert UserOk(s, r, u) && ReportOk(s, r);
  }
}
