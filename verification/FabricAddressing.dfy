/** Who receives what: the steps that begin sends, followed to the wires of the connections, with
    the addressees taken from the request and not from the record of the send. */
module FabricAddressing {
  import opened Basics
  import opened Connections
  import opened Fabric
  import opened FabricInv
  import opened FabricEffects
  import opened FabricStructure
  import opened FabricStarts
  import opened FabricDeliveryStarts
  import opened FabricTheorems
  import opened FabricLoss
  import opened Cascade

  // ---------------------------------------------------------------- connections keep who they are

  /** A connection keeps its replica and its user, and once registered it stays so until removed. */
  ghost predicate Same(x: Peer, y: Peer) {
    && y.replica == x.replica && y.user == x.user
    && (x.stage != Outside ==> y.stage != Outside && y.regAt == x.regAt)
  }

  ghost predicate SamePeer(s: State, t: State, p: nat) {
    p < |s.peers| ==> p < |t.peers| && Same(s.peers[p], t.peers[p])
  }

  lemma StepKeepsPeer(s: State, l: Label, p: nat)
    requires FabricInvariant(s) && Enabled(s, l)
    ensures SamePeer(s, Apply(s, l), p)
  {
    if Inner(l) {
      InnerRest(s, l);
      InnerPeers(s, l, p);
      assert PeerStays(s, Apply(s, l), p);
    } else if StartStep(l) {
      StartExtends(s, l);
    } else {
      HubIsThere(s, l);
      HubTurns(s, l);
      HubKeepsPeer(s, Apply(s, l), l.replica, Subject(s, l.replica), p);
    }
  }

  lemma HubKeepsPeer(s: State, t: State, r: nat, x: nat, p: nat)
    requires HubTurn(s, t, r, x)
    ensures SamePeer(s, t, p)
  {
  }

  lemma {:induction false} RunKeepsPeer(s: State, run: seq<Label>, p: nat)
    requires FabricInvariant(s) && CanRun(s, run)
    ensures SamePeer(s, After(s, run), p)
    decreases |run|
  {
    if run != [] {
      StepKeepsPeer(s, run[0], p);
      StepKeeps(s, run[0]);
      RunKeepsPeer(Apply(s, run[0]), run[1..], p);
    }
  }

  /** A connection belongs to the replica and the user it was opened for, whatever happens. */
  lemma ConnectionIsItsUsers(s: State, r: nat, u: UserId, run: seq<Label>)
    requires Reachable(s) && Enabled(s, Connect(r, u)) && CanRun(Apply(s, Connect(r, u)), run)
    ensures var t := After(Apply(s, Connect(r, u)), run);
      |s.peers| < |t.peers| && t.peers[|s.peers|].replica == r && t.peers[|s.peers|].user == u
  {
    ReachableStep(s, Connect(r, u));
    ReachableHolds(Apply(s, Connect(r, u)));
    RunKeepsPeer(Apply(s, Connect(r, u)), run, |s.peers|);
  }

  // ---------------------------------------------------------------- one send, followed to the wires

  /** Connection q is registered in both states. */
  predicate StaysRegistered(s: State, t: State, q: nat) {
    q < |s.peers| && s.peers[q].stage == Listed && q < |t.peers| && t.peers[q].stage == Listed
  }

  /** Event e was offered to the connection once and is on its wire once. */
  ghost predicate GotOnce(t: State, q: nat, e: nat) {
    && q < |t.peers|
    && multiset(t.peers[q].conn.offered)[e] == 1
    && multiset(HubOf(t.peers[q].conn.wire))[e] == 1
  }

  ghost predicate NeverGot(t: State, q: nat, e: nat) {
    q < |t.peers| ==> e !in t.peers[q].conn.offered && e !in HubOf(t.peers[q].conn.wire)
  }

  /** Everybody registered whose user satisfies `addressed` got e once, and nobody else got it. */
  ghost predicate Reaches(s: State, t: State, e: nat, addressed: UserId -> bool) {
    && (forall q: nat :: StaysRegistered(s, t, q) && addressed(s.peers[q].user) ==> GotOnce(t, q, e))
    && (forall q: nat :: q < |t.peers| && !addressed(t.peers[q].user) ==> NeverGot(t, q, e))
  }

  /** From s the step l is taken, after which the run comes to rest in t without a fault. */
  ghost predicate Settles(s: State, l: Label, run: seq<Label>, t: State) {
    && Reachable(s) && Enabled(s, l)
    && CanRun(Apply(s, l), run) && FaultFree(Apply(s, l), run)
    && t == After(Apply(s, l), run) && Quiescent(t)
  }

  lemma SettledIsReachable(s: State, l: Label, run: seq<Label>, t: State)
    requires Settles(s, l, run, t)
    ensures Reachable(Apply(s, l)) && Reachable(t) && FabricInvariant(s) && FabricInvariant(t)
    ensures Apply(s, l).sends <= t.sends
  {
    ReachableHolds(s);
    ReachableStep(s, l);
    ReachableRuns(Apply(s, l), run);
    ReachableHolds(t);
    RunLosesNothing(Apply(s, l), run);
  }

  /** An event that begins with the step or later is not lost, and so it arrives. */
  lemma CoveredGets(s: State, l: Label, run: seq<Label>, t: State, e: nat, q: nat)
    requires Settles(s, l, run, t) && |s.sends| <= e < |t.sends| && StaysRegistered(s, t, q)
    requires Covers(t.sends[e].dest, s.peers[q].user)
    ensures GotOnce(t, q, e)
  {
    SettledIsReachable(s, l, run, t);
    var s' := Apply(s, l);
    StepKeepsPeer(s, l, q);
    ReachableHolds(s');
    RunKeepsPeer(s', run, q);
    assert PeerOk(s, q);
    assert Entitled(t, q, e);
    if e < |s'.sends| {
      NothingLostYet(s, l, s'.peers[q].replica, e);
    }
    EverythingArrives(s', run, q, e);
  }

  /** The log cannot have lost an event that has just begun. */
  lemma NothingLostYet(s: State, l: Label, r: nat, e: nat)
    requires FabricInvariant(s) && Enabled(s, l) && |s.sends| <= e < |Apply(s, l).sends|
    ensures !LostFor(Apply(s, l), r, e)
  {
    if Inner(l) {
      InnerRest(s, l);
    }
    OthersDoNotLog(s, l);
    assert LogOk(s);
  }

  lemma UncoveredNeverGets(t: State, e: nat, q: nat)
    requires Reachable(t) && q < |t.peers| && e < |t.sends| && !Covers(t.sends[e].dest, t.peers[q].user)
    ensures NeverGot(t, q, e)
  {
    ReachableHolds(t);
    assert OfferOk(t, q, e) && PeerOk(t, q);
    var c := t.peers[q].conn;
    if e in HubOf(c.wire) {
      AcceptedWasOffered(c, e);
    }
  }

  lemma AcceptedWasOffered(c: Conn, e: nat)
    requires Inv(c) && e in c.accepted
    ensures e in c.offered
  {
    var i :| 0 <= i < |c.accepted| && c.accepted[i] == e;
    match c.firstLoss {
      case None =>
      case Some(k) =>
        if i < k {
          assert c.accepted[..k][i] == c.offered[..k][i];
        } else {
          assert OfferedAfter(c, c.accepted[i], k);
        }
    }
  }

  /** Whatever step begins a send, the send reaches those it is addressed to. */
  lemma SendReaches(s: State, l: Label, run: seq<Label>, t: State, e: nat, addressed: UserId -> bool)
    requires Settles(s, l, run, t) && |s.sends| <= e < |t.sends|
    requires forall u :: addressed(u) <==> Covers(t.sends[e].dest, u)
    ensures Reaches(s, t, e, addressed)
  {
    SettledIsReachable(s, l, run, t);
    forall q: nat | StaysRegistered(s, t, q) && addressed(s.peers[q].user) ensures GotOnce(t, q, e) {
      CoveredGets(s, l, run, t, e, q);
    }
    forall q: nat | q < |t.peers| && !addressed(t.peers[q].user) ensures NeverGot(t, q, e) {
      UncoveredNeverGets(t, e, q);
    }
  }

  // ---------------------------------------------------------------- the steps that begin sends

  /** A message from connection p to `members`: when nothing fails until the fabric rests, every
      connection of a member that was registered before and still is has `message.new` on its wire
      exactly once, every such connection of the sender has the acknowledgement exactly once, and
      no connection of anybody else, old or new, was offered either. */
  lemma MessageReachesMembers(s: State, p: nat, members: seq<UserId>, run: seq<Label>, t: State)
    requires Settles(s, StartMessage(p, members), run, t)
    ensures var e := |s.sends|;
      && |Apply(s, StartMessage(p, members)).sends| == e + 2 && e + 2 <= |t.sends|
      && t.sends[e].body == New && t.sends[e + 1].body == Ack(e)
      && Reaches(s, t, e, u => u in members)
      && Reaches(s, t, e + 1, u => u == s.peers[p].user)
  {
    var l, e := StartMessage(p, members), |s.sends|;
    SettledIsReachable(s, l, run, t);
    SendReaches(s, l, run, t, e, u => u in members);
    SendReaches(s, l, run, t, e + 1, u => u == s.peers[p].user);
  }

  lemma {:induction false} RunKeepsSends(s: State, run: seq<Label>)
    requires CanRun(s, run)
    ensures s.sends <= After(s, run).sends
    decreases |run|
  {
    if run != [] {
      LogGrows(s, run[0]);
      RunKeepsSends(Apply(s, run[0]), run[1..]);
    }
  }

  /** A connection of a member on the sender's replica, registered before the message was sent, has
      the message on its wire before the acknowledgement, in whatever run follows. */
  lemma AckFollowsMessage(s: State, p: nat, members: seq<UserId>, run: seq<Label>, q: nat)
    requires Reachable(s) && Enabled(s, StartMessage(p, members)) && CanRun(Apply(s, StartMessage(p, members)), run)
    requires q < |s.peers| && s.peers[q].stage != Outside && s.peers[q].replica == s.peers[p].replica
    requires s.peers[q].user in members
    ensures var t, e := After(Apply(s, StartMessage(p, members)), run), |s.sends|;
      && q < |t.peers|
      && var wire := HubOf(t.peers[q].conn.wire);
      forall i :: 0 <= i < |wire| && wire[i] == e + 1 ==> e in wire[..i]
  {
    var l, e := StartMessage(p, members), |s.sends|;
    var s' := Apply(s, l);
    var t := After(s', run);
    ReachableHolds(s);
    ReachableStep(s, l);
    ReachableHolds(s');
    ReachableRuns(s', run);
    StepKeepsPeer(s, l, q);
    RunKeepsPeer(s', run, q);
    RunKeepsSends(s', run);
    MessageSends(s, p, members);
    assert PeerOk(s, q) && PeerOk(s, p);
    var wire := HubOf(t.peers[q].conn.wire);
    forall i | 0 <= i < |wire| && wire[i] == e + 1 ensures e in wire[..i] {
      assert t.sends[e] == s'.sends[e] && t.sends[e + 1] == s'.sends[e + 1];
      assert AckFor(t, q, e + 1);
      AckImpliesMessage(t, q, i);
    }
  }

  lemma MessageSends(s: State, p: nat, members: seq<UserId>)
    requires Enabled(s, StartMessage(p, members))
    ensures var t, e, r := Apply(s, StartMessage(p, members)), |s.sends|, s.peers[p].replica;
      && |t.sends| == e + 2
      && t.sends[e].dest == Users(members) && t.sends[e].body == New
      && t.sends[e + 1].origin == r && t.sends[e + 1].body == Ack(e)
  {
  }

  /** Any other handler or REST call with one `Send` to `dest`. */
  lemma CastReaches(s: State, r: nat, owner: Option<nat>, dest: Dest, typing: bool, run: seq<Label>, t: State)
    requires Settles(s, StartCast(r, owner, dest, typing), run, t)
    ensures var e := |s.sends|;
      && |Apply(s, StartCast(r, owner, dest, typing)).sends| == e + 1 <= |t.sends|
      && t.sends[e].body == Other && t.sends[e].origin == r
      && Reaches(s, t, e, u => u in dest.ids)
  {
    SettledIsReachable(s, StartCast(r, owner, dest, typing), run, t);
    SendReaches(s, StartCast(r, owner, dest, typing), run, t, |s.sends|, u => u in dest.ids);
  }

  /** A typing timer that fires sends to those the typing started for. */
  lemma TimerReaches(s: State, k: nat, run: seq<Label>, t: State)
    requires Settles(s, Fire(k), run, t)
    ensures var e := |s.sends|;
      && s.timers[k].dest.Users? && |Apply(s, Fire(k)).sends| == e + 1 <= |t.sends|
      && t.sends[e].body == Other
      && Reaches(s, t, e, u => u in s.timers[k].dest.ids)
  {
    SettledIsReachable(s, Fire(k), run, t);
    assert TimerOk(s, k);
    SendReaches(s, Fire(k), run, t, |s.sends|, u => u in s.timers[k].dest.ids);
  }

  /** The first connection of a user: everybody hears that the user is online. */
  lemma OnlineReachesAll(s: State, r: nat, run: seq<Label>, t: State)
    requires Settles(s, DoEnlist(r), run, t)
    requires var p := s.agents[r].ops[0].peer; Conns(s.replicas[r].clients, s.peers[p].user) == {}
    ensures var p, e := s.agents[r].ops[0].peer, |s.sends|;
      && e < |t.sends| && t.sends[e].body == Online(s.peers[p].user)
      && Reaches(s, t, e, u => true)
  {
    SettledIsReachable(s, DoEnlist(r), run, t);
    OnlineIsSent(s, r);
    SendReaches(s, DoEnlist(r), run, t, |s.sends|, u => true);
  }

  lemma OnlineIsSent(s: State, r: nat)
    requires FabricInvariant(s) && Enabled(s, DoEnlist(r))
    requires var p := s.agents[r].ops[0].peer; Conns(s.replicas[r].clients, s.peers[p].user) == {}
    ensures var u := s.peers[s.agents[r].ops[0].peer].user;
      Apply(s, DoEnlist(r)).sends == s.sends + [Sent(r, r, Everyone, Online(u))]
  {
    HubIsThere(s, DoEnlist(r));
    EnlistJoins(s, DoEnlist(r));
  }

  /** The last connection of a user: everybody hears that the user is offline. */
  lemma OfflineReachesAll(s: State, r: nat, run: seq<Label>, t: State)
    requires Settles(s, DoStrike(r), run, t)
    requires var p := s.agents[r].ops[0].peer; Conns(s.replicas[r].clients, s.peers[p].user) == {p}
    ensures var p, e := s.agents[r].ops[0].peer, |s.sends|;
      && e < |t.sends| && t.sends[e].body == Offline(s.peers[p].user)
      && Reaches(s, t, e, u => true)
  {
    SettledIsReachable(s, DoStrike(r), run, t);
    OfflineIsSent(s, r);
    SendReaches(s, DoStrike(r), run, t, |s.sends|, u => true);
  }

  lemma OfflineIsSent(s: State, r: nat)
    requires FabricInvariant(s) && Enabled(s, DoStrike(r))
    requires var p := s.agents[r].ops[0].peer; Conns(s.replicas[r].clients, s.peers[p].user) == {p}
    ensures var u := s.peers[s.agents[r].ops[0].peer].user;
      Apply(s, DoStrike(r)).sends == s.sends + [Sent(r, r, Everyone, Offline(u))]
  {
    HubIsThere(s, DoStrike(r));
    StrikeLeaves(s, DoStrike(r));
  }

  /** When the fabric rests, every connection that is left can send a message, to any members, or
      make any other call, and be answered with an error. */
  lemma LiveConnectionsCanSend(s: State, p: nat, members: seq<UserId>, typing: bool, tag: nat)
    requires Reachable(s) && Quiescent(s) && p < |s.peers| && s.peers[p].phase != Gone && Distinct(members)
    ensures s.peers[p].stage == Listed
    ensures Enabled(s, StartMessage(p, members)) && Enabled(s, ReplyError(p, tag))
    ensures Enabled(s, StartCast(s.peers[p].replica, Some(p), Users(members), typing))
  {
    ReachableHolds(s);
    assert PeerQuiet(s.peers[p]) && PeerOk(s, p) && StageOk(s, p);
    assert s.agents[s.peers[p].replica].Idle();
  }

  // ---------------------------------------------------------------- typing is taken back

  /** Replica r will broadcast to `dest`, or has done so since event `from`. */
  ghost predicate Owes(s: State, r: nat, dest: Dest, from: nat) {
    || (exists a: nat :: ToArm(s, a, r, dest))
    || Timer(r, dest) in s.timers
    || (exists e: nat :: CastAt(s, e, r, dest, from))
  }

  predicate ToArm(s: State, a: nat, r: nat, dest: Dest) {
    a < |s.agents| && s.agents[a].replica == r && Arm(dest) in s.agents[a].ops
  }

  predicate CastAt(s: State, e: nat, r: nat, dest: Dest, from: nat) {
    from <= e < |s.sends| && s.sends[e].origin == r && s.sends[e].dest == dest && s.sends[e].body == Other
  }

  lemma CastStays(s: State, l: Label, e: nat, r: nat, dest: Dest, from: nat)
    requires Enabled(s, l) && CastAt(s, e, r, dest, from)
    ensures CastAt(Apply(s, l), e, r, dest, from)
  {
    LogGrows(s, l);
  }

  lemma TimerGoesOff(s: State, l: Label, r: nat, dest: Dest)
    requires FabricInvariant(s) && Enabled(s, l) && Timer(r, dest) in s.timers
    ensures var t := Apply(s, l);
      Timer(r, dest) in t.timers || (|s.sends| < |t.sends| && CastAt(t, |s.sends|, r, dest, |s.sends|))
  {
    if PassStep(l) {
      LoopTimers(s, l);
    } else if HubStep(l) {
      HubIsThere(s, l);
      HubMoves(s, l);
    }
  }

  lemma ArmIsNext(s: State, l: Label, a: nat, r: nat, dest: Dest)
    requires FabricInvariant(s) && Enabled(s, l) && ToArm(s, a, r, dest)
    ensures ToArm(Apply(s, l), a, r, dest) || Timer(r, dest) in Apply(s, l).timers
  {
    if StartStep(l) {
      StartExtends(s, l);
    } else if HubStep(l) {
      HubIsThere(s, l);
      HubMoves(s, l);
      HubArmsNothing(s, Apply(s, l), l.replica, Subject(s, l.replica), a, r, dest);
    } else {
      InnerRest(s, l);
      InnerAgents(s, l, a);
      assert AgentStays(s, Apply(s, l), a);
      OnlyArmingArms(s, l, a, dest);
    }
  }

  lemma HubArmsNothing(s: State, t: State, h: nat, p: nat, a: nat, r: nat, dest: Dest)
    requires HubMove(s, t, h, p) && ToArm(s, a, r, dest)
    requires s.agents[h].ops == [Enlist(p)] || s.agents[h].ops == [Strike(p)]
    ensures ToArm(t, a, r, dest)
  {
  }

  lemma OnlyArmingArms(s: State, l: Label, a: nat, dest: Dest)
    requires Enabled(s, l) && Inner(l) && a < |s.agents| && a < |Apply(s, l).agents| && Arm(dest) in s.agents[a].ops
    ensures Arm(dest) in Apply(s, l).agents[a].ops || Timer(s.agents[a].replica, dest) in Apply(s, l).timers
  {
    if PassStep(l) { LoopsArmNothing(s, l, a, dest); } else { OthersArm(s, l, a, dest); }
  }

  lemma LoopsArmNothing(s: State, l: Label, a: nat, dest: Dest)
    requires Enabled(s, l) && PassStep(l) && a < |s.agents| && a < |Apply(s, l).agents| && Arm(dest) in s.agents[a].ops
    ensures Arm(dest) in Apply(s, l).agents[a].ops
  {
  }

  lemma OthersArm(s: State, l: Label, a: nat, dest: Dest)
    requires Enabled(s, l) && Inner(l) && !PassStep(l)
    requires a < |s.agents| && a < |Apply(s, l).agents| && Arm(dest) in s.agents[a].ops
    ensures Arm(dest) in Apply(s, l).agents[a].ops || Timer(s.agents[a].replica, dest) in Apply(s, l).timers
  {
  }

  lemma StepOwes(s: State, l: Label, r: nat, dest: Dest, from: nat)
    requires FabricInvariant(s) && Enabled(s, l) && Owes(s, r, dest, from) && from <= |s.sends|
    ensures Owes(Apply(s, l), r, dest, from)
  {
    if e: nat :| CastAt(s, e, r, dest, from) {
      CastStays(s, l, e, r, dest, from);
    } else if Timer(r, dest) in s.timers {
      TimerGoesOff(s, l, r, dest);
      assert Timer(r, dest) in Apply(s, l).timers || CastAt(Apply(s, l), |s.sends|, r, dest, from);
    } else {
      var a: nat :| ToArm(s, a, r, dest);
      ArmIsNext(s, l, a, r, dest);
    }
  }

  lemma {:induction false} RunOwes(s: State, run: seq<Label>, r: nat, dest: Dest, from: nat)
    requires FabricInvariant(s) && CanRun(s, run) && Owes(s, r, dest, from) && from <= |s.sends|
    ensures Owes(After(s, run), r, dest, from)
    decreases |run|
  {
    if run != [] {
      StepOwes(s, run[0], r, dest, from);
      StepKeeps(s, run[0]);
      LogGrows(s, run[0]);
      RunOwes(Apply(s, run[0]), run[1..], r, dest, from);
    }
  }

  lemma StartOwes(s: State, r: nat, owner: Option<nat>, dest: Dest)
    requires Enabled(s, StartCast(r, owner, dest, true))
    ensures var t := Apply(s, StartCast(r, owner, dest, true)); Owes(t, r, dest, |t.sends|)
  {
    var t := Apply(s, StartCast(r, owner, dest, true));
    assert t.agents[|s.agents|].ops[2] == Arm(dest);
    assert ToArm(t, |s.agents|, r, dest);
  }

  lemma PaidAtRest(t: State, r: nat, dest: Dest, from: nat) returns (e: nat)
    requires Owes(t, r, dest, from) && Quiescent(t)
    ensures CastAt(t, e, r, dest, from)
  {
    assert forall a: nat :: a < |t.agents| ==> t.agents[a].Idle();
    e :| CastAt(t, e, r, dest, from);
  }

  /** A typing indicator sent to `dest` is followed by a second broadcast of its timer, which
      reaches the same users. */
  lemma TypingIsTakenBack(s: State, r: nat, owner: Option<nat>, dest: Dest, run: seq<Label>, t: State)
    returns (e: nat)
    requires Settles(s, StartCast(r, owner, dest, true), run, t)
    ensures |s.sends| < e < |t.sends| && t.sends[e].body == Other && t.sends[e].origin == r
    ensures Reaches(s, t, |s.sends|, u => u in dest.ids) && Reaches(s, t, e, u => u in dest.ids)
  {
    var l := StartCast(r, owner, dest, true);
    var s' := Apply(s, l);
    CastReaches(s, r, owner, dest, true, run, t);
    ReachableStep(s, l);
    ReachableHolds(s');
    StartOwes(s, r, owner, dest);
    RunOwes(s', run, r, dest, |s'.sends|);
    e := PaidAtRest(t, r, dest, |s'.sends|);
    SendReaches(s, l, run, t, e, u => u in dest.ids);
  }
}
