/** The disconnect cascade: a delivery fills a queue, the connection is cancelled, its read pump
    leaves, the hub loop strikes it and announces its user offline, the announcement is delivered
    and published, and may fill further queues here and on other replicas. Left to itself it ends. */
module Cascade {
  import opened Connections
  import opened Fabric
  import opened FabricInv
  import opened FabricEffects
  import opened FabricStructure
  import opened FabricStarts
  import opened FabricDeliveryStarts
  import opened FabricTheorems
  import opened FabricLoss

  // ---------------------------------------------------------------- sums over a sequence

  function Sum<T>(s: seq<T>, f: T -> nat): nat {
    if s == [] then 0 else f(s[0]) + Sum(s[1..], f)
  }

  lemma {:induction false} SumUpdate<T>(s: seq<T>, i: nat, x: T, f: T -> nat)
    requires i < |s|
    ensures Sum(s[i := x], f) + f(s[i]) == Sum(s, f) + f(x)
  {
    if i == 0 {
      assert s[0 := x][1..] == s[1..];
    } else {
      assert s[i := x][1..] == s[1..][i - 1 := x];
      SumUpdate(s[1..], i - 1, x, f);
    }
  }

  lemma {:induction false} SumSnoc<T>(s: seq<T>, x: T, f: T -> nat)
    ensures Sum(s + [x], f) == Sum(s, f) + f(x)
  {
    if s == [] {
      assert [x][1..] == [];
      assert s + [x] == [x];
    } else {
      assert (s + [x])[1..] == s[1..] + [x];
      SumSnoc(s[1..], x, f);
    }
  }

  lemma {:induction false} SumSame<T>(s: seq<T>, t: seq<T>, f: T -> nat)
    requires |s| == |t| && forall i :: 0 <= i < |s| ==> f(s[i]) == f(t[i])
    ensures Sum(s, f) == Sum(t, f)
  {
    if s != [] {
      assert forall i :: 0 <= i < |s[1..]| ==> f(s[1..][i]) == f(s[i + 1]) && f(t[1..][i]) == f(t[i + 1]);
      SumSame(s[1..], t[1..], f);
    }
  }

  // ---------------------------------------------------------------- the measure

  /** How far a connection is from being gone. */
  function PeerRank(x: Peer): nat {
    (match x.phase case Connecting => 4 case Reading => 3 case Leaving => 2 case Left => 1 case Gone => 0)
    + (match x.stage case Outside => 2 case Listed => 1 case Removed => 0)
    + (if x.conn.pump == Stopped then 0 else 1)
  }

  function Backlog(x: Peer): nat {
    2 * |x.conn.queue| + if x.conn.pump.Holding? then 1 else 0
  }

  function IsArm(o: Op): nat { if o.Arm? then 1 else 0 }

  function IsPublish(o: Op): nat { if o.Publish? then 1 else 0 }

  function IsPlain(o: Op): nat { if o.Arm? || o.Publish? then 0 else 1 }

  function Arms(g: Agent): nat { Sum(g.ops, IsArm) }

  function Publishes(g: Agent): nat { Sum(g.ops, IsPublish) }

  function Plains(g: Agent): nat { Sum(g.ops, IsPlain) }

  function Rests(g: Agent): nat {
    if g.pass.Some? then 1 + |g.pass.value.rest| else 0
  }

  function Lefts(g: Agent): nat {
    if g.pass.Some? then 2 * |g.pass.value.left| + (if g.pass.value.drop.Some? then 1 else 0) else 0
  }

  /** Entries of a log of length n that a replica has not come to. */
  function Unread(n: nat): Replica -> nat {
    (x: Replica) => if x.cursor <= n then n - x.cursor else 0
  }

  datatype Measure = Measure(
    connections: nat, timers: nat, publishes: nat, unread: nat, ops: nat, rests: nat, lefts: nat, backlog: nat)

  function MeasureOf(s: State): Measure {
    Measure(
      Sum(s.peers, PeerRank),
      2 * Sum(s.agents, Arms) + |s.timers|,
      Sum(s.agents, Publishes),
      Sum(s.replicas, Unread(|s.log|)),
      Sum(s.agents, Plains),
      Sum(s.agents, Rests),
      Sum(s.agents, Lefts),
      Sum(s.peers, Backlog))
  }

  predicate Below(m: Measure, n: Measure) {
    m.connections < n.connections || (m.connections == n.connections &&
    (m.timers < n.timers || (m.timers == n.timers &&
    (m.publishes < n.publishes || (m.publishes == n.publishes &&
    (m.unread < n.unread || (m.unread == n.unread &&
    (m.ops < n.ops || (m.ops == n.ops &&
    (m.rests < n.rests || (m.rests == n.rests &&
    (m.lefts < n.lefts || (m.lefts == n.lefts && m.backlog < n.backlog)))))))))))))
  }

  // ---------------------------------------------------------------- what updates do to the sums

  lemma PeerSums(s: State, p: nat, x: Peer)
    requires p < |s.peers|
    ensures Sum(s.peers[p := x], PeerRank) + PeerRank(s.peers[p]) == Sum(s.peers, PeerRank) + PeerRank(x)
    ensures Sum(s.peers[p := x], Backlog) + Backlog(s.peers[p]) == Sum(s.peers, Backlog) + Backlog(x)
  {
    SumUpdate(s.peers, p, x, PeerRank);
    SumUpdate(s.peers, p, x, Backlog);
  }

  lemma AgentSums(s: State, a: nat, g: Agent)
    requires a < |s.agents|
    ensures Sum(s.agents[a := g], Arms) + Arms(s.agents[a]) == Sum(s.agents, Arms) + Arms(g)
    ensures Sum(s.agents[a := g], Publishes) + Publishes(s.agents[a]) == Sum(s.agents, Publishes) + Publishes(g)
    ensures Sum(s.agents[a := g], Plains) + Plains(s.agents[a]) == Sum(s.agents, Plains) + Plains(g)
    ensures Sum(s.agents[a := g], Rests) + Rests(s.agents[a]) == Sum(s.agents, Rests) + Rests(g)
    ensures Sum(s.agents[a := g], Lefts) + Lefts(s.agents[a]) == Sum(s.agents, Lefts) + Lefts(g)
  {
    SumUpdate(s.agents, a, g, Arms);
    SumUpdate(s.agents, a, g, Publishes);
    SumUpdate(s.agents, a, g, Plains);
    SumUpdate(s.agents, a, g, Rests);
    SumUpdate(s.agents, a, g, Lefts);
  }

  // ---------------------------------------------------------------- every step decreases it

  /** A hub loop that was idle receives from one of its channels. */
  lemma ReceiveStep(s: State, l: Label)
    requires Enabled(s, l) && (l.RecvRegister? || l.RecvUnregister?)
    ensures Sum(Apply(s, l).peers, PeerRank) < Sum(s.peers, PeerRank)
  {
    SumUpdate(s.peers, l.peer, Apply(s, l).peers[l.peer], PeerRank);
  }

  lemma LeavingStep(s: State, l: Label)
    requires Enabled(s, l) && (l.ReadFails? || l.DeferCancel?)
    ensures Sum(Apply(s, l).peers, PeerRank) < Sum(s.peers, PeerRank)
  {
    SumUpdate(s.peers, l.peer, Apply(s, l).peers[l.peer], PeerRank);
  }

  lemma PumpStopStep(s: State, l: Label)
    requires Enabled(s, l) && l.PumpStop?
    ensures Sum(Apply(s, l).peers, PeerRank) < Sum(s.peers, PeerRank)
  {
    SumUpdate(s.peers, l.peer, Apply(s, l).peers[l.peer], PeerRank);
  }

  lemma HubRank(s: State, l: Label)
    requires AtHub(s, l)
    ensures var p, t := Subject(s, l.replica), Apply(s, l);
      && p < |s.peers| == |t.peers| && t.peers == s.peers[p := t.peers[p]]
      && PeerRank(t.peers[p]) < PeerRank(s.peers[p])
  {
    HubTurns(s, l);
  }

  lemma HubLoopStep(s: State, l: Label)
    requires AtHub(s, l)
    ensures Sum(Apply(s, l).peers, PeerRank) < Sum(s.peers, PeerRank)
  {
    var p := Subject(s, l.replica);
    HubRank(s, l);
    SumUpdate(s.peers, p, Apply(s, l).peers[p], PeerRank);
  }

  lemma PumpStep(s: State, l: Label)
    requires Enabled(s, l) && (l.PumpTake? || l.PumpWrite?)
    ensures Below(MeasureOf(Apply(s, l)), MeasureOf(s))
  {
    if l.PumpTake? { TakingStep(s, l); } else { WritingStep(s, l); }
  }

  lemma TakingStep(s: State, l: Label)
    requires Enabled(s, l) && l.PumpTake?
    ensures Below(MeasureOf(Apply(s, l)), MeasureOf(s))
  {
    PeerSums(s, l.peer, Apply(s, l).peers[l.peer]);
  }

  lemma WritingStep(s: State, l: Label)
    requires Enabled(s, l) && l.PumpWrite?
    ensures Below(MeasureOf(Apply(s, l)), MeasureOf(s))
  {
    PeerSums(s, l.peer, Apply(s, l).peers[l.peer]);
  }

  /** A peer keeps its rank when only its queue and context change. */
  lemma LoopPeerSums(s: State, p: nat, c: Conn)
    requires p < |s.peers| && c.pump == s.peers[p].conn.pump
    ensures Sum(SetConn(s, p, c).peers, PeerRank) == Sum(s.peers, PeerRank)
  {
    PeerSums(s, p, s.peers[p].(conn := c));
  }

  lemma OfferStep(s: State, l: Label)
    requires Enabled(s, l) && l.OfferTo?
    ensures Below(MeasureOf(Apply(s, l)), MeasureOf(s))
  {
    var t := Apply(s, l);
    LoopPeerSums(s, l.peer, s.peers[l.peer].conn.Offer(s.agents[l.agent].pass.value.event));
    AgentSums(s, l.agent, t.agents[l.agent]);
  }

  lemma LoopStep(s: State, l: Label)
    requires Enabled(s, l) && (l.Disconnect? || l.NextUser? || l.EndPass?)
    ensures Below(MeasureOf(Apply(s, l)), MeasureOf(s))
  {
    if l.Disconnect? { DroppingStep(s, l); } else { WalkingStep(s, l); }
  }

  lemma DroppingStep(s: State, l: Label)
    requires Enabled(s, l) && l.Disconnect?
    ensures Below(MeasureOf(Apply(s, l)), MeasureOf(s))
  {
    var p := s.agents[l.agent].pass.value.drop.value;
    LoopPeerSums(s, p, s.peers[p].conn.Cancel());
    AgentSums(s, l.agent, Apply(s, l).agents[l.agent]);
  }

  lemma WalkingStep(s: State, l: Label)
    requires Enabled(s, l) && (l.NextUser? || l.EndPass?)
    ensures Below(MeasureOf(Apply(s, l)), MeasureOf(s))
  {
    AgentSums(s, l.agent, Apply(s, l).agents[l.agent]);
  }

  /** Taking the head operation off an agent's list. */
  lemma PopStep(s: State, l: Label)
    requires Enabled(s, l) && (l.BeginPass? || l.DoPublish? || l.DoArm?)
    ensures Below(MeasureOf(Apply(s, l)), MeasureOf(s))
  {
    AgentSums(s, l.agent, Apply(s, l).agents[l.agent]);
  }

  lemma LastSeenStep(s: State, l: Label)
    requires Enabled(s, l) && l.DoLastSeen? && l.replica < |s.agents|
    ensures Below(MeasureOf(Apply(s, l)), MeasureOf(s))
  {
    AgentSums(s, l.replica, Apply(s, l).agents[l.replica]);
    SumSame(s.replicas, Apply(s, l).replicas, Unread(|s.log|));
  }

  lemma CursorSum(s: State, r: nat, x: Replica)
    requires r < |s.replicas| && s.replicas[r].cursor < |s.log| && x.cursor == s.replicas[r].cursor + 1
    ensures Sum(s.replicas[r := x], Unread(|s.log|)) < Sum(s.replicas, Unread(|s.log|))
  {
    SumUpdate(s.replicas, r, x, Unread(|s.log|));
  }

  lemma LoseStep(s: State, l: Label)
    requires Enabled(s, l) && l.LoseLog?
    ensures Below(MeasureOf(Apply(s, l)), MeasureOf(s))
  {
    CursorSum(s, l.replica, Apply(s, l).replicas[l.replica]);
  }

  lemma TakeStep(s: State, l: Label)
    requires Enabled(s, l) && l.TakeLog?
    ensures Below(MeasureOf(Apply(s, l)), MeasureOf(s))
  {
    var t, b := Apply(s, l), |s.replicas| + l.replica;
    CursorSum(s, l.replica, t.replicas[l.replica]);
    AgentSums(s, b, t.agents[b]);
    JustLocal(s.log[s.replicas[l.replica].cursor]);
  }

  /** A list that only delivers arms no timer and publishes nothing. */
  lemma JustLocal(e: nat)
    ensures Sum([Local(e)], IsArm) == 0 && Sum([Local(e)], IsPublish) == 0
    ensures Sum([Local(e), Publish(e)], IsArm) == 0
  {
    assert [Local(e)][1..] == [];
    assert [Publish(e)][1..] == [];
    assert [Local(e), Publish(e)][1..] == [Publish(e)];
    assert Sum([Publish(e)], IsArm) == 0;
  }

  lemma FireStep(s: State, l: Label)
    requires Enabled(s, l) && l.Fire?
    ensures Below(MeasureOf(Apply(s, l)), MeasureOf(s))
  {
    var t, e := Apply(s, l), |s.sends|;
    var g := t.agents[|s.agents|];
    assert g.ops == [Local(e), Publish(e)];
    assert t.agents == s.agents + [g];
    JustLocal(e);
    SumSnoc(s.agents, g, Arms);
    assert |t.timers| + 1 == |s.timers|;
  }

  /** Every step the fabric takes by itself decreases the measure. */
  /** The steps of connections and hub loops bring a connection nearer its end. */
  lemma ConnectionDescends(s: State, l: Label)
    requires FabricInvariant(s) && Enabled(s, l)
    requires l.RecvRegister? || l.RecvUnregister? || l.ReadFails? || l.DeferCancel? || l.PumpStop? || HubStep(l)
    ensures Sum(Apply(s, l).peers, PeerRank) < Sum(s.peers, PeerRank)
  {
    if HubStep(l) {
      HubIsThere(s, l);
      HubLoopStep(s, l);
    } else if l.PumpStop? {
      PumpStopStep(s, l);
    } else if l.RecvRegister? || l.RecvUnregister? {
      ReceiveStep(s, l);
    } else {
      LeavingStep(s, l);
    }
  }

  lemma DeliveryDescends(s: State, l: Label)
    requires FabricInvariant(s) && Enabled(s, l) && PassStep(l)
    ensures Below(MeasureOf(Apply(s, l)), MeasureOf(s))
  {
    if l.OfferTo? {
      OfferStep(s, l);
    } else if l.BeginPass? {
      PopStep(s, l);
    } else {
      LoopStep(s, l);
    }
  }

  lemma WorkDescends(s: State, l: Label)
    requires FabricInvariant(s) && Enabled(s, l)
    requires l.DoPublish? || l.DoArm? || l.DoLastSeen? || l.TakeLog? || l.LoseLog? || l.Fire?
    ensures Below(MeasureOf(Apply(s, l)), MeasureOf(s))
  {
    if l.DoLastSeen? {
      LastSeenStep(s, l);
    } else if l.TakeLog? {
      TakeStep(s, l);
    } else if l.LoseLog? {
      LoseStep(s, l);
    } else if l.Fire? {
      FireStep(s, l);
    } else {
      PopStep(s, l);
    }
  }

  /** Every step of the system makes the measure smaller. */
  lemma StepDescends(s: State, l: Label)
    requires FabricInvariant(s) && Enabled(s, l) && !IsEnv(l)
    ensures Below(MeasureOf(Apply(s, l)), MeasureOf(s))
  {
    if PassStep(l) {
      DeliveryDescends(s, l);
    } else if l.PumpTake? || l.PumpWrite? {
      PumpStep(s, l);
    } else if l.DoPublish? || l.DoArm? || l.DoLastSeen? || l.TakeLog? || l.LoseLog? || l.Fire? {
      WorkDescends(s, l);
    } else {
      ConnectionDescends(s, l);
    }
  }

  // ---------------------------------------------------------------- so it ends

  ghost predicate SystemStep(s: State, l: Label, t: State) {
    !IsEnv(l) && Enabled(s, l) && t == Apply(s, l)
  }

  lemma OneStepDown(s: State, l: Label, t: State)
    requires FabricInvariant(s) && SystemStep(s, l, t)
    ensures FabricInvariant(t) && Below(MeasureOf(t), MeasureOf(s))
  {
    StepKeeps(s, l);
    StepDescends(s, l);
  }

  lemma Sink(measures: nat -> Measure, i: nat, m: Measure) returns (k: nat)
    requires m == measures(i)
    ensures !Below(measures(k + 1), measures(k))
    decreases m.connections, m.timers, m.publishes, m.unread, m.ops, m.rests, m.lefts, m.backlog
  {
    if Below(measures(i + 1), measures(i)) {
      k := Sink(measures, i + 1, measures(i + 1));
    } else {
      k := i;
    }
  }

  ghost predicate StepAt(states: nat -> State, labels: nat -> Label, k: nat) {
    SystemStep(states(k), labels(k), states(k + 1))
  }

  lemma {:induction false} HoldsAt(states: nat -> State, labels: nat -> Label, i: nat)
    requires FabricInvariant(states(0)) && forall k: nat :: StepAt(states, labels, k)
    ensures FabricInvariant(states(i))
  {
    if i > 0 {
      HoldsAt(states, labels, i - 1);
      assert StepAt(states, labels, i - 1);
      OneStepDown(states(i - 1), labels(i - 1), states(i));
    }
  }

  /** Without new connections, client frames or REST calls no run of the fabric is infinite. */
  lemma CascadeTerminates(states: nat -> State, labels: nat -> Label)
    requires Reachable(states(0))
    ensures exists k: nat :: !SystemStep(states(k), labels(k), states(k + 1))
  {
    if forall k: nat :: StepAt(states, labels, k) {
      var measures := (k: nat) => MeasureOf(states(k));
      var k := Sink(measures, 0, measures(0));
      ReachableHolds(states(0));
      HoldsAt(states, labels, k);
      assert StepAt(states, labels, k);
      OneStepDown(states(k), labels(k), states(k + 1));
      assert false;
    }
    var k: nat :| !StepAt(states, labels, k);
  }

  // ---------------------------------------------------------------- and it ends well

  /** What only goes wrong from outside: the log loses an entry or refuses one, and the wire of a
      live connection fails under its read pump or its write pump. */
  predicate Fault(s: State, l: Label) {
    match l
    case LoseLog(_) => true
    case DoPublish(_, ok) => !ok
    case ReadFails(p) => p < |s.peers| && !s.peers[p].conn.cancelled && s.peers[p].conn.pump != Stopped
    case PumpStop(p) => p < |s.peers| && !s.peers[p].conn.cancelled
    case _ => false
  }

  /** A step that the system has to take: neither begun from outside nor a fault. */
  predicate Due(s: State, l: Label) {
    !IsEnv(l) && !Fault(s, l)
  }

  /** Nothing is under way, and every connection is either live, with everything written, or gone. */
  ghost predicate Quiescent(s: State) {
    && Settled(s)
    && s.timers == []
    && forall p :: 0 <= p < |s.peers| ==> PeerQuiet(s.peers[p])
  }

  predicate PeerQuiet(x: Peer) {
    || (x.phase == Gone && x.conn.pump == Stopped)
    || (x.phase == Reading && !x.conn.cancelled && x.conn.pump == Running && x.conn.queue == [])
  }

  lemma LoopCanGoOn(s: State, a: nat) returns (l: Label)
    requires FabricInvariant(s) && a < |s.agents| && s.agents[a].pass.Some?
    ensures Due(s, l) && Enabled(s, l)
  {
    assert AgentOk(s, a) && AgentPassOk(s, a);
    var q := s.agents[a].pass.value;
    if q.drop.Some? {
      assert TargetOk(s, a, q, q.drop.value);
      l := Disconnect(a);
    } else if q.left != {} {
      var p :| p in q.left;
      assert TargetOk(s, a, q, p);
      l := OfferTo(a, p);
    } else if q.rest != [] {
      l := NextUser(a);
    } else {
      l := EndPass(a);
    }
  }

  lemma AgentCanGoOn(s: State, a: nat) returns (l: Label)
    requires FabricInvariant(s) && a < |s.agents| && s.agents[a].ops != []
    requires forall b :: 0 <= b < |s.agents| ==> s.agents[b].pass.None?
    ensures Due(s, l) && Enabled(s, l)
  {
    assert AgentOk(s, a) && AgentOpOk(s, a, 0);
    l := match s.agents[a].ops[0]
      case Enlist(_) => DoEnlist(a)
      case Strike(_) => DoStrike(a)
      case LastSeen(_) => DoLastSeen(a)
      case Local(_) => BeginPass(a)
      case Publish(_) => DoPublish(a, true)
      case Arm(_) => DoArm(a);
  }

  lemma PeerCanGoOn(s: State, p: nat) returns (l: Label)
    requires FabricInvariant(s) && p < |s.peers| && !PeerQuiet(s.peers[p])
    requires forall b :: 0 <= b < |s.agents| ==> s.agents[b].Idle()
    ensures Due(s, l) && Enabled(s, l)
  {
    assert PeerOk(s, p) && StageOk(s, p);
    var x := s.peers[p];
    if x.phase == Connecting {
      l := RecvRegister(p);
    } else if x.phase == Leaving {
      l := RecvUnregister(p);
    } else if x.phase == Left {
      l := DeferCancel(p);
    } else if x.phase == Gone {
      l := PumpStop(p);
    } else if x.conn.cancelled || x.conn.pump == Stopped {
      l := ReadFails(p);
    } else if x.conn.pump.Holding? {
      l := PumpWrite(p);
    } else {
      l := PumpTake(p);
    }
  }

  /** The goroutines never wait for each other in a circle: until everything is quiet one of them
      can go on, without anything failing. */
  lemma NeverStuck(s: State) returns (l: Label)
    requires FabricInvariant(s) && !Quiescent(s)
    ensures Due(s, l) && Enabled(s, l)
  {
    if a :| 0 <= a < |s.agents| && s.agents[a].pass.Some? {
      l := LoopCanGoOn(s, a);
    } else if a :| 0 <= a < |s.agents| && s.agents[a].ops != [] {
      l := AgentCanGoOn(s, a);
    } else if r :| 0 <= r < |s.replicas| && s.replicas[r].cursor != |s.log| {
      assert ReplicaOk(s, r);
      l := TakeLog(r);
    } else if s.timers != [] {
      l := Fire(0);
    } else {
      var p :| 0 <= p < |s.peers| && !PeerQuiet(s.peers[p]);
      l := PeerCanGoOn(s, p);
    }
  }

  /** In a quiescent state nothing is due: whatever can happen comes from outside. */
  lemma QuietIsIdle(s: State, l: Label)
    requires Quiescent(s) && Enabled(s, l)
    ensures !Due(s, l)
  {
  }

  /** The fabric has come to rest, up to faults and new requests, exactly in a quiescent state. */
  lemma EndsQuiescent(s: State)
    requires Reachable(s)
    ensures Quiescent(s) <==> forall l :: Enabled(s, l) ==> !Due(s, l)
  {
    ReachableHolds(s);
    if Quiescent(s) {
      forall l | Enabled(s, l) ensures !Due(s, l) {
        QuietIsIdle(s, l);
      }
    } else {
      var l := NeverStuck(s);
    }
  }

  /** Nothing fails in the run; it may contain new connections, frames and calls. */
  ghost predicate FaultFree(s: State, run: seq<Label>)
    requires CanRun(s, run)
    decreases |run|
  {
    run != [] ==> !Fault(s, run[0]) && FaultFree(Apply(s, run[0]), run[1..])
  }

  /** From every reachable state the fabric goes on by itself, nothing failing, to a quiescent one. */
  lemma SettlesFrom(s: State, m: Measure) returns (run: seq<Label>)
    requires FabricInvariant(s) && m == MeasureOf(s)
    ensures CanRun(s, run) && FaultFree(s, run) && Quiescent(After(s, run))
    ensures forall l :: l in run ==> !IsEnv(l)
    decreases m.connections, m.timers, m.publishes, m.unread, m.ops, m.rests, m.lefts, m.backlog
  {
    if Quiescent(s) {
      run := [];
    } else {
      var l := NeverStuck(s);
      OneStepDown(s, l, Apply(s, l));
      var rest := SettlesFrom(Apply(s, l), MeasureOf(Apply(s, l)));
      run := [l] + rest;
      assert run[0] == l && run[1..] == rest;
    }
  }

  // ---------------------------------------------------------------- what has arrived by then

  /** Without a fault the log loses nothing more. */
  ghost predicate LosesNothing(s: State, t: State) {
    && |t.replicas| == |s.replicas| && s.log <= t.log && s.sends <= t.sends && t.failed == s.failed
    && forall r :: 0 <= r < |s.replicas| ==> t.replicas[r].skipped == s.replicas[r].skipped
  }

  lemma StepLosesNothing(s: State, l: Label)
    requires Enabled(s, l) && !Fault(s, l)
    ensures LosesNothing(s, Apply(s, l))
  {
    CountOfReplicas(s, l);
    LogGrows(s, l);
    if l.DoPublish? {
      PublishedIsLogged(s, l);
    }
    forall r | 0 <= r < |s.replicas| ensures Apply(s, l).replicas[r].skipped == s.replicas[r].skipped {
      CursorMove(s, l, r);
    }
  }

  lemma PublishedIsLogged(s: State, l: Label)
    requires Enabled(s, l) && !Fault(s, l) && l.DoPublish?
    ensures Apply(s, l).failed == s.failed
  {
  }

  lemma {:induction false} RunLosesNothing(s: State, run: seq<Label>)
    requires CanRun(s, run) && FaultFree(s, run)
    ensures LosesNothing(s, After(s, run))
    decreases |run|
  {
    if run != [] {
      StepLosesNothing(s, run[0]);
      RunLosesNothing(Apply(s, run[0]), run[1..]);
    }
  }

  lemma LossIsOld(s: State, t: State, r: nat, e: nat)
    requires LosesNothing(s, t) && r < |s.replicas| && e < |t.sends| && SkippedOk(s, r) && LogOk(s)
    requires LostFor(t, r, e)
    ensures e < |s.sends| && LostFor(s, r, e)
  {
    if e !in t.failed {
      var k :| k in t.replicas[r].skipped && k < |t.log| && t.log[k] == e;
      assert k in s.replicas[r].skipped && s.log[k] == e;
    }
  }

  /** When nothing fails from some moment on and the fabric comes to rest, then every connection
      that was registered when a send to its user began, and still is, has been offered the event
      exactly once, and all of it is on its wire, unless the event was lost before that moment. */
  lemma EverythingArrives(s: State, run: seq<Label>, p: nat, e: nat)
    requires Reachable(s) && CanRun(s, run) && FaultFree(s, run) && Quiescent(After(s, run))
    requires Entitled(After(s, run), p, e)
    requires var r := After(s, run).peers[p].replica; e < |s.sends| && r < |s.replicas| ==> !LostFor(s, r, e)
    ensures var c := After(s, run).peers[p].conn;
      && multiset(c.offered)[e] == 1
      && HubOf(c.wire) == c.offered
  {
    var t := After(s, run);
    ReachableRuns(s, run);
    RunLosesNothing(s, run);
    LossReached(s);
    ReachableHolds(s);
    EntitledHasReplica(t, p, e);
    var r := t.peers[p].replica;
    assert SkippedOk(s, r);
    if LostFor(t, r, e) {
      LossIsOld(s, t, r, e);
    }
    ExactlyOnce(t, p, e);
    AllWritten(t, p);
  }

  /** A live connection at rest has had everything addressed to it written. */
  lemma AllWritten(s: State, p: nat)
    requires Reachable(s) && Quiescent(s) && p < |s.peers| && s.peers[p].stage == Listed
    ensures HubOf(s.peers[p].conn.wire) == s.peers[p].conn.offered
  {
    ReachableHolds(s);
    NoSilentGap(s, p);
    assert PeerOk(s, p) && StageOk(s, p) && PeerQuiet(s.peers[p]);
    assert !CancelPending(s, p);
    assert s.agents[s.peers[p].replica].Idle();
    var c := s.peers[p].conn;
    assert HubOf(InHand(c.pump)) == [] && HubOf(c.queue) == [];
    assert HubOf(c.wire) + [] + [] == c.accepted;
  }

  /** In a quiescent state every connection that lost an event has been taken down completely:
      it is gone, it is in no hub's map, and its channel is closed. */
  lemma LosersAreGone(s: State, p: nat, r: nat)
    requires Reachable(s) && Quiescent(s) && p < |s.peers| && r < |s.replicas|
    requires s.peers[p].conn.Lost()
    ensures s.peers[p].phase == Gone && !InMap(s, r, p) && !s.peers[p].conn.open
  {
    ReachableHolds(s);
    NoSilentGap(s, p);
    ChannelLifecycle(s, r, p);
    assert PeerOk(s, p) && StageOk(s, p) && PeerQuiet(s.peers[p]);
    assert !CancelPending(s, p);
    assert s.agents[s.peers[p].replica].Idle();
  }
}
