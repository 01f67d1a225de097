/** The wire of a connection, item by item: events and error replies, in the order in which they
    entered the queue. */
module FabricWire {
  import opened Basics
  import opened Connections
  import opened Fabric
  import opened FabricInv
  import opened FabricEffects
  import opened FabricStructure
  import opened FabricStarts
  import opened FabricDeliveryStarts
  import opened FabricTheorems
  import opened Cascade
  import opened FabricAddressing

  /** What is on the wire, in the write pump's hand and in the queue. */
  function Content(c: Conn): seq<Item> {
    c.wire + InHand(c.pump) + c.queue
  }

  /** What step l puts into the queue of connection p: an event, or an error reply; nothing if the
      queue is full. */
  ghost function Enters(s: State, l: Label, p: nat): seq<Item>
    requires Enabled(s, l) && p < |s.peers|
  {
    if s.peers[p].conn.Full() then []
    else if l.OfferTo? && l.peer == p then [Hub(s.agents[l.agent].pass.value.event)]
    else if l.ReplyError? && l.peer == p then [Reply(l.tag)]
    else []
  }

  ghost function EntersOver(s: State, run: seq<Label>, p: nat): seq<Item>
    requires CanRun(s, run)
    decreases |run|
  {
    if run == [] || p >= |s.peers| then []
    else Enters(s, run[0], p) + EntersOver(Apply(s, run[0]), run[1..], p)
  }

  /** Nothing is added to a connection, taken from it or reordered but by those two steps. */
  ghost predicate Holds(c: Conn, d: Conn, more: seq<Item>) {
    d.pump != Stopped ==> c.pump != Stopped && Content(d) == Content(c) + more
  }

  lemma StepHolds(s: State, l: Label, p: nat)
    requires FabricInvariant(s) && Enabled(s, l) && p < |s.peers|
    ensures p < |Apply(s, l).peers|
    ensures Holds(s.peers[p].conn, Apply(s, l).peers[p].conn, Enters(s, l, p))
  {
    if StartStep(l) {
      StartHolds(s, l, p);
    } else if HubStep(l) {
      HubStepHolds(s, l, p);
    } else {
      InnerHolds(s, l, p);
    }
  }

  lemma HubStepHolds(s: State, l: Label, p: nat)
    requires FabricInvariant(s) && Enabled(s, l) && HubStep(l) && p < |s.peers|
    ensures p < |Apply(s, l).peers|
    ensures Holds(s.peers[p].conn, Apply(s, l).peers[p].conn, [])
  {
    HubIsThere(s, l);
    HubTurns(s, l);
    HubHolds(s, Apply(s, l), l.replica, Subject(s, l.replica), p);
    assert Content(s.peers[p].conn) + [] == Content(s.peers[p].conn);
  }

  lemma InnerHolds(s: State, l: Label, p: nat)
    requires Enabled(s, l) && Inner(l) && p < |s.peers|
    ensures p < |Apply(s, l).peers|
    ensures Holds(s.peers[p].conn, Apply(s, l).peers[p].conn, Enters(s, l, p))
  {
    InnerRest(s, l);
    if Touched(s, l) != Some(p) {
      UntouchedConn(s, l, p);
      assert Content(s.peers[p].conn) + [] == Content(s.peers[p].conn);
    } else {
      TouchedHolds(s, l, p);
    }
  }

  lemma StartHolds(s: State, l: Label, p: nat)
    requires Enabled(s, l) && StartStep(l) && p < |s.peers|
    ensures p < |Apply(s, l).peers|
    ensures Holds(s.peers[p].conn, Apply(s, l).peers[p].conn, Enters(s, l, p))
  {
    StartExtends(s, l);
    assert Content(s.peers[p].conn) + [] == Content(s.peers[p].conn);
  }

  lemma HubHolds(s: State, t: State, r: nat, x: nat, p: nat)
    requires HubTurn(s, t, r, x) && p < |s.peers|
    ensures p < |t.peers| && t.peers[p].conn.pump == s.peers[p].conn.pump
    ensures Content(t.peers[p].conn) == Content(s.peers[p].conn)
  {
  }

  lemma TouchedHolds(s: State, l: Label, p: nat)
    requires Enabled(s, l) && Inner(l) && p < |s.peers| && Touched(s, l) == Some(p) && p < |Apply(s, l).peers|
    ensures Holds(s.peers[p].conn, Apply(s, l).peers[p].conn, Enters(s, l, p))
  {
    assert Content(s.peers[p].conn) + [] == Content(s.peers[p].conn);
    if PassStep(l) {
      LoopHolds(s, l, p);
    } else if l.PumpTake? || l.PumpWrite? {
      PumpHolds(s, l, p);
    } else {
      OthersHold(s, l, p);
    }
  }

  lemma LoopHolds(s: State, l: Label, p: nat)
    requires Enabled(s, l) && PassStep(l) && p < |s.peers| && p < |Apply(s, l).peers|
    requires Content(s.peers[p].conn) + [] == Content(s.peers[p].conn)
    ensures Holds(s.peers[p].conn, Apply(s, l).peers[p].conn, Enters(s, l, p))
  {
  }

  lemma PumpHolds(s: State, l: Label, p: nat)
    requires Enabled(s, l) && (l.PumpTake? || l.PumpWrite?) && p == l.peer && p < |Apply(s, l).peers|
    requires Content(s.peers[p].conn) + [] == Content(s.peers[p].conn)
    ensures Holds(s.peers[p].conn, Apply(s, l).peers[p].conn, Enters(s, l, p))
  {
    var c := s.peers[p].conn;
    if l.PumpTake? {
      assert c.queue == [c.queue[0]] + c.queue[1..];
    }
  }

  lemma OthersHold(s: State, l: Label, p: nat)
    requires Enabled(s, l) && Inner(l) && !PassStep(l) && !l.PumpTake? && !l.PumpWrite?
    requires p < |s.peers| && p < |Apply(s, l).peers|
    requires Content(s.peers[p].conn) + [] == Content(s.peers[p].conn)
    ensures Holds(s.peers[p].conn, Apply(s, l).peers[p].conn, Enters(s, l, p))
  {
  }

  lemma HoldsThrough(b: Conn, c: Conn, d: Conn, first: seq<Item>, rest: seq<Item>)
    requires Holds(b, c, first) && Holds(c, d, rest)
    ensures Holds(b, d, first + rest)
  {
    assert Content(b) + (first + rest) == (Content(b) + first) + rest;
  }

  lemma {:induction false} RunHolds(s: State, run: seq<Label>, p: nat)
    requires FabricInvariant(s) && CanRun(s, run) && p < |s.peers|
    ensures p < |After(s, run).peers|
    ensures Holds(s.peers[p].conn, After(s, run).peers[p].conn, EntersOver(s, run, p))
    decreases |run|
  {
    var c := s.peers[p].conn;
    if run == [] {
      assert Content(c) + [] == Content(c);
    } else {
      var s' := Apply(s, run[0]);
      StepHolds(s, run[0], p);
      StepKeeps(s, run[0]);
      RunHolds(s', run[1..], p);
      HoldsThrough(c, s'.peers[p].conn, After(s, run).peers[p].conn,
                   Enters(s, run[0], p), EntersOver(s', run[1..], p));
    }
  }

  /** When the fabric rests, the wire of a live connection is all that it held before and all that
      entered its queue since, events and error replies, in that order. */
  lemma WireIsWhatEntered(s: State, run: seq<Label>, p: nat)
    requires Reachable(s) && CanRun(s, run) && Quiescent(After(s, run)) && p < |s.peers|
    ensures p < |After(s, run).peers|
    ensures var x := After(s, run).peers[p];
      x.phase == Reading ==> x.conn.wire == Content(s.peers[p].conn) + EntersOver(s, run, p)
  {
    ReachableHolds(s);
    RunHolds(s, run, p);
    var d := After(s, run).peers[p].conn;
    assert PeerQuiet(After(s, run).peers[p]);
    assert d.wire + [] + [] == d.wire;
  }

  /** An error reply that fits into the queue is written, behind all that was there before it. */
  lemma ErrorReplyIsWritten(s: State, p: nat, tag: nat, run: seq<Label>, t: State)
    requires Settles(s, ReplyError(p, tag), run, t) && !s.peers[p].conn.Full()
    ensures p < |t.peers|
    ensures t.peers[p].phase == Reading ==> Content(s.peers[p].conn) + [Reply(tag)] <= t.peers[p].conn.wire
  {
    ReplyEnters(s, p, tag);
    ReachableStep(s, ReplyError(p, tag));
    WireIsWhatEntered(Apply(s, ReplyError(p, tag)), run, p);
  }

  lemma ReplyEnters(s: State, p: nat, tag: nat)
    requires Enabled(s, ReplyError(p, tag)) && !s.peers[p].conn.Full()
    ensures p < |Apply(s, ReplyError(p, tag)).peers|
    ensures Content(Apply(s, ReplyError(p, tag)).peers[p].conn) == Content(s.peers[p].conn) + [Reply(tag)]
  {
  }
}
