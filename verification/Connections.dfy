/** One WebSocket connection as its goroutines see it: the bounded send queue that the hub
    pushes into, the write pump that drains it, and the context that `Disconnect` cancels.

    `offered`, `accepted`, `cutoff` and `firstLoss` are history: they record what the hub
    addressed to the connection, what entered the queue, how much had entered it when the
    context was cancelled, and where the first event was lost.
 */
module Connections {
  import opened Basics

  /** Size of the `Send` channel. */
  const CAPACITY: nat := 256

  /** What travels in the queue: a hub event, or an error reply put there by `TrySend`. */
  datatype Item = Hub(event: nat) | Reply(tag: nat)

  datatype Pump = Running | Holding(item: Item) | Stopped

  datatype Conn = Conn(
    queue: seq<Item>,
    open: bool,
    cancelled: bool,
    pump: Pump,
    wire: seq<Item>,
    offered: seq<nat>,
    accepted: seq<nat>,
    cutoff: nat,
    firstLoss: Option<nat>,
    sneaked: bool)
  {
    /** Some event addressed to the connection did not enter its queue. */
    predicate Lost() {
      |accepted| < |offered|
    }

    predicate Full() {
      |queue| >= CAPACITY
    }

    /** The non-blocking send of the hub's delivery loops. `sneaked` records that the queue
        took an event after an earlier one was refused and before the context was cancelled. */
    function Offer(e: nat): Conn {
      if Full() then
        this.(offered := offered + [e],
              firstLoss := if firstLoss.None? then Some(|offered|) else firstLoss)
      else
        this.(offered := offered + [e],
              accepted := accepted + [e],
              queue := queue + [Hub(e)],
              sneaked := sneaked || (Lost() && !cancelled))
    }

    function Cancel(): Conn {
      if cancelled then this else this.(cancelled := true, cutoff := |accepted|)
    }

    /** `TrySend` when its select takes the send case, or the default case. */
    function TrySend(tag: nat): Conn {
      if Full() then this else this.(queue := queue + [Reply(tag)])
    }

    function Dequeue(): Conn
      requires queue != []
    {
      this.(queue := queue[1..], pump := Holding(queue[0]))
    }

    /** A write under a live context that succeeds. */
    function Write(): Conn
      requires pump.Holding?
    {
      this.(wire := wire + [pump.item], pump := Running)
    }

    function StopPump(): Conn {
      this.(pump := Stopped)
    }

    function Close(): Conn {
      this.(open := false)
    }
  }

  /** The state built by `NewClient`. */
  const FRESH: Conn := Conn([], true, false, Running, [], [], [], 0, None, false)

  /** The hub events among some items, in order. */
  function HubOf(items: seq<Item>): seq<nat> {
    if items == [] then []
    else (if items[0].Hub? then [items[0].event] else []) + HubOf(items[1..])
  }

  lemma {:induction false} HubOfConcat(a: seq<Item>, b: seq<Item>)
    ensures HubOf(a + b) == HubOf(a) + HubOf(b)
  {
    if a == [] {
      assert a + b == b;
    } else {
      var first := if a[0].Hub? then [a[0].event] else [];
      assert (a + b)[0] == a[0] && (a + b)[1..] == a[1..] + b;
      HubOfConcat(a[1..], b);
      assert first + (HubOf(a[1..]) + HubOf(b)) == (first + HubOf(a[1..])) + HubOf(b);
    }
  }

  /** What the write pump has taken from the queue and not yet written. */
  function InHand(pump: Pump): seq<Item> {
    if pump.Holding? then [pump.item] else []
  }

  /** What every step on a connection keeps. */
  ghost predicate Inv(c: Conn) {
    && (c.pump != Stopped ==> HubOf(c.wire) + HubOf(InHand(c.pump)) + HubOf(c.queue) == c.accepted)
    && HubOf(c.wire) <= c.accepted
    && |c.queue| <= CAPACITY
    && (c.cancelled ==> |HubOf(c.wire)| <= c.cutoff <= |c.accepted|)
    && LossInv(c)
    && (!c.sneaked ==> HubOf(c.wire) <= c.offered)
    && (!c.sneaked && !c.cancelled ==> c.accepted <= c.offered)
  }

  /** `firstLoss` marks where `accepted` and `offered` part; every event accepted from there
      on was offered after the lost one. */
  ghost predicate LossInv(c: Conn) {
    match c.firstLoss
    case None => c.accepted == c.offered
    case Some(k) =>
      && k <= |c.accepted| < |c.offered|
      && c.accepted[..k] == c.offered[..k]
      && forall i :: k <= i < |c.accepted| ==> OfferedAfter(c, c.accepted[i], k)
  }

  ghost predicate OfferedAfter(c: Conn, e: nat, k: nat) {
    exists m :: k < m < |c.offered| && c.offered[m] == e
  }

  lemma OfferKeepsLoss(c: Conn, e: nat)
    requires LossInv(c)
    ensures LossInv(c.Offer(e))
  {
    var d := c.Offer(e);
    if d.firstLoss.Some? {
      var k := d.firstLoss.value;
      if c.firstLoss.Some? {
        assert d.offered[..k] == c.offered[..k];
        assert d.accepted[..k] == c.accepted[..k];
      } else {
        assert d.offered[..k] == c.offered == c.accepted == d.accepted[..k];
      }
      forall i | k <= i < |d.accepted| ensures OfferedAfter(d, d.accepted[i], k) {
        if i < |c.accepted| {
          assert OfferedAfter(c, c.accepted[i], k);
          var m :| k < m < |c.offered| && c.offered[m] == c.accepted[i];
          assert d.offered[m] == d.accepted[i];
        } else {
          assert d.offered[|c.offered|] == d.accepted[i];
        }
      }
    }
  }

  lemma OfferKeeps(c: Conn, e: nat)
    requires Inv(c)
    ensures Inv(c.Offer(e))
  {
    OfferKeepsLoss(c, e);
    if !c.Full() {
      OfferFits(c, e);
    }
  }

  lemma OfferFits(c: Conn, e: nat)
    requires Inv(c) && !c.Full() && LossInv(c.Offer(e))
    ensures Inv(c.Offer(e))
  {
    HubOfConcat(c.queue, [Hub(e)]);
    assert HubOf([Hub(e)]) == [e];
    var d := c.Offer(e);
    assert HubOf(d.wire) + HubOf(InHand(d.pump)) + HubOf(d.queue)
        == (HubOf(c.wire) + HubOf(InHand(c.pump)) + HubOf(c.queue)) + [e];
  }

  lemma CancelKeeps(c: Conn)
    requires Inv(c)
    ensures Inv(c.Cancel())
  {
    var d := c.Cancel();
    assert forall e, k: nat :: OfferedAfter(c, e, k) ==> OfferedAfter(d, e, k);
  }

  lemma TrySendKeeps(c: Conn, tag: nat)
    requires Inv(c)
    ensures Inv(c.TrySend(tag))
  {
    var d := c.TrySend(tag);
    HubOfConcat(c.queue, [Reply(tag)]);
    assert HubOf([Reply(tag)]) == [];
    assert forall e, k: nat :: OfferedAfter(c, e, k) ==> OfferedAfter(d, e, k);
  }

  lemma DequeueKeeps(c: Conn)
    requires Inv(c) && c.pump == Running && c.queue != []
    ensures Inv(c.Dequeue())
  {
    var d := c.Dequeue();
    assert c.queue == [c.queue[0]] + c.queue[1..];
    HubOfConcat([c.queue[0]], c.queue[1..]);
    assert forall e, k: nat :: OfferedAfter(c, e, k) ==> OfferedAfter(d, e, k);
  }

  lemma WriteKeeps(c: Conn)
    requires Inv(c) && c.pump.Holding? && !c.cancelled
    ensures Inv(c.Write())
  {
    var d := c.Write();
    HubOfConcat(c.wire, [c.pump.item]);
    assert forall e, k: nat :: OfferedAfter(c, e, k) ==> OfferedAfter(d, e, k);
  }

  lemma StopPumpKeeps(c: Conn)
    requires Inv(c)
    ensures Inv(c.StopPump())
  {
    var d := c.StopPump();
    assert forall e, k: nat :: OfferedAfter(c, e, k) ==> OfferedAfter(d, e, k);
  }

  lemma CloseKeeps(c: Conn)
    requires Inv(c)
    ensures Inv(c.Close())
  {
    var d := c.Close();
    assert forall e, k: nat :: OfferedAfter(c, e, k) ==> OfferedAfter(d, e, k);
  }

  /** The wire misses an event exactly when the write pump got past the first lost one. */
  lemma GapExactly(c: Conn)
    requires Inv(c) && Distinct(c.offered)
    ensures HubOf(c.wire) <= c.offered <==> c.firstLoss.None? || |HubOf(c.wire)| <= c.firstLoss.value
  {
    var w := HubOf(c.wire);
    if c.firstLoss.Some? {
      var k := c.firstLoss.value;
      if |w| <= k {
        assert w == c.accepted[..k][..|w|];
        assert w == c.offered[..k][..|w|];
      } else {
        assert w[k] == c.accepted[k];
        assert OfferedAfter(c, c.accepted[k], k);
      }
    }
  }

  /** The write pump runs until the queue is empty. */
  function Drain(c: Conn): Conn
    requires c.pump != Stopped
    decreases 2 * |c.queue| + |InHand(c.pump)|
  {
    if c.pump.Holding? then Drain(c.Write())
    else if c.queue == [] then c
    else Drain(c.Dequeue())
  }

  lemma {:induction false} DrainWritesAll(c: Conn)
    requires Inv(c) && c.pump != Stopped && !c.cancelled
    ensures var d := Drain(c);
      HubOf(d.wire) == c.accepted && d.offered == c.offered && !d.cancelled
    decreases 2 * |c.queue| + |InHand(c.pump)|
  {
    if c.pump.Holding? {
      WriteKeeps(c);
      DrainWritesAll(c.Write());
    } else if c.queue != [] {
      DequeueKeeps(c);
      DrainWritesAll(c.Dequeue());
    }
  }

  /** A full queue refuses `e`; before the refusing goroutine cancels the connection, the write
      pump takes one item and another goroutine's `f` is accepted. The wire then shows `f`
      where `e` should be, under a context that is still live. */
  lemma GapHappens(c: Conn, e: nat, f: nat)
    requires Inv(c) && !c.cancelled && c.pump == Running && c.Full() && !c.Lost() && e != f
    ensures var d := Drain(c.Offer(e).Dequeue().Offer(f));
      !d.cancelled && f in HubOf(d.wire) && !(HubOf(d.wire) <= d.offered)
  {
    var b := c.Offer(e).Dequeue();
    var b' := b.Offer(f);
    OfferKeeps(c, e);
    DequeueKeeps(c.Offer(e));
    OfferKeeps(b, f);
    DrainWritesAll(b');
    var k := |c.accepted|;
    assert b'.offered[k] == e && b'.accepted[k] == f;
  }

  /** Such a connection exists: a new one that was sent as many events as its queue holds. */
  function Flooded(n: nat): Conn {
    if n == 0 then FRESH else Flooded(n - 1).Offer(n)
  }

  lemma {:induction false} FloodFills(n: nat)
    requires n <= CAPACITY
    ensures var c := Flooded(n);
      Inv(c) && !c.cancelled && c.pump == Running && |c.queue| == n && !c.Lost()
  {
    if n > 0 {
      FloodFills(n - 1);
      OfferKeeps(Flooded(n - 1), n);
    }
  }
}
