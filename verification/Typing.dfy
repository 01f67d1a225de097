/** Typing indicators: handlers and timer callbacks of one replica, each split at every point
    where the lock is released, so that any number of them can interleave on one key. A callback
    deletes its key without looking whether the entry is still its own, so timers can be armed
    that no handler can stop any more. */
module Typing {

  datatype Key = Key(user: int, chat: int)

  /** A handler of `typing.start` (`on`) or `typing.stop`: before the first lock, looking up the
      members, sending to the other members one by one, and about to arm a timer. */
  datatype Stage =
    | Starting
    | LookingUp
    | Sending(others: set<int>, left: set<int>)
    | Arming(others: set<int>)
    | Finished

  datatype Handler = Handler(key: Key, on: bool, stage: Stage)

  /** A timer: armed, stopped in time, its callback sending, about to delete the key, and done. */
  datatype Phase = Armed | Stopped | Firing(left: set<int>) | Deleting | Done

  datatype Timer = Timer(key: Key, others: set<int>, phase: Phase)

  /** `current` is the map of timers; `shown` is the last indicator each member was sent, and
      `latest` the flag of the broadcast for a key that began last. */
  datatype State = State(
    handlers: seq<Handler>,
    timers: seq<Timer>,
    current: map<Key, nat>,
    shown: map<(Key, int), bool>,
    latest: map<Key, bool>)

  datatype Label =
    | Begin(key: Key, on: bool)
    | StopOld(handler: nat)
    | Lookup(handler: nat, members: set<int>)
    | LookupFails(handler: nat)
    | SendTo(handler: nat, member: int)
    | SendDone(handler: nat)
    | Arm(handler: nat)
    | Expire(timer: nat)
    | ClearTo(timer: nat, member: int)
    | ClearDone(timer: nat)
    | DeleteKey(timer: nat)

  const INITIAL := State([], [], map[], map[], map[])

  ghost predicate Enabled(s: State, l: Label) {
    match l
    case Begin(_, _) => true
    case StopOld(h) =>
      && h < |s.handlers| && s.handlers[h].stage == Starting
      && (s.handlers[h].key in s.current ==> s.current[s.handlers[h].key] < |s.timers|)
    case Lookup(h, _) => h < |s.handlers| && s.handlers[h].stage == LookingUp
    case LookupFails(h) => h < |s.handlers| && s.handlers[h].stage == LookingUp
    case SendTo(h, m) => h < |s.handlers| && s.handlers[h].stage.Sending? && m in s.handlers[h].stage.left
    case SendDone(h) => h < |s.handlers| && s.handlers[h].stage.Sending? && s.handlers[h].stage.left == {}
    case Arm(h) => h < |s.handlers| && s.handlers[h].stage.Arming?
    case Expire(t) => t < |s.timers| && s.timers[t].phase == Armed
    case ClearTo(t, m) => t < |s.timers| && s.timers[t].phase.Firing? && m in s.timers[t].phase.left
    case ClearDone(t) => t < |s.timers| && s.timers[t].phase.Firing? && s.timers[t].phase.left == {}
    case DeleteKey(t) => t < |s.timers| && s.timers[t].phase == Deleting
  }

  function Move(s: State, h: nat, stage: Stage): State
    requires h < |s.handlers|
  {
    s.(handlers := s.handlers[h := s.handlers[h].(stage := stage)])
  }

  function Tick(s: State, t: nat, phase: Phase): State
    requires t < |s.timers|
  {
    s.(timers := s.timers[t := s.timers[t].(phase := phase)])
  }

  function Show(s: State, k: Key, m: int, on: bool): State {
    s.(shown := s.shown[(k, m) := on])
  }

  ghost function Apply(s: State, l: Label): State
    requires Enabled(s, l)
  {
    match l
    case Begin(k, on) => s.(handlers := s.handlers + [Handler(k, on, Starting)])
    case StopOld(h) =>
      var k := s.handlers[h].key;
      if k !in s.current then Move(s, h, LookingUp)
      else
        var t := s.current[k];
        // Stop has no effect on a timer that has already fired
        var u := if s.timers[t].phase == Armed then Tick(s, t, Stopped) else s;
        Move(u.(current := s.current - {k}), h, LookingUp)
    case Lookup(h, members) =>
      var x := s.handlers[h];
      var others := members - {x.key.user};
      Move(s.(latest := s.latest[x.key := x.on]), h, Sending(others, others))
    case LookupFails(h) => Move(s, h, Finished)
    case SendTo(h, m) =>
      var x := s.handlers[h];
      Move(Show(s, x.key, m, x.on), h, Sending(x.stage.others, x.stage.left - {m}))
    case SendDone(h) =>
      Move(s, h, if s.handlers[h].on then Arming(s.handlers[h].stage.others) else Finished)
    case Arm(h) =>
      var x := s.handlers[h];
      Move(s.(timers := s.timers + [Timer(x.key, x.stage.others, Armed)],
              current := s.current[x.key := |s.timers|]), h, Finished)
    case Expire(t) => Tick(s.(latest := s.latest[s.timers[t].key := false]), t, Firing(s.timers[t].others))
    case ClearTo(t, m) =>
      Tick(Show(s, s.timers[t].key, m, false), t, Firing(s.timers[t].phase.left - {m}))
    case ClearDone(t) => Tick(s, t, Deleting)
    case DeleteKey(t) => Tick(s.(current := s.current - {s.timers[t].key}), t, Done)
  }

  // ---------------------------------------------------------------- who will clear it

  predicate Showing(s: State, k: Key, m: int) {
    (k, m) in s.shown && s.shown[(k, m)]
  }

  /** Handler `h` will send member `m` something after this, or arm a timer that will. */
  predicate HandlerWill(s: State, h: nat, k: Key, m: int) {
    && h < |s.handlers| && s.handlers[h].key == k
    && match s.handlers[h].stage
       case LookingUp => true
       case Sending(others, left) => m in left || (s.handlers[h].on && m in others)
       case Arming(others) => m in others
       case _ => false
  }

  predicate TimerWill(s: State, t: nat, k: Key, m: int) {
    && t < |s.timers| && s.timers[t].key == k
    && match s.timers[t].phase
       case Armed => m in s.timers[t].others
       case Firing(left) => m in left
       case _ => false
  }

  ghost predicate Owed(s: State, k: Key, m: int) {
    (exists h :: HandlerWill(s, h, k, m)) || (exists t :: TimerWill(s, t, k, m))
  }

  /** As long as a member is shown the indicator, somebody is going to clear it. */
  ghost predicate Settling(s: State, k: Key, m: int) {
    Showing(s, k, m) ==> Owed(s, k, m)
  }

  /** The map only holds timers of the key they are filed under. */
  ghost predicate MapOk(s: State) {
    forall k :: k in s.current ==> s.current[k] < |s.timers| && s.timers[s.current[k]].key == k
  }

  /** Step `l` is a lookup for key `k` that fails or does not find `m`, made by the only
      goroutine that would have cleared the indicator. */
  ghost predicate Strands(s: State, l: Label, k: Key, m: int) {
    && (l.LookupFails? || (l.Lookup? && (m !in l.members || m == k.user)))
    && l.handler < |s.handlers| && s.handlers[l.handler].key == k
    && Showing(s, k, m)
    && (forall h :: HandlerWill(s, h, k, m) ==> h == l.handler)
    && (forall t :: !TimerWill(s, t, k, m))
  }

  ghost predicate LeftOk(s: State) {
    forall h :: 0 <= h < |s.handlers| && s.handlers[h].stage.Sending? ==>
      s.handlers[h].stage.left <= s.handlers[h].stage.others
  }

  lemma LeftKept(s: State, l: Label)
    requires LeftOk(s) && Enabled(s, l)
    ensures LeftOk(Apply(s, l))
  {
  }

  lemma MapKept(s: State, l: Label)
    requires MapOk(s) && Enabled(s, l)
    ensures MapOk(Apply(s, l))
  {
  }

  // ---------------------------------------------------------------- one step

  /** A goroutine that owes the indicator's end still does after a step, or the step has ended
      it, or the step is a lookup of its own that came to nothing. */
  lemma HandlerStep(s: State, l: Label, k: Key, m: int, h: nat)
    requires LeftOk(s) && Enabled(s, l) && HandlerWill(s, h, k, m) && Showing(Apply(s, l), k, m)
    requires !((l.LookupFails? || (l.Lookup? && (m !in l.members || m == k.user))) && l.handler == h)
    ensures Owed(Apply(s, l), k, m)
  {
    var t := Apply(s, l);
    if l == Arm(h) {
      assert TimerWill(t, |s.timers|, k, m);
    } else {
      assert HandlerWill(t, h, k, m);
    }
  }

  lemma TimerStep(s: State, l: Label, k: Key, m: int, x: nat)
    requires MapOk(s) && Enabled(s, l) && TimerWill(s, x, k, m) && Showing(Apply(s, l), k, m)
    ensures Owed(Apply(s, l), k, m)
  {
    var t := Apply(s, l);
    if l.StopOld? && s.handlers[l.handler].key in s.current && s.current[s.handlers[l.handler].key] == x {
      assert HandlerWill(t, l.handler, k, m);
    } else {
      assert TimerWill(t, x, k, m);
    }
  }

  /** Only a handler that is sending turns the indicator on. */
  lemma TurnedOn(s: State, l: Label, k: Key, m: int)
    requires Enabled(s, l) && !Showing(s, k, m) && Showing(Apply(s, l), k, m)
    requires LeftOk(s)
    ensures Owed(Apply(s, l), k, m)
  {
    assert l.SendTo? && HandlerWill(Apply(s, l), l.handler, k, m);
  }

  lemma StrandedStep(s: State, l: Label, k: Key, m: int)
    requires Enabled(s, l) && Strands(s, l, k, m)
    ensures !Settling(Apply(s, l), k, m)
  {
    var t := Apply(s, l);
    assert Showing(t, k, m);
    forall h: nat ensures !HandlerWill(t, h, k, m) {
      assert HandlerWill(s, h, k, m) ==> h == l.handler;
    }
    forall x: nat ensures !TimerWill(t, x, k, m) {
      assert !TimerWill(s, x, k, m);
    }
  }

  /** A step keeps the promise that the indicator will be cleared exactly when it is no lookup
      that strands it. */
  lemma StepExactly(s: State, l: Label, k: Key, m: int)
    requires MapOk(s) && LeftOk(s) && Settling(s, k, m) && Enabled(s, l)
    ensures Settling(Apply(s, l), k, m) <==> !Strands(s, l, k, m)
  {
    if Strands(s, l, k, m) {
      StrandedStep(s, l, k, m);
    } else if Showing(Apply(s, l), k, m) {
      if !Showing(s, k, m) {
        TurnedOn(s, l, k, m);
      } else if x: nat :| TimerWill(s, x, k, m) {
        TimerStep(s, l, k, m, x);
      } else if h: nat :| HandlerWill(s, h, k, m) && !((l.Lookup? || l.LookupFails?) && l.handler == h) {
        HandlerStep(s, l, k, m, h);
      } else {
        var h: nat :| HandlerWill(s, h, k, m);
        HandlerStep(s, l, k, m, h);
      }
    }
  }

  // ---------------------------------------------------------------- whole runs

  ghost predicate CanRun(s: State, run: seq<Label>)
    decreases |run|
  {
    run == [] || (Enabled(s, run[0]) && CanRun(Apply(s, run[0]), run[1..]))
  }

  ghost function After(s: State, run: seq<Label>): State
    requires CanRun(s, run)
    decreases |run|
  {
    if run == [] then s else After(Apply(s, run[0]), run[1..])
  }

  /** Every lookup in the run that is made for chat key `k` succeeds and returns member `m`. */
  ghost predicate LookupsFind(s: State, run: seq<Label>, k: Key, m: int)
    requires CanRun(s, run)
    decreases |run|
  {
    run != [] ==>
      && (run[0].LookupFails? ==> s.handlers[run[0].handler].key != k)
      && (run[0].Lookup? && s.handlers[run[0].handler].key == k ==> m in run[0].members)
      && LookupsFind(Apply(s, run[0]), run[1..], k, m)
  }

  lemma {:induction false} RunSettles(s: State, run: seq<Label>, k: Key, m: int)
    requires MapOk(s) && LeftOk(s) && Settling(s, k, m) && m != k.user
    requires CanRun(s, run) && LookupsFind(s, run, k, m)
    ensures Settling(After(s, run), k, m)
    decreases |run|
  {
    if run != [] {
      MapKept(s, run[0]);
      LeftKept(s, run[0]);
      StepExactly(s, run[0], k, m);
      RunSettles(Apply(s, run[0]), run[1..], k, m);
    }
  }

  /** No handler for `k` is in flight and no timer for `k` is armed or in its callback. */
  ghost predicate Quiet(s: State, k: Key) {
    && (forall h :: 0 <= h < |s.handlers| && s.handlers[h].key == k ==> s.handlers[h].stage == Finished)
    && (forall t :: 0 <= t < |s.timers| && s.timers[t].key == k ==> s.timers[t].phase in {Stopped, Done})
  }

  /** However start and stop handlers, expiring timers, stale callbacks and overwritten map
      entries interleave: when every lookup finds the member, the indicator it was last sent is
      off whenever the key is quiet. */
  lemma TypingAlwaysClears(run: seq<Label>, k: Key, m: int)
    requires CanRun(INITIAL, run) && LookupsFind(INITIAL, run, k, m) && m != k.user
    requires Quiet(After(INITIAL, run), k)
    ensures !Showing(After(INITIAL, run), k, m)
  {
    RunSettles(INITIAL, run, k, m);
  }

  // ---------------------------------------------------------------- the last broadcast

  predicate Typed(s: State, k: Key) {
    k in s.latest && s.latest[k]
  }

  /** Handler h is going to broadcast for k, or to arm a timer that will. */
  predicate WillBroadcast(s: State, h: nat, k: Key) {
    && h < |s.handlers| && s.handlers[h].key == k
    && match s.handlers[h].stage
       case LookingUp => true
       case Sending(_, _) => s.handlers[h].on
       case Arming(_) => true
       case _ => false
  }

  predicate WillExpire(s: State, t: nat, k: Key) {
    t < |s.timers| && s.timers[t].key == k && s.timers[t].phase == Armed
  }

  /** As long as the last broadcast was on, another one is due. */
  ghost predicate Due(s: State, k: Key) {
    Typed(s, k) ==> (exists h :: WillBroadcast(s, h, k)) || (exists t :: WillExpire(s, t, k))
  }

  /** A failed lookup by the only goroutine that would have broadcast again. */
  ghost predicate LosesLast(s: State, l: Label, k: Key) {
    && l.LookupFails? && l.handler < |s.handlers| && s.handlers[l.handler].key == k && Typed(s, k)
    && (forall h :: WillBroadcast(s, h, k) ==> h == l.handler)
    && (forall t :: !WillExpire(s, t, k))
  }

  lemma BroadcasterStep(s: State, l: Label, k: Key, h: nat)
    requires Enabled(s, l) && WillBroadcast(s, h, k) && Typed(Apply(s, l), k)
    requires !(l.LookupFails? && l.handler == h)
    ensures Due(Apply(s, l), k)
  {
    var t := Apply(s, l);
    if l == Arm(h) {
      assert WillExpire(t, |s.timers|, k);
    } else {
      assert WillBroadcast(t, h, k);
    }
  }

  lemma ExpirerStep(s: State, l: Label, k: Key, x: nat)
    requires MapOk(s) && Enabled(s, l) && WillExpire(s, x, k) && Typed(Apply(s, l), k)
    ensures Due(Apply(s, l), k)
  {
    var t := Apply(s, l);
    if l.StopOld? && s.handlers[l.handler].key in s.current && s.current[s.handlers[l.handler].key] == x {
      assert WillBroadcast(t, l.handler, k);
    } else {
      assert WillExpire(t, x, k);
    }
  }

  /** A step leaves another broadcast due, while the last one was on, exactly when it is not a
      failed lookup by the only goroutine that would have made it. */
  lemma LastStepExactly(s: State, l: Label, k: Key)
    requires MapOk(s) && Due(s, k) && Enabled(s, l)
    ensures Due(Apply(s, l), k) <==> !LosesLast(s, l, k)
  {
    var t := Apply(s, l);
    if LosesLast(s, l, k) {
      forall h: nat ensures !WillBroadcast(t, h, k) {
        assert WillBroadcast(s, h, k) ==> h == l.handler;
      }
      forall x: nat ensures !WillExpire(t, x, k) {
        assert !WillExpire(s, x, k);
      }
    } else if Typed(t, k) {
      if !Typed(s, k) {
        assert l.Lookup? && WillBroadcast(t, l.handler, k);
      } else if x: nat :| WillExpire(s, x, k) {
        ExpirerStep(s, l, k, x);
      } else {
        var h: nat :| WillBroadcast(s, h, k) && !(l.LookupFails? && l.handler == h);
        BroadcasterStep(s, l, k, h);
      }
    }
  }

  /** No lookup made for k in the run fails. */
  ghost predicate LookupsAnswer(s: State, run: seq<Label>, k: Key)
    requires CanRun(s, run)
    decreases |run|
  {
    run != [] ==>
      && (run[0].LookupFails? ==> s.handlers[run[0].handler].key != k)
      && LookupsAnswer(Apply(s, run[0]), run[1..], k)
  }

  lemma {:induction false} RunStaysDue(s: State, run: seq<Label>, k: Key)
    requires MapOk(s) && Due(s, k) && CanRun(s, run) && LookupsAnswer(s, run, k)
    ensures Due(After(s, run), k)
    decreases |run|
  {
    if run != [] {
      MapKept(s, run[0]);
      LastStepExactly(s, run[0], k);
      RunStaysDue(Apply(s, run[0]), run[1..], k);
    }
  }

  /** Whoever joins or leaves the chat meanwhile: when no lookup fails, the last broadcast for a
      key that has become quiet is off. */
  lemma LastBroadcastIsOff(run: seq<Label>, k: Key)
    requires CanRun(INITIAL, run) && LookupsAnswer(INITIAL, run, k) && Quiet(After(INITIAL, run), k)
    ensures !Typed(After(INITIAL, run), k)
  {
    RunStaysDue(INITIAL, run, k);
  }

  // ---------------------------------------------------------------- what the map holds

  /** The map holds no timer that was stopped or has finished its callback. */
  ghost predicate MapLive(s: State) {
    forall k :: k in s.current ==>
      && s.current[k] < |s.timers| && s.timers[s.current[k]].key == k
      && s.timers[s.current[k]].phase !in {Stopped, Done}
  }

  lemma MapLiveKept(s: State, l: Label)
    requires MapLive(s) && Enabled(s, l)
    ensures MapLive(Apply(s, l))
  {
  }

  lemma {:induction false} MapLiveRun(s: State, run: seq<Label>)
    requires MapLive(s) && CanRun(s, run)
    ensures MapLive(After(s, run))
    decreases |run|
  {
    if run != [] {
      MapLiveKept(s, run[0]);
      MapLiveRun(Apply(s, run[0]), run[1..]);
    }
  }

  /** Nothing stays in the map: a key that is quiet has no entry, stale callbacks and overwritten
      entries notwithstanding. */
  lemma QuietKeyIsForgotten(run: seq<Label>, k: Key)
    requires CanRun(INITIAL, run) && Quiet(After(INITIAL, run), k)
    ensures k !in After(INITIAL, run).current
  {
    MapLiveRun(INITIAL, run);
  }

  // ---------------------------------------------------------------- stops arm nothing

  /** Nobody has started typing under the key. */
  ghost predicate OnlyStops(s: State, k: Key) {
    && (forall h :: 0 <= h < |s.handlers| && s.handlers[h].key == k ==>
          !s.handlers[h].on && !s.handlers[h].stage.Arming?)
    && (forall t :: 0 <= t < |s.timers| ==> s.timers[t].key != k)
    && (forall m :: !Showing(s, k, m)) && !Typed(s, k)
  }

  lemma StopStep(s: State, l: Label, k: Key)
    requires OnlyStops(s, k) && Enabled(s, l) && l != Begin(k, true)
    ensures OnlyStops(Apply(s, l), k)
  {
    forall m ensures !Showing(Apply(s, l), k, m) {
      assert !Showing(s, k, m);
    }
  }

  lemma {:induction false} StopRun(s: State, run: seq<Label>, k: Key)
    requires OnlyStops(s, k) && CanRun(s, run) && Begin(k, true) !in run
    ensures OnlyStops(After(s, run), k)
    decreases |run|
  {
    if run != [] {
      assert run[0] in run && forall l :: l in run[1..] ==> l in run;
      StopStep(s, run[0], k);
      StopRun(Apply(s, run[0]), run[1..], k);
    }
  }

  /** Stops alone, however many and however interleaved with other keys, arm no timer and turn no
      indicator on. */
  lemma StopsArmNothing(run: seq<Label>, k: Key)
    requires CanRun(INITIAL, run) && Begin(k, true) !in run
    ensures var s := After(INITIAL, run);
      && (forall t :: 0 <= t < |s.timers| ==> s.timers[t].key != k)
      && (forall m :: !Showing(s, k, m)) && !Typed(s, k)
  {
    StopRun(INITIAL, run, k);
  }

  // ---------------------------------------------------------------- failed lookups

  /** The common case: the indicator is on, one timer is armed and in the map, and nothing else
      is in flight for the key. */
  ghost predicate OneTimer(s: State, k: Key, m: int) {
    && MapOk(s) && k in s.current && s.timers[s.current[k]].phase == Armed
    && Showing(s, k, m) && Typed(s, k)
    && (forall h :: 0 <= h < |s.handlers| && s.handlers[h].key == k ==> s.handlers[h].stage == Finished)
    && (forall t :: 0 <= t < |s.timers| && s.timers[t].key == k ==>
        t == s.current[k] || s.timers[t].phase in {Stopped, Done})
  }

  /** A start or stop whose lookup fails has already stopped the timer: the key is quiet and the
      indicator stays on. */
  lemma FailedLookupStrands(s: State, k: Key, m: int, on: bool)
    requires OneTimer(s, k, m)
    ensures var h := |s.handlers|;
      var run := [Begin(k, on), StopOld(h), LookupFails(h)];
      CanRun(s, run) && Quiet(After(s, run), k) && Showing(After(s, run), k, m) && Typed(After(s, run), k)
  {
    var h := |s.handlers|;
    var run := [Begin(k, on), StopOld(h), LookupFails(h)];
    Extend(s, [], Begin(k, on));
    Extend(s, [Begin(k, on)], StopOld(h));
    Extend(s, [Begin(k, on), StopOld(h)], LookupFails(h));
    assert [] + [Begin(k, on)] == [Begin(k, on)];
    assert [Begin(k, on)] + [StopOld(h)] == [Begin(k, on), StopOld(h)];
    assert [Begin(k, on), StopOld(h)] + [LookupFails(h)] == run;
  }

  lemma {:induction false} Extend(s: State, run: seq<Label>, l: Label)
    requires CanRun(s, run) && Enabled(After(s, run), l)
    ensures CanRun(s, run + [l]) && After(s, run + [l]) == Apply(After(s, run), l)
    decreases |run|
  {
    if run == [] {
      assert run + [l] == [l] && [l][1..] == [];
    } else {
      Extend(Apply(s, run[0]), run[1..], l);
      assert (run + [l])[1..] == run[1..] + [l];
    }
  }

  /** One `typing.start` with nobody interfering brings the key into the common case. */
  lemma StartShows(k: Key, m: int) returns (run: seq<Label>)
    requires m != k.user
    ensures CanRun(INITIAL, run) && LookupsSucceed(run) && OneTimer(After(INITIAL, run), k, m)
  {
    run := [];
    Extend(INITIAL, run, Begin(k, true));
    run := run + [Begin(k, true)];
    Extend(INITIAL, run, StopOld(0));
    run := run + [StopOld(0)];
    Extend(INITIAL, run, Lookup(0, {m}));
    run := run + [Lookup(0, {m})];
    Extend(INITIAL, run, SendTo(0, m));
    run := run + [SendTo(0, m)];
    Extend(INITIAL, run, SendDone(0));
    run := run + [SendDone(0)];
    Extend(INITIAL, run, Arm(0));
    run := run + [Arm(0)];
  }

  predicate LookupsSucceed(run: seq<Label>) {
    forall i :: 0 <= i < |run| ==> !run[i].LookupFails?
  }
}
