/** The two token buckets of a connection, and the read pump that spends them. Time and tokens are
    real numbers; the clock does not run backwards. */
module RateLimit {
  import opened Basics

  datatype Bucket = Bucket(rate: real, burst: real, tokens: real, last: real)

  predicate Ok(b: Bucket) {
    b.rate > 0.0 && b.burst >= 1.0 && 0.0 <= b.tokens <= b.burst
  }

  /** `rate.NewLimiter`: a bucket starts full. */
  function NewBucket(rate: real, burst: real, now: real): Bucket {
    Bucket(rate, burst, burst, now)
  }

  function Gain(rate: real, from: real, to: real): real {
    rate * (to - from)
  }

  lemma GainAdds(rate: real, a: real, b: real, c: real)
    ensures Gain(rate, a, c) == Gain(rate, a, b) + Gain(rate, b, c)
  {
  }

  lemma GainGrows(rate: real, a: real, b: real)
    requires rate > 0.0 && a <= b
    ensures Gain(rate, a, b) >= 0.0
  {
  }

  function Min(a: real, b: real): real {
    if a < b then a else b
  }

  lemma LongerGains(rate: real, a: real, b: real, length: real)
    requires rate > 0.0 && b - a <= length
    ensures Gain(rate, a, b) <= Gain(rate, 0.0, length)
  {
    GainGrows(rate, b - a, length);
  }

  /** The tokens there are at time t. */
  function Level(b: Bucket, t: real): real {
    Min(b.burst, b.tokens + if t < b.last then 0.0 else Gain(b.rate, b.last, t))
  }

  /** `Limiter.Allow`: a refusal leaves the bucket as it is. */
  predicate Allows(b: Bucket, t: real) {
    Level(b, t) >= 1.0
  }

  function Spend(b: Bucket, t: real): Bucket {
    if Allows(b, t) then b.(tokens := Level(b, t) - 1.0, last := t) else b
  }

  function After(b: Bucket, times: seq<real>): Bucket {
    if times == [] then b else Spend(After(b, times[..|times| - 1]), times[|times| - 1])
  }

  /** Is request k of this bucket allowed? */
  predicate Allowed(b: Bucket, times: seq<real>, k: nat)
    requires k < |times|
  {
    Allows(After(b, times[..k]), times[k])
  }

  /** How many of the requests i, …, k - 1 are allowed. */
  function Count(b: Bucket, times: seq<real>, i: nat, k: nat): nat
    requires i <= k <= |times|
  {
    if i == k then 0 else Count(b, times, i, k - 1) + if Allowed(b, times, k - 1) then 1 else 0
  }

  predicate Mono(times: seq<real>) {
    forall i, j :: 0 <= i <= j < |times| ==> times[i] <= times[j]
  }

  // ---------------------------------------------------------------- exactly when a request is allowed

  /** What is left of the allowance of the window that request i opens. */
  function Left(b: Bucket, times: seq<real>, i: nat, k: nat, t: real): real
    requires i <= k <= |times| && i < |times|
  {
    b.burst + Gain(b.rate, times[i], t) - Count(b, times, i, k) as real
  }

  /** A full bucket's level after k requests is the least allowance that any window still has. */
  ghost predicate LevelIsLeast(b: Bucket, times: seq<real>, k: nat, t: real)
    requires k <= |times|
  {
    var level := Level(After(b, times[..k]), t);
    && level <= b.burst
    && (forall i :: 0 <= i < k ==> level <= Left(b, times, i, k, t))
    && (level == b.burst || exists i :: 0 <= i < k && level == Left(b, times, i, k, t))
  }

  lemma {:induction false} AfterOk(b: Bucket, times: seq<real>)
    requires Ok(b) && Mono(times) && (times != [] ==> b.last <= times[0])
    ensures var a := After(b, times);
      Ok(a) && a.rate == b.rate && a.burst == b.burst
          && (if times == [] then a == b else b.last <= a.last <= times[|times| - 1])
  {
    if times != [] {
      var n := |times| - 1;
      AfterOk(b, times[..n]);
      var a := After(b, times[..n]);
      GainGrows(a.rate, a.last, times[n]);
    }
  }

  /** How the level moves past request k, from its time u to a later time t. */
  lemma LevelMoves(a: Bucket, u: real, t: real)
    requires Ok(a) && a.last <= u <= t
    ensures Level(Spend(a, u), t) ==
        Min(a.burst, Level(a, u) - (if Allows(a, u) then 1.0 else 0.0) + Gain(a.rate, u, t))
  {
    GainAdds(a.rate, a.last, u, t);
    GainGrows(a.rate, u, t);
    GainGrows(a.rate, a.last, u);
  }

  lemma {:induction false} LevelHolds(b: Bucket, times: seq<real>, k: nat, t: real)
    requires Ok(b) && b.tokens == b.burst && Mono(times) && k <= |times|
    requires times != [] ==> b.last <= times[0]
    requires b.last <= t && (k > 0 ==> times[k - 1] <= t)
    ensures LevelIsLeast(b, times, k, t)
    decreases k
  {
    if k == 0 {
      GainGrows(b.rate, b.last, t);
      assert times[..0] == [];
    } else {
      var u := times[k - 1];
      LevelHolds(b, times, k - 1, u);
      LevelStep(b, times, k, t);
    }
  }

  lemma LeftMoves(b: Bucket, times: seq<real>, i: nat, k: nat, t: real)
    requires i < k <= |times|
    ensures var u, spent := times[k - 1], if Allowed(b, times, k - 1) then 1.0 else 0.0;
      Left(b, times, i, k, t) ==
          (if i < k - 1 then Left(b, times, i, k - 1, u) else b.burst) - spent + Gain(b.rate, u, t)
  {
    GainAdds(b.rate, times[i], times[k - 1], t);
    assert Count(b, times, i, k) == Count(b, times, i, k - 1) + if Allowed(b, times, k - 1) then 1 else 0;
  }

  lemma LevelStep(b: Bucket, times: seq<real>, k: nat, t: real)
    requires Ok(b) && Mono(times) && 0 < k <= |times| && b.last <= times[0] && times[k - 1] <= t
    requires LevelIsLeast(b, times, k - 1, times[k - 1])
    ensures LevelIsLeast(b, times, k, t)
  {
    var u, before := times[k - 1], After(b, times[..k - 1]);
    var spent := if Allows(before, u) then 1.0 else 0.0;
    AfterOk(b, times[..k - 1]);
    assert times[..k][..k - 1] == times[..k - 1] && times[..k][k - 1] == u;
    LevelMoves(before, u, t);
    var level := Level(After(b, times[..k]), t);
    assert level == Min(b.burst, Level(before, u) - spent + Gain(b.rate, u, t));
    forall i | 0 <= i < k ensures level <= Left(b, times, i, k, t) {
      LeftMoves(b, times, i, k, t);
      assert i < k - 1 ==> Level(before, u) <= Left(b, times, i, k - 1, u);
    }
    if level != b.burst {
      if Level(before, u) == b.burst {
        LeftMoves(b, times, k - 1, k, t);
        assert level == Left(b, times, k - 1, k, t);
      } else {
        var i :| 0 <= i < k - 1 && Level(before, u) == Left(b, times, i, k - 1, u);
        LeftMoves(b, times, i, k, t);
        assert level == Left(b, times, i, k, t);
      }
    }
  }

  /** A request is allowed exactly when no window ending with it would hold more requests than the
      burst and the refill of its length pay for. */
  lemma AllowedExactly(b: Bucket, times: seq<real>, k: nat)
    requires Ok(b) && b.tokens == b.burst && Mono(times) && k < |times| && b.last <= times[0]
    ensures Allowed(b, times, k) <==>
              forall i :: 0 <= i <= k ==>
                  (Count(b, times, i, k) + 1) as real <= b.burst + Gain(b.rate, times[i], times[k])
  {
    var t := times[k];
    LevelHolds(b, times, k, t);
    var level := Level(After(b, times[..k]), t);
    assert Left(b, times, k, k, t) == b.burst;
    assert Allowed(b, times, k) <==> level >= 1.0;
    if level >= 1.0 {
      forall i | 0 <= i <= k ensures (Count(b, times, i, k) + 1) as real <= b.burst + Gain(b.rate, times[i], t) {
        assert level <= Left(b, times, i, k, t);
      }
    } else {
      var i :| 0 <= i < k && level == Left(b, times, i, k, t);
      assert (Count(b, times, i, k) + 1) as real > b.burst + Gain(b.rate, times[i], t);
    }
  }

  // ---------------------------------------------------------------- any window

  predicate InWindow(t: real, from: real, length: real) {
    from <= t <= from + length
  }

  function CountWindow(b: Bucket, times: seq<real>, k: nat, from: real, length: real): nat
    requires k <= |times|
  {
    if k == 0 then 0
    else CountWindow(b, times, k - 1, from, length) + if Allowed(b, times, k - 1)
        && InWindow(times[k - 1], from, length) then 1 else 0
  }

  lemma {:induction false} WindowInCount(b: Bucket, times: seq<real>, i: nat, k: nat, from: real, length: real)
    requires i <= k <= |times| && forall j :: 0 <= j < i ==> times[j] < from
    ensures CountWindow(b, times, k, from, length) <= Count(b, times, i, k)
    decreases k
  {
    if k > i {
      WindowInCount(b, times, i, k - 1, from, length);
    } else if k > 0 {
      WindowInCount(b, times, i - 1, k - 1, from, length);
    }
  }

  function FirstIn(times: seq<real>, from: real): (i: nat)
    ensures i <= |times| && (forall j :: 0 <= j < i ==> times[j] < from) && (i < |times| ==> times[i] >= from)
  {
    if times == [] || times[0] >= from then 0
    else
      var i := FirstIn(times[1..], from);
      assert forall j :: 0 < j < i + 1 ==> times[j] == times[1..][j - 1];
      i + 1
  }

  /** An allowed request closes a window that is within its allowance. */
  lemma AllowedInWindow(b: Bucket, times: seq<real>, k: nat, from: real, length: real)
    requires Ok(b) && b.tokens == b.burst && Mono(times) && k < |times| && b.last <= times[0]
    requires Allowed(b, times, k) && InWindow(times[k], from, length)
    ensures (CountWindow(b, times, k, from, length) + 1) as real <= b.burst + Gain(b.rate, 0.0, length)
  {
    var t, i := times[k], FirstIn(times, from);
    assert i <= k;
    WindowInCount(b, times, i, k, from, length);
    AllowedExactly(b, times, k);
    assert (Count(b, times, i, k) + 1) as real <= b.burst + Gain(b.rate, times[i], t);
    LongerGains(b.rate, times[i], t, length);
  }

  lemma {:induction false} WindowHolds(b: Bucket, times: seq<real>, k: nat, from: real, length: real)
    requires Ok(b) && b.tokens == b.burst && Mono(times) && k <= |times| && (times != [] ==> b.last <= times[0])
    requires length >= 0.0
    ensures CountWindow(b, times, k, from, length) as real <= b.burst + Gain(b.rate, 0.0, length)
    decreases k
  {
    GainGrows(b.rate, 0.0, length);
    if k > 0 {
      if Allowed(b, times, k - 1) && InWindow(times[k - 1], from, length) {
        AllowedInWindow(b, times, k - 1, from, length);
      } else {
        WindowHolds(b, times, k - 1, from, length);
      }
    }
  }

  // ---------------------------------------------------------------- the read pump

  /** A frame that does not parse, or an event; `clientId` is there when a send's payload parses. */
  datatype Frame = Garbage | Event(at: real, kind: string, clientId: Option<string>)

  const SEND := "message.send"

  predicate Uses(f: Frame, send: bool) {
    f.Event? && (f.kind == SEND) == send
  }

  datatype Limits = Limits(send: Bucket, misc: Bucket)

  function Pick(l: Limits, send: bool): Bucket {
    if send then l.send else l.misc
  }

  /** The limits of a new connection. */
  function NewLimits(now: real): Limits {
    Limits(NewBucket(0.5, 10.0, now), NewBucket(3.0, 60.0, now))
  }

  predicate Passes(l: Limits, f: Frame) {
    f.Event? && Allows(Pick(l, f.kind == SEND), f.at)
  }

  function Charge(l: Limits, f: Frame): Limits {
    if Uses(f, true) then l.(send := Spend(l.send, f.at))
    else if Uses(f, false) then l.(misc := Spend(l.misc, f.at))
    else l
  }

  function Charged(l: Limits, frames: seq<Frame>): Limits {
    if frames == [] then l else Charge(Charged(l, frames[..|frames| - 1]), frames[|frames| - 1])
  }

  /** The events that reach the handler, in order. */
  function Handled(l: Limits, frames: seq<Frame>): seq<Frame> {
    if frames == [] then []
    else
      var n := |frames| - 1;
      if Passes(Charged(l, frames[..n]), frames[n])
          then Handled(l, frames[..n]) + [frames[n]] else Handled(l, frames[..n])
  }

  /** The ids of the sends that are answered with `rate_limited`. */
  function Limited(l: Limits, frames: seq<Frame>): seq<string> {
    if frames == [] then []
    else
      var n := |frames| - 1;
      var f := frames[n];
      if Uses(f, true) && !Passes(Charged(l, frames[..n]), f) && f.clientId.Some? && f.clientId.value != ""
      then Limited(l, frames[..n]) + [f.clientId.value] else Limited(l, frames[..n])
  }

  class Limiter {
    const rate: real
    const burst: real
    var tokens: real
    var last: real

    constructor (rate: real, burst: real, now: real)
      ensures Contents() == NewBucket(rate, burst, now)
    {
      this.rate, this.burst := rate, burst;
      tokens, last := burst, now;
    }

    function Contents(): Bucket
      reads this
    {
      Bucket(rate, burst, tokens, last)
    }

    method Allow(t: real) returns (ok: bool)
      modifies this
      ensures ok == Allows(old(Contents()), t) && Contents() == Spend(old(Contents()), t)
    {
      var available := tokens + if t < last then 0.0 else rate * (t - last);
      if available > burst {
        available := burst;
      }
      ok := available >= 1.0;
      if ok {
        tokens, last := available - 1.0, t;
      }
    }
  }

  /** `ReadPump` until the read fails: what it hands to the handler, and whom it tells that they
      are rate-limited. */
  method ReadPump(sendLimiter: Limiter, miscLimiter: Limiter, frames: seq<Frame>)
    returns (handled: seq<Frame>, limited: seq<string>)
    requires sendLimiter != miscLimiter
    modifies sendLimiter, miscLimiter
    ensures var l := Limits(old(sendLimiter.Contents()), old(miscLimiter.Contents()));
      && Limits(sendLimiter.Contents(), miscLimiter.Contents()) == Charged(l, frames)
      && handled == Handled(l, frames) && limited == Limited(l, frames)
  {
    ghost var l := Limits(sendLimiter.Contents(), miscLimiter.Contents());
    handled, limited := [], [];
    for i := 0 to |frames|
      invariant Limits(sendLimiter.Contents(), miscLimiter.Contents()) == Charged(l, frames[..i])
      invariant handled == Handled(l, frames[..i]) && limited == Limited(l, frames[..i])
    {
      assert frames[..i + 1][..i] == frames[..i] && frames[..i + 1][i] == frames[i];
      match frames[i]
      case Garbage =>
      case Event(at, kind, clientId) =>
        var allow;
        if kind == SEND {
          allow := sendLimiter.Allow(at);
        } else {
          allow := miscLimiter.Allow(at);
        }
        if allow {
          handled := handled + [frames[i]];
        } else if kind == SEND && clientId.Some? && clientId.value != "" {
          limited := limited + [clientId.value];
        }
    }
    assert frames[..|frames|] == frames;
  }

  // ---------------------------------------------------------------- what the handler sees

  function Only(frames: seq<Frame>, send: bool): seq<Frame> {
    if frames == [] then []
    else
      var n := |frames| - 1;
      if Uses(frames[n], send) then Only(frames[..n], send) + [frames[n]] else Only(frames[..n], send)
  }

  lemma OnlySnoc(frames: seq<Frame>, f: Frame, send: bool)
    ensures Only(frames + [f], send) == if Uses(f, send) then Only(frames, send) + [f] else Only(frames, send)
  {
    assert (frames + [f])[..|frames|] == frames;
  }

  /** Which sends reach the handler does not depend on the other frames at all, and the other way
      round. */
  lemma {:induction false} KindsAreIndependent(l: Limits, frames: seq<Frame>, send: bool)
    ensures Only(Handled(l, frames), send) == Handled(l, Only(frames, send))
    ensures Pick(Charged(l, frames), send) == Pick(Charged(l, Only(frames, send)), send)
  {
    if frames != [] {
      var n := |frames| - 1;
      var before, f := frames[..n], frames[n];
      KindsAreIndependent(l, before, send);
      if Passes(Charged(l, before), f) {
        OnlySnoc(Handled(l, before), f, send);
      }
      if Uses(f, send) {
        var only := Only(before, send) + [f];
        assert only[..|only| - 1] == Only(before, send);
        assert Only(frames, send) == only;
        assert Passes(Charged(l, Only(before, send)), f) == Passes(Charged(l, before), f);
      }
    }
  }

  function Times(frames: seq<Frame>, send: bool): seq<real> {
    if frames == [] then []
    else
      var n := |frames| - 1;
      if Uses(frames[n], send) then Times(frames[..n], send) + [frames[n].at] else Times(frames[..n], send)
  }

  /** The frames arrive in the order of the clock. */
  predicate InOrder(frames: seq<Frame>, now: real) {
    && (forall i :: 0 <= i < |frames| && frames[i].Event? ==> now <= frames[i].at)
    && (forall i, j :: 0 <= i < j < |frames| && frames[i].Event? && frames[j].Event? ==> frames[i].at <= frames[j].at)
  }

  lemma {:induction false} TimesMono(frames: seq<Frame>, now: real, send: bool)
    requires InOrder(frames, now)
    ensures var times := Times(frames, send);
      && Mono(times) && (times != [] ==> now <= times[0])
      && forall k :: 0 <= k < |times| ==> exists i :: 0 <= i < |frames| && frames[i].Event? && frames[i].at == times[k]
  {
    if frames != [] {
      var n := |frames| - 1;
      TimesMono(frames[..n], now, send);
      var times, before := Times(frames, send), Times(frames[..n], send);
      forall k | 0 <= k < |times|
        ensures exists i ::
                  0 <= i < |frames| && frames[i].Event? && frames[i].at == times[k] && (k < |before| ==> i < n)
      {
        if k < |before| {
          var i :| 0 <= i < n && frames[..n][i].Event? && frames[..n][i].at == before[k];
          assert frames[i].at == times[k];
        } else {
          assert frames[n].at == times[k];
        }
      }
    }
  }

  /** How many events of one kind reach the handler in a window. */
  function HandledIn(l: Limits, frames: seq<Frame>, send: bool, from: real, length: real): nat {
    CountIn(Handled(l, frames), send, from, length)
  }

  function CountIn(events: seq<Frame>, send: bool, from: real, length: real): nat {
    if events == [] then 0
    else
      var n := |events| - 1;
      CountIn(events[..n], send, from, length) + if Uses(events[n], send)
          && InWindow(events[n].at, from, length) then 1 else 0
  }

  lemma {:induction false} ChargedAsTimes(l: Limits, frames: seq<Frame>, send: bool)
    ensures Pick(Charged(l, frames), send) == After(Pick(l, send), Times(frames, send))
  {
    if frames != [] {
      var n := |frames| - 1;
      ChargedAsTimes(l, frames[..n], send);
      if Uses(frames[n], send) {
        var times := Times(frames[..n], send) + [frames[n].at];
        assert times[..|times| - 1] == Times(frames[..n], send);
        assert Times(frames, send) == times;
      }
    }
  }

  lemma HandledSnoc(h: seq<Frame>, f: Frame, send: bool, from: real, length: real)
    ensures CountIn(h + [f], send, from, length)
         == CountIn(h, send, from, length) + if Uses(f, send) && InWindow(f.at, from, length) then 1 else 0
  {
    assert (h + [f])[..|h|] == h;
  }

  lemma CountSnoc(b: Bucket, times: seq<real>, t: real, from: real, length: real)
    ensures CountWindow(b, times + [t], |times| + 1, from, length)
         == CountWindow(b, times, |times|, from, length)
            + if Allows(After(b, times), t) && InWindow(t, from, length) then 1 else 0
  {
    CountPrefix(b, times, t, |times|, from, length);
    assert (times + [t])[..|times|] == times;
  }

  lemma HandledOne(l: Limits, frames: seq<Frame>, send: bool, from: real, length: real)
    requires frames != []
    ensures var before, f := frames[..|frames| - 1], frames[|frames| - 1];
      HandledIn(l, frames, send, from, length)
      == HandledIn(l, before, send, from, length)
         + if Uses(f, send) && Allows(After(Pick(l, send), Times(before, send)), f.at) && InWindow(f.at, from, length)
           then 1 else 0
  {
    var before, f := frames[..|frames| - 1], frames[|frames| - 1];
    HandledSnoc(Handled(l, before), f, send, from, length);
    ChargedAsTimes(l, before, send);
  }

  lemma {:induction false} CountAsTimes(l: Limits, frames: seq<Frame>, send: bool, from: real, length: real)
    ensures var times := Times(frames, send);
      HandledIn(l, frames, send, from, length) == CountWindow(Pick(l, send), times, |times|, from, length)
  {
    if frames != [] {
      var n := |frames| - 1;
      CountAsTimes(l, frames[..n], send, from, length);
      HandledOne(l, frames, send, from, length);
      if Uses(frames[n], send) {
        CountSnoc(Pick(l, send), Times(frames[..n], send), frames[n].at, from, length);
      }
    }
  }

  lemma {:induction false} CountPrefix(b: Bucket, times: seq<real>, t: real, k: nat, from: real, length: real)
    requires k <= |times|
    ensures CountWindow(b, times + [t], k, from, length) == CountWindow(b, times, k, from, length)
  {
    if k > 0 {
      CountPrefix(b, times, t, k - 1, from, length);
      assert (times + [t])[..k - 1] == times[..k - 1];
    }
  }

  /** In any window of length T at most 10 + T / 2 sends and 60 + 3 T other events reach the
      handler of a connection. */
  lemma RateIsLimited(now: real, frames: seq<Frame>, from: real, length: real)
    requires InOrder(frames, now) && length >= 0.0
    ensures HandledIn(NewLimits(now), frames, true, from, length) as real <= 10.0 + 0.5 * length
    ensures HandledIn(NewLimits(now), frames, false, from, length) as real <= 60.0 + 3.0 * length
  {
    var l := NewLimits(now);
    CountAsTimes(l, frames, true, from, length);
    TimesMono(frames, now, true);
    WindowHolds(l.send, Times(frames, true), |Times(frames, true)|, from, length);
    CountAsTimes(l, frames, false, from, length);
    TimesMono(frames, now, false);
    WindowHolds(l.misc, Times(frames, false), |Times(frames, false)|, from, length);
  }

  // ---------------------------------------------------------------- frame by frame

  /** Frame i of a new connection reaches the handler. */
  predicate Reaches(now: real, frames: seq<Frame>, i: nat)
    requires i < |frames|
  {
    Handled(NewLimits(now), frames[..i + 1]) == Handled(NewLimits(now), frames[..i]) + [frames[i]]
  }

  /** How many sends, or other events, of the frames i, …, k - 1 do. */
  function ReachIn(now: real, frames: seq<Frame>, send: bool, i: nat, k: nat): nat
    requires i <= k <= |frames|
  {
    if i == k then 0
    else
      ReachIn(now, frames, send, i, k - 1)
      + if Uses(frames[k - 1], send) && Reaches(now, frames, k - 1) then 1 else 0
  }

  lemma ReachesExactly(now: real, frames: seq<Frame>, i: nat)
    requires i < |frames|
    ensures Reaches(now, frames, i) <==> Passes(Charged(NewLimits(now), frames[..i]), frames[i])
  {
    var l := NewLimits(now);
    assert frames[..i + 1][..i] == frames[..i] && frames[..i + 1][i] == frames[i];
    assert Passes(Charged(l, frames[..i]), frames[i]) || Handled(l, frames[..i + 1]) == Handled(l, frames[..i]);
    assert |Handled(l, frames[..i]) + [frames[i]]| == |Handled(l, frames[..i])| + 1;
  }

  lemma TimesSnoc(frames: seq<Frame>, i: nat, send: bool)
    requires i < |frames|
    ensures Times(frames[..i + 1], send)
        == if Uses(frames[i], send) then Times(frames[..i], send) + [frames[i].at] else Times(frames[..i], send)
  {
    assert frames[..i + 1][..i] == frames[..i] && frames[..i + 1][i] == frames[i];
  }

  lemma {:induction false} TimesPrefix(frames: seq<Frame>, i: nat, send: bool)
    requires i <= |frames|
    ensures Times(frames[..i], send) <= Times(frames, send)
    decreases |frames| - i
  {
    if i < |frames| {
      TimesSnoc(frames, i, send);
      TimesPrefix(frames, i + 1, send);
    } else {
      assert frames[..i] == frames;
    }
  }

  /** A frame of the kind is one of the requests to its bucket, and passes when that is allowed. */
  lemma FrameIsRequest(now: real, frames: seq<Frame>, i: nat, send: bool)
    requires i < |frames| && Uses(frames[i], send)
    ensures var times, k := Times(frames, send), |Times(frames[..i], send)|;
      && k < |times| && times[k] == frames[i].at && times[..k] == Times(frames[..i], send)
      && (Reaches(now, frames, i) <==> Allowed(Pick(NewLimits(now), send), times, k))
  {
    TimesSnoc(frames, i, send);
    TimesPrefix(frames, i, send);
    TimesPrefix(frames, i + 1, send);
    ReachesExactly(now, frames, i);
    ChargedAsTimes(NewLimits(now), frames[..i], send);
  }

  lemma {:induction false} TimesGrow(frames: seq<Frame>, send: bool, i: nat, k: nat)
    requires i <= k <= |frames|
    ensures |Times(frames[..i], send)| <= |Times(frames[..k], send)| <= |Times(frames, send)|
    decreases k
  {
    TimesPrefix(frames, k, send);
    if i < k {
      TimesGrow(frames, send, i, k - 1);
      TimesSnoc(frames, k - 1, send);
    }
  }

  lemma CountOne(b: Bucket, times: seq<real>, a: nat, n: nat)
    requires a <= n < |times|
    ensures Count(b, times, a, n + 1) == Count(b, times, a, n) + if Allowed(b, times, n) then 1 else 0
  {
  }

  lemma ReachOne(now: real, frames: seq<Frame>, send: bool, i: nat, k: nat)
    requires i < k <= |frames|
    ensures ReachIn(now, frames, send, i, k) == ReachIn(now, frames, send, i, k - 1)
        + if Uses(frames[k - 1], send) && Reaches(now, frames, k - 1) then 1 else 0
  {
  }

  /** One more frame counts among those that reach the handler as it does among the requests. */
  lemma HitIsCounted(now: real, frames: seq<Frame>, send: bool, a: nat, k: nat)
    requires k < |frames| && a <= |Times(frames[..k], send)|
    ensures var b, times := Pick(NewLimits(now), send), Times(frames, send);
      var n, m := |Times(frames[..k], send)|, |Times(frames[..k + 1], send)|;
      && n <= m <= |times|
      && Count(b, times, a, m)
           == Count(b, times, a, n) + if Uses(frames[k], send) && Reaches(now, frames, k) then 1 else 0
  {
    TimesGrow(frames, send, k, k + 1);
    TimesSnoc(frames, k, send);
    if Uses(frames[k], send) {
      FrameIsRequest(now, frames, k, send);
      CountOne(Pick(NewLimits(now), send), Times(frames, send), a, |Times(frames[..k], send)|);
    }
  }

  lemma {:induction false} ReachIsCount(now: real, frames: seq<Frame>, send: bool, i: nat, k: nat)
    requires i <= k <= |frames|
    ensures var b, times := Pick(NewLimits(now), send), Times(frames, send);
      var a, n := |Times(frames[..i], send)|, |Times(frames[..k], send)|;
      a <= n <= |times| && ReachIn(now, frames, send, i, k) == Count(b, times, a, n)
    decreases k
  {
    TimesGrow(frames, send, i, k);
    if i < k {
      ReachIsCount(now, frames, send, i, k - 1);
      ReachOne(now, frames, send, i, k);
      HitIsCounted(now, frames, send, |Times(frames[..i], send)|, k - 1);
    }
  }

  /** Every request to a bucket is some frame of its kind. */
  lemma {:induction false} RequestIsFrame(frames: seq<Frame>, send: bool, a: nat, k: nat) returns (i: nat)
    requires k <= |frames| && a < |Times(frames[..k], send)|
    ensures i < k && Uses(frames[i], send) && |Times(frames[..i], send)| == a
    decreases k
  {
    assert frames[..0] == [];
    assert k > 0;
    TimesSnoc(frames, k - 1, send);
    if Uses(frames[k - 1], send) && a == |Times(frames[..k - 1], send)| {
      i := k - 1;
    } else {
      assert a < |Times(frames[..k - 1], send)|;
      i := RequestIsFrame(frames, send, a, k - 1);
    }
  }

  predicate WithinRate(now: real, frames: seq<Frame>, send: bool, i: nat, k: nat, burst: real, rate: real)
    requires i <= k < |frames| && Uses(frames[i], send) && Uses(frames[k], send)
  {
    (ReachIn(now, frames, send, i, k) + 1) as real <= burst + rate * (frames[k].at - frames[i].at)
  }

  lemma ReachesByRate(now: real, frames: seq<Frame>, send: bool, k: nat, burst: real, rate: real)
    requires InOrder(frames, now) && k < |frames| && Uses(frames[k], send)
    requires Pick(NewLimits(now), send) == NewBucket(rate, burst, now) && rate > 0.0 && burst >= 1.0
    ensures Reaches(now, frames, k) <==>
        forall i :: 0 <= i <= k && Uses(frames[i], send) ==> WithinRate(now, frames, send, i, k, burst, rate)
  {
    var b, times, n := Pick(NewLimits(now), send), Times(frames, send), |Times(frames[..k], send)|;
    FrameIsRequest(now, frames, k, send);
    TimesMono(frames, now, send);
    AllowedExactly(b, times, n);
    if Reaches(now, frames, k) {
      forall i | 0 <= i <= k && Uses(frames[i], send) ensures WithinRate(now, frames, send, i, k, burst, rate) {
        WindowOfFrame(now, frames, send, i, k, burst, rate);
      }
    } else {
      var a :| 0 <= a <= n && (Count(b, times, a, n) + 1) as real > b.burst + Gain(b.rate, times[a], times[n]);
      TimesSnoc(frames, k, send);
      var i := RequestIsFrame(frames, send, a, k + 1);
      WindowOfFrame(now, frames, send, i, k, burst, rate);
    }
  }

  lemma WindowOfFrame(now: real, frames: seq<Frame>, send: bool, i: nat, k: nat, burst: real, rate: real)
    requires i <= k < |frames| && Uses(frames[i], send) && Uses(frames[k], send)
    requires Pick(NewLimits(now), send) == NewBucket(rate, burst, now)
    ensures var b, times := Pick(NewLimits(now), send), Times(frames, send);
      var a, n := |Times(frames[..i], send)|, |Times(frames[..k], send)|;
      && a <= n < |times|
      && (WithinRate(now, frames, send, i, k, burst, rate) <==>
            (Count(b, times, a, n) + 1) as real <= b.burst + Gain(b.rate, times[a], times[n]))
  {
    FrameIsRequest(now, frames, i, send);
    FrameIsRequest(now, frames, k, send);
    ReachIsCount(now, frames, send, i, k);
  }

  /** On a new connection a send reaches the handler exactly when, for it and every send before it,
      the sends that did from there on are no more, with this one, than 10 and one for every two
      seconds since; another event exactly when they are no more than 60 and three per second. */
  lemma ReachesWithinRate(now: real, frames: seq<Frame>, k: nat)
    requires InOrder(frames, now) && k < |frames|
    ensures Uses(frames[k], true) ==>
        (Reaches(now, frames, k) <==>
           forall i :: 0 <= i <= k && Uses(frames[i], true) ==> WithinRate(now, frames, true, i, k, 10.0, 0.5))
    ensures Uses(frames[k], false) ==>
        (Reaches(now, frames, k) <==>
           forall i :: 0 <= i <= k && Uses(frames[i], false) ==> WithinRate(now, frames, false, i, k, 60.0, 3.0))
    ensures frames[k].Garbage? ==> !Reaches(now, frames, k)
  {
    if Uses(frames[k], true) {
      ReachesByRate(now, frames, true, k, 10.0, 0.5);
    } else if Uses(frames[k], false) {
      ReachesByRate(now, frames, false, k, 60.0, 3.0);
    } else {
      ReachesExactly(now, frames, k);
    }
  }

  lemma {:induction false} ReachAtMost(now: real, frames: seq<Frame>, send: bool, i: nat, k: nat)
    requires i <= k <= |frames|
    ensures ReachIn(now, frames, send, i, k) + |Times(frames[..i], send)| <= |Times(frames[..k], send)|
    decreases k
  {
    if i < k {
      ReachAtMost(now, frames, send, i, k - 1);
      TimesSnoc(frames, k - 1, send);
    }
  }

  /** The first ten sends and the first sixty other events are never refused. */
  lemma BurstPasses(now: real, frames: seq<Frame>, k: nat)
    requires InOrder(frames, now) && k < |frames| && frames[k].Event?
    requires |Times(frames[..k], frames[k].kind == SEND)| < if frames[k].kind == SEND then 10 else 60
    ensures Reaches(now, frames, k)
  {
    var send := frames[k].kind == SEND;
    var burst, rate := if send then 10.0 else 60.0, if send then 0.5 else 3.0;
    forall i | 0 <= i <= k && Uses(frames[i], send) ensures WithinRate(now, frames, send, i, k, burst, rate) {
      ReachAtMost(now, frames, send, i, k);
      GainGrowsWeakly(rate, frames[i].at, frames[k].at);
    }
    ReachesByRate(now, frames, send, k, burst, rate);
  }

  lemma GainGrowsWeakly(rate: real, a: real, b: real)
    requires rate > 0.0 && a <= b
    ensures rate * (b - a) >= 0.0
  {
  }

  // ---------------------------------------------------------------- every send is answered

  /** How many of the frames are sends with this client id. */
  function SendsOf(frames: seq<Frame>, id: string): nat {
    if frames == [] then 0
    else
      var n := |frames| - 1;
      SendsOf(frames[..n], id)
      + if frames[n].Event? && frames[n].kind == "message.send" && frames[n].clientId == Some(id) then 1 else 0
  }

  lemma SendsOfSnoc(frames: seq<Frame>, f: Frame, id: string)
    ensures SendsOf(frames + [f], id) == SendsOf(frames, id)
        + if f.Event? && f.kind == "message.send" && f.clientId == Some(id) then 1 else 0
  {
    assert (frames + [f])[..|frames|] == frames;
  }

  /** Every send with a client id is either handed to the handler or answered with `rate_limited`
      under that id, and nothing else is answered so. */
  lemma {:induction false} SendsAreAnswered(l: Limits, frames: seq<Frame>, id: string)
    ensures id != "" ==> SendsOf(frames, id) == SendsOf(Handled(l, frames), id) + multiset(Limited(l, frames))[id]
    ensures id == "" ==> id !in Limited(l, frames)
  {
    if frames != [] {
      var n := |frames| - 1;
      SendsAreAnswered(l, frames[..n], id);
      SendsOfSnoc(Handled(l, frames[..n]), frames[n], id);
    }
  }
}
