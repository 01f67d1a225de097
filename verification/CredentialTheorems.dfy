/** What interleaved refreshes and registrations can and cannot do. */
module CredentialTheorems {
  import opened Credentials

  lemma CallHolds(s: State, x: Call)
    requires Reachable(s) && x in s.calls
    ensures CallOk(s, x)
  {
    ReachableHolds(s);
  }

  // ---------------------------------------------------------------- how a call ends

  /** The run takes `labels` in turn, through `states`. */
  ghost predicate Takes(labels: seq<Label>, states: seq<State>, k: nat)
    requires k < |labels| && k + 1 < |states|
  {
    Enabled(states[k], labels[k]) && states[k + 1] == Apply(states[k], labels[k])
  }

  ghost predicate IsRunBy(from: State, labels: seq<Label>, states: seq<State>, to: State) {
    && |states| == |labels| + 1 && states[0] == from && states[|labels|] == to
    && forall k: nat :: k < |labels| ==> Takes(labels, states, k)
  }

  lemma RunByPrefix(from: State, labels: seq<Label>, states: seq<State>, to: State)
    requires IsRunBy(from, labels, states, to) && |labels| > 0
    ensures var n := |labels| - 1;
      && IsRunBy(from, labels[..n], states[..n + 1], states[n])
      && Enabled(states[n], labels[n]) && to == Apply(states[n], labels[n])
  {
    var n := |labels| - 1;
    assert Takes(labels, states, n);
    var first, before := labels[..n], states[..n + 1];
    forall k: nat | k < |first| ensures Takes(first, before, k) {
      assert Takes(labels, states, k);
    }
  }

  lemma {:induction false} RunByHolds(db: Tables, labels: seq<Label>, states: seq<State>, s: State)
    requires TablesOk(db) && IsRunBy(Init(db), labels, states, s)
    ensures Invariant(s)
    decreases |labels|
  {
    if labels == [] {
      InitHolds(db);
    } else {
      var n := |labels| - 1;
      RunByPrefix(Init(db), labels, states, s);
      RunByHolds(db, labels[..n], states[..n + 1], states[n]);
      StepKeeps(states[n], labels[n]);
    }
  }

  /** The run has taken step k, by which call i inserts a user of this name, and the tables then
      showed one. */
  predicate MetNameAt(labels: seq<Label>, states: seq<State>, i: nat, name: string, k: nat) {
    && k < |labels| && k < |states| && labels[k] == CreateUser(i)
    && exists u :: u in states[k].db.users && states[k].db.users[u].name == name
  }

  ghost predicate MetName(labels: seq<Label>, states: seq<State>, i: nat, name: string) {
    exists k: nat :: MetNameAt(labels, states, i, name, k)
  }

  /** Call i failed by a fault at step k, and with which error. */
  predicate FailedBy(labels: seq<Label>, states: seq<State>, x: Call, i: nat, k: nat) {
    k < |labels| && k < |states| && labels[k] == Fault(i) ==>
      && i < |states[k].calls|
      && var before := states[k].calls[i].stage;
      x.stage == Failed(if x.request.Refresh? then QueryFailed
                        else if before == Begun then InviteInvalid
                        else if before.Open? then UsernameTaken
                        else QueryFailed)
  }

  /** Why a call has failed. */
  ghost predicate EndOk(labels: seq<Label>, states: seq<State>, s: State, i: nat) {
    if i >= |s.calls| then CreateUser(i) !in labels && Fault(i) !in labels
    else
      var x := s.calls[i];
      && (x.stage == Failed(QueryFailed) ==> Fault(i) in labels)
      && (x.stage.Failed? ==> Fault(i) in labels || x.readAt.Some?)
      && (x.request.Register? ==>
            && (x.stage == Failed(UsernameTaken) && Fault(i) !in labels ==> MetName(labels, states, i, x.request.name))
            && (MetName(labels, states, i, x.request.name) ==> x.stage == Failed(UsernameTaken)))
      && forall k: nat :: FailedBy(labels, states, x, i, k)
  }

  lemma MetNameGrows(labels: seq<Label>, states: seq<State>, l: Label, t: State, i: nat, name: string)
    requires |states| == |labels| + 1
    ensures var more, longer := labels + [l], states + [t];
      MetName(more, longer, i, name) <==> MetName(labels, states, i, name) || MetNameAt(more, longer, i, name, |labels|)
  {
    var more, longer := labels + [l], states + [t];
    if k: nat :| MetNameAt(labels, states, i, name, k) {
      assert more[k] == labels[k] && longer[k] == states[k];
      assert MetNameAt(more, longer, i, name, k);
    }
    if k: nat :| MetNameAt(more, longer, i, name, k) {
      assert k < |labels| ==> MetNameAt(labels, states, i, name, k);
    }
  }

  /** A step leaves the calls of others alone. */
  lemma OtherCalls(s: State, l: Label, i: nat)
    requires Enabled(s, l) && i < |s.calls|
    ensures i < |Apply(s, l).calls| && Apply(s, l).calls[i].request == s.calls[i].request
    ensures !OfCall(l) || l.call != i ==> Apply(s, l).calls[i] == s.calls[i]
    ensures OfCall(l) ==> l.call < |s.calls|
    ensures OfCall(l) && l.call == i ==> Apply(s, l).calls[i] == Move(s, l)
  {
  }

  /** How the call that takes a step may end by it. */
  lemma OwnStep(s: State, l: Label)
    requires Invariant(s) && Enabled(s, l) && OfCall(l)
    ensures var x, y := s.calls[l.call], Move(s, l);
      && !Finished(x)
      && (y.stage == Failed(QueryFailed) ==> l.Fault?)
      && (y.stage.Failed? ==> l.Fault? || y.readAt.Some?)
      && (y.stage == Failed(UsernameTaken) ==> l.Fault? || l.CreateUser?)
      && (l.CreateUser? ==>
            && x.request.Register?
            && (y.stage == Failed(UsernameTaken) <==>
                  exists u :: u in s.db.users && s.db.users[u].name == x.request.name))
  {
    assert CallOk(s, s.calls[l.call]);
    if l.GetUser? {
      assert TokensOk(s) && MintedOk(s, s.calls[l.call].request.token);
    }
  }

  lemma FaultStep(s: State, l: Label)
    requires Invariant(s) && Enabled(s, l) && l.Fault?
    ensures var x := s.calls[l.call];
      Move(s, l).stage == Failed(if x.request.Refresh? then QueryFailed
                                 else if x.stage == Begun then InviteInvalid
                                 else if x.stage.Open? then UsernameTaken
                                 else QueryFailed)
  {
    assert CallOk(s, s.calls[l.call]);
  }

  lemma EndOfNewCall(labels: seq<Label>, states: seq<State>, s: State, t: State, l: Label, i: nat)
    requires Invariant(s) && EndOk(labels, states, s, i) && Enabled(s, l) && t == Apply(s, l)
    requires |states| == |labels| + 1 && i >= |s.calls|
    ensures EndOk(labels + [l], states + [t], t, i)
  {
  }

  lemma EndOfOtherCall(labels: seq<Label>, states: seq<State>, s: State, t: State, l: Label, i: nat)
    requires EndOk(labels, states, s, i) && Enabled(s, l) && t == Apply(s, l)
    requires |states| == |labels| + 1 && i < |s.calls| && (!OfCall(l) || l.call != i)
    ensures EndOk(labels + [l], states + [t], t, i)
  {
    OtherCalls(s, l, i);
    var more, longer := labels + [l], states + [t];
    if s.calls[i].request.Register? {
      MetNameGrows(labels, states, l, t, i, s.calls[i].request.name);
    }
    forall k: nat ensures FailedBy(more, longer, t.calls[i], i, k) {
      assert FailedBy(labels, states, s.calls[i], i, k);
    }
  }

  lemma EndOfOwnCall(labels: seq<Label>, states: seq<State>, s: State, t: State, l: Label)
    requires Invariant(s) && OfCall(l) && Enabled(s, l) && EndOk(labels, states, s, l.call) && t == Apply(s, l)
    requires |states| == |labels| + 1 && states[|labels|] == s
    ensures EndOk(labels + [l], states + [t], t, l.call)
  {
    var i, x := l.call, s.calls[l.call];
    OwnStep(s, l);
    OtherCalls(s, l, i);
    var more, longer := labels + [l], states + [t];
    if x.request.Register? {
      MetNameGrows(labels, states, l, t, i, x.request.name);
    }
    assert more[|labels|] == l && longer[|labels|] == s;
    if l.Fault? {
      FaultStep(s, l);
    }
    forall k: nat ensures FailedBy(more, longer, t.calls[i], i, k) {
      assert FailedBy(labels, states, x, i, k);
    }
  }

  lemma {:induction false} EndsHold(db: Tables, labels: seq<Label>, states: seq<State>, s: State, i: nat)
    requires TablesOk(db) && IsRunBy(Init(db), labels, states, s)
    ensures EndOk(labels, states, s, i)
    decreases |labels|
  {
    if labels != [] {
      var n := |labels| - 1;
      RunByPrefix(Init(db), labels, states, s);
      RunByHolds(db, labels[..n], states[..n + 1], states[n]);
      EndsHold(db, labels[..n], states[..n + 1], states[n], i);
      assert labels == labels[..n] + [labels[n]] && states == states[..n + 1] + [s];
      if i >= |states[n].calls| {
        EndOfNewCall(labels[..n], states[..n + 1], states[n], s, labels[n], i);
      } else if OfCall(labels[n]) && labels[n].call == i {
        EndOfOwnCall(labels[..n], states[..n + 1], states[n], s, labels[n]);
      } else {
        EndOfOtherCall(labels[..n], states[..n + 1], states[n], s, labels[n], i);
      }
    }
  }

  /** A refresh that no fault met succeeds exactly when it read the token before anyone deleted it
      (and after it was minted, and before it expired), and is refused as invalid otherwise; one
      that a fault met fails as such. The new token and the access token are its owner's. */
  lemma RefreshOutcome(db: Tables, labels: seq<Label>, states: seq<State>, s: State, i: nat)
    requires TablesOk(db) && IsRunBy(Init(db), labels, states, s)
    requires i < |s.calls| && s.calls[i].request.Refresh?
    ensures var x := s.calls[i];
      && (Fault(i) in labels ==> x.stage == Failed(QueryFailed))
      && (Fault(i) !in labels && Finished(x) ==>
            && (x.stage.Done? <==> TokenGood(s, x))
            && (x.stage == Failed(InvalidRefreshToken) <==> !TokenGood(s, x)))
      && (x.stage.Done? ==>
            && s.minted[x.request.token].gone.Some?
            && x.stage.token in s.minted
            && s.minted[x.stage.token].token.owner == s.minted[x.request.token].token.owner == x.stage.user
            && x.stage.user in s.db.users && s.db.users[x.stage.user].admin == x.stage.admin)
  {
    RunByHolds(db, labels, states, s);
    EndsHold(db, labels, states, s, i);
    assert CallOk(s, s.calls[i]);
    RefreshEnds(s, s.calls[i]);
    if k :| 0 <= k < |labels| && labels[k] == Fault(i) {
      assert FailedBy(labels, states, s.calls[i], i, k);
    }
  }

  lemma RefreshEnds(s: State, x: Call)
    requires CallOk(s, x) && x.request.Refresh?
    ensures x.stage.Done? ==> TokenGood(s, x)
    ensures x.stage.Failed? && x.stage != Failed(QueryFailed) ==>
              x.stage == Failed(InvalidRefreshToken) && !TokenGood(s, x)
  {
  }

  /** A registration that no fault met is refused as invalid exactly when it did not read its
      invite before anyone committed on it or deleted it (and after it was created, and before it
      expired); otherwise its name is refused exactly when a user of that name was visible when it
      inserted; otherwise it succeeds. It makes an admin exactly when it counted the users before
      the first one was committed. A fault fails it with an error that depends on how far it was. */
  lemma RegisterOutcome(db: Tables, labels: seq<Label>, states: seq<State>, s: State, i: nat)
    requires TablesOk(db) && IsRunBy(Init(db), labels, states, s)
    requires i < |s.calls| && s.calls[i].request.Register?
    ensures var x := s.calls[i];
      && (Fault(i) in labels ==> x.stage.Failed? && forall k: nat :: FailedBy(labels, states, x, i, k))
      && (Fault(i) !in labels && Finished(x) ==>
            && (x.stage == Failed(InviteInvalid) <==> !InviteGood(s, x))
            && (x.stage == Failed(UsernameTaken) <==>
                  InviteGood(s, x) && MetName(labels, states, i, x.request.name))
            && (x.stage.Done? <==> InviteGood(s, x) && !MetName(labels, states, i, x.request.name)))
      && (x.stage.Done? || x.stage == Failed(UsernameTaken) ==> InviteGood(s, x))
      && (x.stage.Done? ==>
            && x.stage.user in s.db.users
            && s.db.users[x.stage.user] == User(x.request.name, CountedNone(s, x))
            && x.stage.admin == CountedNone(s, x)
            && s.codes[x.request.code].used.Some?)
  {
    RunByHolds(db, labels, states, s);
    EndsHold(db, labels, states, s, i);
    assert CallOk(s, s.calls[i]);
    RegisterEnds(s, s.calls[i]);
    if k :| 0 <= k < |labels| && labels[k] == Fault(i) {
      assert FailedBy(labels, states, s.calls[i], i, k);
    }
  }

  lemma RegisterEnds(s: State, x: Call)
    requires CallOk(s, x) && x.request.Register?
    ensures x.stage.Done? || x.stage == Failed(UsernameTaken) ==> InviteGood(s, x)
    ensures x.stage == Failed(InviteInvalid) && x.readAt.Some? ==> !InviteGood(s, x)
    ensures x.stage.Failed? ==> x.stage.error != InvalidRefreshToken
    ensures x.stage.Done? ==> Passed(s, x, x.stage.user, x.stage.admin)
  {
  }

  /** Usernames are unique however registrations interleave, and no token outlives or precedes
      its owner. */
  lemma AccountsConsistent(s: State)
    requires Reachable(s)
    ensures TablesOk(s.db)
  {
    ReachableHolds(s);
    forall t | t in s.db.tokens ensures s.db.tokens[t].owner in s.db.users {
      assert MintedOk(s, t);
    }
  }

  // ---------------------------------------------------------------- calls that start too late

  /** What has happened to a token, an invite or the first user is not undone, and a call that is
      not there yet begins later. */
  ghost predicate Follows(s: State, t: State) {
    && s.clock <= t.clock && |s.calls| <= |t.calls|
    && (forall k :: k in s.minted && s.minted[k].gone.Some? ==> k in t.minted && t.minted[k].gone == s.minted[k].gone)
    && (forall k :: k in s.codes && s.codes[k].used.Some? ==> k in t.codes && t.codes[k].used == s.codes[k].used)
    && (s.firstUser.Some? ==> t.firstUser == s.firstUser)
    && (forall i :: |s.calls| <= i < |t.calls| ==> t.calls[i].began >= s.clock)
  }

  lemma StepFollows(s: State, t: State, l: Label)
    requires Follows(s, t) && Enabled(t, l) && Later(t, Apply(t, l))
    ensures Follows(s, Apply(t, l))
  {
    var u := Apply(t, l);
    forall i | |s.calls| <= i < |u.calls| ensures u.calls[i].began >= s.clock {
      assert i < |t.calls| ==> t.calls[i].began >= s.clock;
    }
  }

  lemma {:induction false} RunFollows(from: State, states: seq<State>, to: State)
    requires Invariant(from) && IsRun(from, states, to)
    ensures Follows(from, to) && Invariant(to)
    decreases |states|
  {
    if |states| > 1 {
      var n := |states| - 2;
      RunPrefix(from, states, to);
      RunFollows(from, states[..n + 1], states[n]);
      assert StepsAt(states, n);
      var l :| Enabled(states[n], l) && Apply(states[n], l) == to;
      StepKeepsTables(states[n], l);
      StepFollows(from, states[n], l);
      StepKeeps(states[n], l);
    }
  }

  lemma LateCall(s: State, t: State, i: nat)
    requires Reachable(s) && Leads(s, t) && |s.calls| <= i < |t.calls|
    ensures Follows(s, t) && CallOk(t, t.calls[i]) && t.calls[i].began >= s.clock
    ensures TokensOk(s) && InvitesOk(s) && UsersOk(s)
  {
    ReachableHolds(s);
    var states :| IsRun(s, states, t);
    RunFollows(s, states, t);
  }

  lemma LateRefresh(s: State, t: State, x: Call)
    requires TokensOk(s) && Follows(s, t) && CallOk(t, x) && x.began >= s.clock
    requires x.request.Refresh? && x.request.token in s.minted && s.minted[x.request.token].gone.Some?
    ensures x.stage == Begun || x.stage.Failed?
  {
    assert MintedOk(s, x.request.token);
    assert !TokenGood(t, x);
  }

  lemma LateRegister(s: State, t: State, x: Call)
    requires InvitesOk(s) && Follows(s, t) && CallOk(t, x) && x.began >= s.clock
    requires x.request.Register? && x.request.code in s.codes && s.codes[x.request.code].used.Some?
    ensures x.stage == Begun || x.stage.Failed?
  {
    assert InviteOk(s, x.request.code);
    assert !InviteGood(t, x);
  }

  /** Once a token has been deleted, no refresh that starts afterwards gets anything for it. */
  lemma SpentTokensStaySpent(s: State, t: State, i: nat)
    requires Reachable(s) && Leads(s, t) && |s.calls| <= i < |t.calls| && t.calls[i].request.Refresh?
    requires t.calls[i].request.token in s.minted && s.minted[t.calls[i].request.token].gone.Some?
    ensures t.calls[i].stage == Begun || t.calls[i].stage.Failed?
  {
    LateCall(s, t, i);
    LateRefresh(s, t, t.calls[i]);
  }

  /** Once a registration on an invite has committed, none that starts afterwards gets past
      reading it. */
  lemma UsedInvitesStayUsed(s: State, t: State, i: nat)
    requires Reachable(s) && Leads(s, t) && |s.calls| <= i < |t.calls| && t.calls[i].request.Register?
    requires t.calls[i].request.code in s.codes && s.codes[t.calls[i].request.code].used.Some?
    ensures t.calls[i].stage == Begun || t.calls[i].stage.Failed?
  {
    LateCall(s, t, i);
    LateRegister(s, t, t.calls[i]);
  }

  /** Once there is a user, no registration that starts afterwards makes an admin. */
  lemma LaterUsersAreNoAdmins(s: State, t: State, i: nat)
    requires Reachable(s) && Leads(s, t) && |s.calls| <= i < |t.calls| && t.calls[i].request.Register?
    requires s.db.users != map[]
    ensures t.calls[i].stage.Done? ==> !t.calls[i].stage.admin
  {
    LateCall(s, t, i);
    if t.calls[i].stage.Done? {
      RegisterEnds(t, t.calls[i]);
      assert !CountedNone(t, t.calls[i]);
    }
  }

  // ---------------------------------------------------------------- no deadlock

  /** Call i can make its next query now: not fail, make it. */
  ghost predicate CanGoOn(s: State, i: nat) {
    exists l :: OfCall(l) && !l.Fault? && l.call == i && Enabled(s, l)
  }

  /** Call i's next statement has to wait for the transaction of call j. */
  predicate WaitsFor(s: State, i: nat, j: nat) {
    && i < |s.calls| && j < |s.calls| && i != j && s.calls[i].request.Register? && InTransaction(s.calls[j])
    && ((s.calls[i].stage.Open? && s.calls[j].request.name == s.calls[i].request.name)
        || (s.calls[i].stage.Inserted? && s.calls[j].stage.Marked?
            && s.calls[j].request.code == s.calls[i].request.code))
  }

  lemma OwnNext(s: State, i: nat, raw: string) returns (l: Label)
    requires i < |s.calls| && CallOk(s, s.calls[i]) && !Finished(s.calls[i]) && raw !in s.minted
    requires forall j :: !WaitsFor(s, i, j)
    ensures OfCall(l) && !l.Fault? && l.call == i && Enabled(s, l)
  {
    var x := s.calls[i];
    l := match x.stage
      case Begun => if x.request.Refresh? then GetToken(i, 0) else GetInvite(i, 0)
      case Found(_) => DeleteToken(i)
      case Spent(_) => GetUser(i)
      case Invited => Label.CountUsers(i)
      case Counted(_) => BeginTx(i)
      case Open(_) => CreateUser(i)
      case Inserted(_, _) => MarkUsed(i)
      case Marked(_, _) => Commit(i)
      case _ => CreateToken(i, raw, 0);
    if l.CreateUser? && NameHeld(s, i, x.request.name) {
      var j :| 0 <= j < |s.calls| && j != i && InTransaction(s.calls[j]) && s.calls[j].request.name == x.request.name;
      assert WaitsFor(s, i, j);
    }
    if l.MarkUsed? && CodeHeld(s, i, x.request.code) {
      var j :| 0 <= j < |s.calls| && j != i && InTransaction(s.calls[j]) && s.calls[j].stage.Marked?
        && s.calls[j].request.code == x.request.code;
      assert WaitsFor(s, i, j);
    }
  }

  /** A call that waits for another can do nothing else. */
  lemma WaitingBlocks(s: State, i: nat, j: nat)
    requires WaitsFor(s, i, j)
    ensures !CanGoOn(s, i)
  {
    assert s.calls[i].stage.Open? ==> NameHeld(s, i, s.calls[i].request.name);
    assert s.calls[i].stage.Inserted? ==> CodeHeld(s, i, s.calls[i].request.code);
  }

  /** A call under way is blocked exactly when it waits for another one's transaction. */
  lemma BlockedExactly(s: State, i: nat, raw: string)
    requires Reachable(s) && i < |s.calls| && !Finished(s.calls[i]) && raw !in s.minted
    ensures CanGoOn(s, i) <==> forall j :: !WaitsFor(s, i, j)
  {
    CallHolds(s, s.calls[i]);
    if j :| WaitsFor(s, i, j) {
      WaitingBlocks(s, i, j);
    } else {
      var l := OwnNext(s, i, raw);
    }
  }

  /** How many calls one after the other call i waits through. */
  function Depth(x: Call): nat {
    if x.stage.Open? then 2 else if x.stage.Inserted? then 1 else 0
  }

  /** Registrations wait for each other's names and invite rows, but never in a circle: whoever is
      waited for is nearer its commit. */
  lemma WaitingDescends(s: State, i: nat, j: nat)
    requires WaitsFor(s, i, j)
    ensures Depth(s.calls[j]) < Depth(s.calls[i]) <= 2
  {
  }

  /** Call j is where a chain of waiting calls that begins at call i ends. */
  ghost predicate WaitsThrough(s: State, i: nat, j: nat, steps: nat)
    decreases steps
  {
    if steps == 0 then i == j else exists k :: WaitsFor(s, i, k) && WaitsThrough(s, k, j, steps - 1)
  }

  /** So from every call under way, following those it waits for, after at most two of them one
      comes to a call that can go on. */
  lemma {:induction false} NoDeadlock(s: State, i: nat, raw: string) returns (j: nat, steps: nat)
    requires Reachable(s) && i < |s.calls| && !Finished(s.calls[i]) && raw !in s.minted
    ensures steps <= Depth(s.calls[i]) <= 2 && WaitsThrough(s, i, j, steps) && CanGoOn(s, j)
    decreases Depth(s.calls[i])
  {
    if k :| WaitsFor(s, i, k) {
      WaitingDescends(s, i, k);
      j, steps := NoDeadlock(s, k, raw);
      assert WaitsThrough(s, k, j, steps);
      steps := steps + 1;
    } else {
      BlockedExactly(s, i, raw);
      j, steps := i, 0;
    }
  }

  // ---------------------------------------------------------------- the races that remain

  /** One more step of a run. */
  lemma Go(from: State, s: State, l: Label) returns (t: State)
    requires Leads(from, s) && Enabled(s, l)
    ensures t == Apply(s, l) && Leads(from, t)
  {
    var states :| IsRun(from, states, s);
    t := Apply(s, l);
    var longer := states + [t];
    forall i: nat | i + 1 < |longer| ensures StepsAt(longer, i) {
      if i + 1 < |states| {
        assert StepsAt(states, i);
      }
    }
    assert IsRun(from, longer, t);
  }

  lemma Stay(s: State)
    ensures Leads(s, s)
  {
    assert IsRun(s, [s], s);
  }

  lemma BothIssue(from: State, s: State, now: int, first: string, second: string) returns (u: State)
    requires Leads(from, s) && |s.calls| == 2 && s.calls[0].stage.Issuing? && s.calls[1].stage.Issuing?
    requires first !in s.minted.Keys && second !in s.minted.Keys && first != second
    ensures Leads(from, u) && |u.calls| == 2 && first in u.db.tokens && second in u.db.tokens
    ensures u.calls[0].request == s.calls[0].request && u.calls[1].request == s.calls[1].request
    ensures u.calls[0].stage == Done(first, s.calls[0].stage.user, s.calls[0].stage.admin)
    ensures u.calls[1].stage == Done(second, s.calls[1].stage.user, s.calls[1].stage.admin)
  {
    u := Go(from, s, CreateToken(0, first, now));
    u := Go(from, u, CreateToken(1, second, now));
  }

  predicate TwoRefreshes(s: State, t: string, x: Stage, y: Stage) {
    && |s.calls| == 2 && s.calls[0].request == s.calls[1].request == Refresh(t)
    && s.calls[0].stage == x && s.calls[1].stage == y
  }

  lemma BothRead(from: State, s: State, t: string, now: int) returns (u: State)
    requires Leads(from, s) && s.calls == [] && t in s.db.tokens && now <= s.db.tokens[t].expiresAt
    ensures Leads(from, u) && u.db == s.db && u.minted == s.minted
    ensures TwoRefreshes(u, t, Found(s.db.tokens[t].owner), Found(s.db.tokens[t].owner))
  {
    u := Go(from, s, Begin(Refresh(t)));
    u := Go(from, u, Begin(Refresh(t)));
    u := Go(from, u, GetToken(0, now));
    u := Go(from, u, GetToken(1, now));
  }

  lemma BothSpend(from: State, s: State, t: string, owner: nat) returns (u: State)
    requires Leads(from, s) && TwoRefreshes(s, t, Found(owner), Found(owner)) && owner in s.db.users
    ensures Leads(from, u) && u.minted.Keys == s.minted.Keys
    ensures TwoRefreshes(u, t, Issuing(owner, s.db.users[owner].admin), Issuing(owner, s.db.users[owner].admin))
  {
    u := Go(from, s, DeleteToken(0));
    u := Go(from, u, DeleteToken(1));
    assert u.db.users == s.db.users && u.minted.Keys == s.minted.Keys;
    u := Go(from, u, GetUser(0));
    u := Go(from, u, GetUser(1));
  }

  lemma RefreshRace(s: State, t: string, now: int, first: string, second: string) returns (u: State)
    requires s.calls == [] && t in s.db.tokens && now <= s.db.tokens[t].expiresAt && s.db.tokens[t].owner in s.db.users
    requires first !in s.minted.Keys && second !in s.minted.Keys && first != second
    ensures Leads(s, u) && |u.calls| == 2
    ensures forall i :: 0 <= i < 2 ==>
              u.calls[i].request == Refresh(t) && u.calls[i].stage.Done? && u.calls[i].stage.token in u.db.tokens
  {
    Stay(s);
    u := BothRead(s, s, t, now);
    u := BothSpend(s, u, t, s.db.tokens[t].owner);
    u := BothIssue(s, u, now, first, second);
  }

  /** A token is not one-shot when two refreshes overlap: from any tables, two that both read a
      valid token before either deletes it can both succeed. */
  lemma BothRefreshesSucceed(db: Tables, t: string, now: int, first: string, second: string) returns (s: State)
    requires TablesOk(db) && t in db.tokens && now <= db.tokens[t].expiresAt
    requires first !in db.tokens && second !in db.tokens && first != second
    ensures Reachable(s) && |s.calls| == 2
    ensures forall i :: 0 <= i < 2 ==>
              s.calls[i].request == Refresh(t) && s.calls[i].stage.Done? && s.calls[i].stage.token in s.db.tokens
  {
    s := RefreshRace(Init(db), t, now, first, second);
  }

  predicate TwoRegistrations(s: State, code: string, name: string, name': string, x: Stage, y: Stage) {
    && |s.calls| == 2 && s.calls[0].request == Register(code, name) && s.calls[1].request == Register(code, name')
    && s.calls[0].stage == x && s.calls[1].stage == y
  }

  lemma BothInvited(from: State, s: State, code: string, now: int, name: string, name': string) returns (u: State)
    requires Leads(from, s) && s.calls == []
    requires code in s.db.invites && s.db.invites[code].usedBy.None? && now <= s.db.invites[code].expiresAt
    ensures Leads(from, u) && u.db == s.db && u.minted == s.minted
    ensures TwoRegistrations(u, code, name, name', Invited, Invited)
  {
    u := Go(from, s, Begin(Register(code, name)));
    u := Go(from, u, Begin(Register(code, name')));
    u := Go(from, u, GetInvite(0, now));
    u := Go(from, u, GetInvite(1, now));
  }

  lemma BothOpen(from: State, s: State, code: string, name: string, name': string) returns (u: State)
    requires Leads(from, s) && TwoRegistrations(s, code, name, name', Invited, Invited)
    ensures Leads(from, u) && u.db == s.db && u.minted == s.minted
    ensures TwoRegistrations(u, code, name, name', Open(s.db.users == map[]), Open(s.db.users == map[]))
  {
    u := Go(from, s, Label.CountUsers(0));
    u := Go(from, u, Label.CountUsers(1));
    u := Go(from, u, BeginTx(0));
    u := Go(from, u, BeginTx(1));
  }

  lemma BothInsert(from: State, s: State, code: string, name: string, name': string, admin: bool) returns (u: State)
    requires Leads(from, s) && TwoRegistrations(s, code, name, name', Open(admin), Open(admin))
    requires name != name' && !NameTaken(s.db.users, name) && !NameTaken(s.db.users, name')
    ensures Leads(from, u) && u.minted == s.minted
    ensures exists id, id' :: TwoRegistrations(u, code, name, name', Inserted(id, admin), Inserted(id', admin))
  {
    u := Go(from, s, CreateUser(0));
    assert TwoRegistrations(u, code, name, name', Inserted(s.db.nextUser, admin), Open(admin));
    u := Go(from, u, CreateUser(1));
    assert TwoRegistrations(u, code, name, name', Inserted(s.db.nextUser, admin), Inserted(s.db.nextUser + 1, admin));
  }

  lemma FirstCommits(from: State, s: State, code: string, name: string, name': string, id: nat, id': nat, admin: bool)
    returns (u: State)
    requires Leads(from, s) && TwoRegistrations(s, code, name, name', Inserted(id, admin), Inserted(id', admin))
    ensures Leads(from, u) && u.minted == s.minted
    ensures TwoRegistrations(u, code, name, name', Issuing(id, admin), Inserted(id', admin))
  {
    u := Go(from, s, MarkUsed(0));
    u := Go(from, u, Commit(0));
  }

  lemma BothCommit(from: State, s: State, code: string, name: string, name': string, id: nat, id': nat, admin: bool)
    returns (u: State)
    requires Leads(from, s) && TwoRegistrations(s, code, name, name', Inserted(id, admin), Inserted(id', admin))
    ensures Leads(from, u) && u.minted == s.minted
    ensures TwoRegistrations(u, code, name, name', Issuing(id, admin), Issuing(id', admin))
  {
    u := FirstCommits(from, s, code, name, name', id, id', admin);
    u := Go(from, u, MarkUsed(1));
    u := Go(from, u, Commit(1));
  }

  lemma RegisterRace(s: State, code: string, now: int, name: string, name': string, first: string, second: string)
    returns (u: State)
    requires s.calls == [] && code in s.db.invites && s.db.invites[code].usedBy.None?
        && now <= s.db.invites[code].expiresAt
    requires name != name' && !NameTaken(s.db.users, name) && !NameTaken(s.db.users, name')
    requires first !in s.minted.Keys && second !in s.minted.Keys && first != second
    ensures Leads(s, u) && |u.calls| == 2
    ensures u.calls[0].request == Register(code, name) && u.calls[1].request == Register(code, name')
    ensures forall i :: 0 <= i < 2 ==> u.calls[i].stage.Done? && (u.calls[i].stage.admin <==> s.db.users == map[])
  {
    Stay(s);
    u := BothInvited(s, s, code, now, name, name');
    u := BothOpen(s, u, code, name, name');
    var admin := s.db.users == map[];
    u := BothInsert(s, u, code, name, name', admin);
    var id, id' :| TwoRegistrations(u, code, name, name', Inserted(id, admin), Inserted(id', admin));
    u := BothCommit(s, u, code, name, name', id, id', admin);
    u := BothIssue(s, u, now, first, second);
  }

  /** Nor is an invite, nor the first place: from any tables without the two names, two
      registrations that both read an unused invite before either commits can both succeed, and
      if there were no users both make an admin. */
  lemma BothRegistrationsSucceed(db: Tables, code: string, now: int, name: string, name': string, first: string,
            second: string)
    returns (s: State)
    requires TablesOk(db) && code in db.invites && db.invites[code].usedBy.None? && now <= db.invites[code].expiresAt
    requires name != name' && !NameTaken(db.users, name) && !NameTaken(db.users, name')
    requires first !in db.tokens && second !in db.tokens && first != second
    ensures Reachable(s) && |s.calls| == 2
    ensures s.calls[0].request == Register(code, name) && s.calls[1].request == Register(code, name')
    ensures forall i :: 0 <= i < 2 ==> s.calls[i].stage.Done? && (s.calls[i].stage.admin <==> db.users == map[])
  {
    s := RegisterRace(Init(db), code, now, name, name', first, second);
  }
}
