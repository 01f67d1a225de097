/** Refresh tokens, invites and registrations. Every query of `RefreshToken` and `Register` is a
    step of its own, so that any number of calls interleave; the transaction of `Register`
    shows its two writes at commit. The wall clock is a parameter of the steps that read it;
    `clock` only counts the steps, so that histories can be compared. */
module Credentials {
  import opened Basics

  datatype User = User(name: string, admin: bool)

  datatype Token = Token(owner: nat, expiresAt: int)

  datatype Invite = Invite(expiresAt: int, usedBy: Option<nat>)

  datatype Tables = Tables(
    users: map<nat, User>, nextUser: nat, tokens: map<string, Token>, invites: map<string, Invite>)

  datatype Request = Refresh(token: string) | Register(code: string, name: string)

  datatype Error = InvalidRefreshToken | InviteInvalid | UsernameTaken | QueryFailed

  /** What a call has finished: for a refresh its read, its delete and its look-up of the user;
      for a registration its read of the invite, its count, the opening of the transaction, its
      two writes and the commit; for both the insertion of the new token. */
  datatype Stage =
    | Begun
    | Found(owner: nat)
    | Spent(owner: nat)
    | Invited
    | Counted(admin: bool)
    | Open(admin: bool)
    | Inserted(id: nat, admin: bool)
    | Marked(id: nat, admin: bool)
    | Issuing(user: nat, admin: bool)
    | Done(token: string, user: nat, admin: bool)
    | Failed(error: Error)

  /** `readAt` and `countedAt` are the steps at which the credential was read and the users were
      counted; `seen` is the wall clock that the credential's expiry was compared with. */
  datatype Call = Call(
    request: Request, stage: Stage, began: nat, readAt: Option<nat>, seen: int, countedAt: Option<nat>)

  /** The history of a token: its row, when it was inserted and when it was first deleted. */
  datatype Minted = Minted(token: Token, at: nat, gone: Option<nat>)

  /** The history of an invite: when it was created, first used by a commit, and deleted. */
  datatype Sent = Sent(expiresAt: int, at: nat, used: Option<nat>, revoked: Option<nat>)

  datatype State = State(
    db: Tables,
    calls: seq<Call>,
    clock: nat,
    minted: map<string, Minted>,
    codes: map<string, Sent>,
    firstUser: Option<nat>)

  datatype Label =
    | Begin(request: Request)
    | GetToken(call: nat, now: int)
    | DeleteToken(call: nat)
    | GetUser(call: nat)
    | CreateToken(call: nat, raw: string, expiresAt: int)
    | GetInvite(call: nat, now: int)
    | CountUsers(call: nat)
    | BeginTx(call: nat)
    | CreateUser(call: nat)
    | MarkUsed(call: nat)
    | Commit(call: nat)
    | Fault(call: nat)
    | CreateInvite(code: string, until: int)
    | DeleteInvite(code: string)

  predicate InTransaction(x: Call) {
    (x.stage.Inserted? || x.stage.Marked?) && x.request.Register?
  }

  /** Another open transaction has inserted the same username, so this insert waits for it. */
  predicate NameHeld(s: State, i: nat, name: string) {
    exists j :: 0 <= j < |s.calls| && j != i && InTransaction(s.calls[j]) && s.calls[j].request.name == name
  }

  /** Another open transaction has updated the invite's row, so this statement waits for it. */
  predicate CodeHeld(s: State, i: nat, code: string) {
    exists j :: 0 <= j < |s.calls| && j != i && InTransaction(s.calls[j]) && s.calls[j].stage.Marked?
      && s.calls[j].request.code == code
  }

  predicate NameTaken(users: map<nat, User>, name: string) {
    exists u :: u in users && users[u].name == name
  }

  predicate Finished(x: Call) {
    x.stage.Done? || x.stage.Failed?
  }

  /** Random tokens and invite codes are fresh. */
  predicate Enabled(s: State, l: Label) {
    match l
    case Begin(_) => true
    case GetToken(i, _) => i < |s.calls| && s.calls[i].stage == Begun && s.calls[i].request.Refresh?
    case DeleteToken(i) => i < |s.calls| && s.calls[i].stage.Found? && s.calls[i].request.Refresh?
    case GetUser(i) => i < |s.calls| && s.calls[i].stage.Spent?
    case CreateToken(i, raw, _) => i < |s.calls| && s.calls[i].stage.Issuing? && raw !in s.minted
    case GetInvite(i, _) => i < |s.calls| && s.calls[i].stage == Begun && s.calls[i].request.Register?
    case CountUsers(i) => i < |s.calls| && s.calls[i].stage.Invited?
    case BeginTx(i) => i < |s.calls| && s.calls[i].stage.Counted?
    case CreateUser(i) =>
      i < |s.calls| && s.calls[i].stage.Open? && s.calls[i].request.Register?
          && !NameHeld(s, i, s.calls[i].request.name)
    case MarkUsed(i) =>
      i < |s.calls| && s.calls[i].stage.Inserted? && s.calls[i].request.Register?
          && !CodeHeld(s, i, s.calls[i].request.code)
    case Commit(i) => i < |s.calls| && s.calls[i].stage.Marked? && s.calls[i].request.Register?
    case Fault(i) => i < |s.calls| && !Finished(s.calls[i])
    case CreateInvite(code, _) => code !in s.codes
    case DeleteInvite(code) => code in s.db.invites && !CodeHeld(s, |s.calls|, code)
  }

  /** The error a call returns when the query it is about to make fails. */
  function FaultError(x: Call): Error {
    if x.stage == Begun && x.request.Register? then InviteInvalid
    else if x.stage.Open? then UsernameTaken
    else QueryFailed
  }

  function RemoveToken(s: State, t: string): State {
    s.(db := s.db.(tokens := s.db.tokens - {t}),
       minted := if t in s.minted && s.minted[t].gone.None? then s.minted[t := s.minted[t].(gone := Some(s.clock))]
                 else s.minted)
  }

  function InsertToken(s: State, t: string, row: Token): State {
    s.(db := s.db.(tokens := s.db.tokens[t := row]), minted := s.minted[t := Minted(row, s.clock, None)])
  }

  /** The two writes of the transaction become visible. The invite may have been deleted since it
      was read, and then the update has changed no row. */
  function Publish(s: State, id: nat, user: User, code: string): State {
    s.(db := s.db.(users := s.db.users[id := user],
                   invites := if code in s.db.invites then s.db.invites[code := s.db.invites[code].(usedBy := Some(id))]
                              else s.db.invites),
       codes := if code in s.codes && s.codes[code].used.None?
                then s.codes[code := s.codes[code].(used := Some(s.clock))]
                else s.codes,
       firstUser := if s.firstUser.None? then Some(s.clock) else s.firstUser)
  }

  function InsertInvite(s: State, code: string, until: int): State {
    s.(db := s.db.(invites := s.db.invites[code := Invite(until, None)]),
       codes := s.codes[code := Sent(until, s.clock, None, None)])
  }

  function RemoveInvite(s: State, code: string): State {
    s.(db := s.db.(invites := s.db.invites - {code}),
       codes := if code in s.codes then s.codes[code := s.codes[code].(revoked := Some(s.clock))] else s.codes)
  }

  /** What a statement writes to the tables. */
  function Write(s: State, l: Label): State
    requires Enabled(s, l)
  {
    match l
    case DeleteToken(i) => RemoveToken(s, s.calls[i].request.token)
    case CreateToken(i, raw, expiresAt) => InsertToken(s, raw, Token(s.calls[i].stage.user, expiresAt))
    // the sequence behind the id moves on even when the insert fails
    case CreateUser(i) => s.(db := s.db.(nextUser := s.db.nextUser + 1))
    case Commit(i) =>
      var x := s.calls[i];
      Publish(s, x.stage.id, User(x.request.name, x.stage.admin), x.request.code)
    case CreateInvite(code, until) => InsertInvite(s, code, until)
    case DeleteInvite(code) => RemoveInvite(s, code)
    case _ => s
  }

  predicate OfCall(l: Label) {
    !l.Begin? && !l.CreateInvite? && !l.DeleteInvite?
  }

  /** Where the statement leaves the call that made it. */
  function Move(s: State, l: Label): Call
    requires Enabled(s, l) && OfCall(l)
  {
    var x := s.calls[l.call];
    match l
    case GetToken(_, now) =>
      var t := x.request.token;
      x.(readAt := Some(s.clock), seen := now,
         stage := if t !in s.db.tokens || s.db.tokens[t].expiresAt < now then Failed(InvalidRefreshToken)
                  else Found(s.db.tokens[t].owner))
    case DeleteToken(_) => x.(stage := Spent(x.stage.owner))
    case GetUser(_) =>
      var u := x.stage.owner;
      x.(stage := if u in s.db.users then Issuing(u, s.db.users[u].admin) else Failed(QueryFailed))
    case CreateToken(_, raw, _) => x.(stage := Done(raw, x.stage.user, x.stage.admin))
    case GetInvite(_, now) =>
      var c := x.request.code;
      x.(readAt := Some(s.clock), seen := now,
         stage := if c !in s.db.invites || s.db.invites[c].usedBy.Some? || s.db.invites[c].expiresAt < now
                  then Failed(InviteInvalid) else Invited)
    case CountUsers(_) => x.(countedAt := Some(s.clock), stage := Counted(s.db.users == map[]))
    case BeginTx(_) => x.(stage := Open(x.stage.admin))
    case CreateUser(_) =>
      x.(stage := if NameTaken(s.db.users, x.request.name) then Failed(UsernameTaken)
                  else Inserted(s.db.nextUser, x.stage.admin))
    case MarkUsed(_) => x.(stage := Marked(x.stage.id, x.stage.admin))
    case Commit(_) => x.(stage := Issuing(x.stage.id, x.stage.admin))
    case Fault(_) => x.(stage := Failed(FaultError(x)))
  }

  function Calls(s: State, l: Label): seq<Call>
    requires Enabled(s, l)
  {
    if l.Begin? then s.calls + [Call(l.request, Begun, s.clock, None, 0, None)]
    else if OfCall(l) then s.calls[l.call := Move(s, l)]
    else s.calls
  }

  function Apply(s: State, l: Label): State
    requires Enabled(s, l)
  {
    Write(s, l).(calls := Calls(s, l), clock := s.clock + 1)
  }

  /** Tables a deployment may start from: tokens belong to users, and usernames are unique. */
  predicate TablesOk(db: Tables) {
    && (forall u :: u in db.users ==> u < db.nextUser)
    && (forall u, v :: u in db.users && v in db.users && db.users[u].name == db.users[v].name ==> u == v)
    && (forall t :: t in db.tokens ==> db.tokens[t].owner in db.users)
  }

  function Init(db: Tables): State {
    State(db, [], 1,
          map t | t in db.tokens :: Minted(db.tokens[t], 0, None),
          map c | c in db.invites ::
            Sent(db.invites[c].expiresAt, 0, if db.invites[c].usedBy.Some? then Some(0) else None, None),
          if db.users == map[] then None else Some(0))
  }

  /** One statement, of whichever call, leads from `s` to `t`. */
  ghost predicate Steps(s: State, t: State) {
    exists l :: Enabled(s, l) && Apply(s, l) == t
  }

  ghost predicate StepsAt(states: seq<State>, i: nat)
    requires i + 1 < |states|
  {
    Steps(states[i], states[i + 1])
  }

  /** The states of a run, from its first to its last. */
  ghost predicate IsRun(from: State, states: seq<State>, to: State) {
    && |states| > 0 && states[0] == from && states[|states| - 1] == to
    && forall i: nat :: i + 1 < |states| ==> StepsAt(states, i)
  }

  ghost predicate Leads(from: State, to: State) {
    exists states :: IsRun(from, states, to)
  }

  ghost predicate Reachable(s: State) {
    exists db :: TablesOk(db) && Leads(Init(db), s)
  }

  // ---------------------------------------------------------------- what the histories say

  /** The call read its token after it was minted, before anyone had deleted it, and before it
      expired. */
  predicate TokenGood(s: State, x: Call) {
    && x.request.Refresh? && x.readAt.Some? && x.request.token in s.minted
    && var m := s.minted[x.request.token];
    && m.at < x.readAt.value
    && (m.gone.Some? ==> x.readAt.value < m.gone.value)
    && x.seen <= m.token.expiresAt
  }

  /** The call read its invite after it was created, before anyone had committed a registration
      on it or deleted it, and before it expired. */
  predicate InviteGood(s: State, x: Call) {
    && x.request.Register? && x.readAt.Some? && x.request.code in s.codes
    && var m := s.codes[x.request.code];
    && m.at < x.readAt.value
    && (m.used.Some? ==> x.readAt.value < m.used.value)
    && (m.revoked.Some? ==> x.readAt.value < m.revoked.value)
    && x.seen <= m.expiresAt
  }

  /** The call counted the users before the first of them was committed. */
  predicate CountedNone(s: State, x: Call) {
    x.countedAt.Some? && (s.firstUser.Some? ==> x.countedAt.value < s.firstUser.value)
  }

  // ---------------------------------------------------------------- the invariant

  predicate Before(t: Option<nat>, clock: nat) {
    t.Some? ==> t.value < clock
  }

  ghost predicate TokensOk(s: State) {
    forall t :: (t in s.db.tokens <==> t in s.minted && s.minted[t].gone.None?) && (t in s.minted ==> MintedOk(s, t))
  }

  predicate MintedOk(s: State, t: string)
    requires t in s.minted
  {
    var m := s.minted[t];
    && m.at < s.clock && Before(m.gone, s.clock) && m.token.owner in s.db.users
    && (t in s.db.tokens ==> s.db.tokens[t] == m.token)
  }

  predicate InviteOk(s: State, c: string) {
    (c in s.db.invites <==> c in s.codes && s.codes[c].revoked.None?) && (c in s.codes ==> SentOk(s, c))
  }

  ghost predicate InvitesOk(s: State) {
    forall c :: InviteOk(s, c)
  }

  predicate SentOk(s: State, c: string)
    requires c in s.codes
  {
    var m := s.codes[c];
    && m.at < s.clock && Before(m.used, s.clock) && Before(m.revoked, s.clock)
    && (c in s.db.invites ==>
          s.db.invites[c].expiresAt == m.expiresAt && (s.db.invites[c].usedBy.Some? <==> m.used.Some?))
  }

  ghost predicate UsersOk(s: State) {
    && (s.firstUser.None? <==> s.db.users == map[]) && Before(s.firstUser, s.clock)
    && (forall u :: u in s.db.users ==> u < s.db.nextUser)
    && (forall u, v :: u in s.db.users && v in s.db.users && s.db.users[u].name == s.db.users[v].name ==> u == v)
  }

  predicate Timed(s: State, x: Call) {
    && x.began < s.clock
    && (x.readAt.Some? ==> x.began < x.readAt.value < s.clock)
    && (x.countedAt.Some? ==> x.readAt.Some? && x.readAt.value < x.countedAt.value < s.clock)
  }

  predicate Passed(s: State, x: Call, user: nat, admin: bool) {
    && user in s.db.users && s.db.users[user].admin == admin
    && if x.request.Refresh? then
         TokenGood(s, x) && s.minted[x.request.token].gone.Some? && s.minted[x.request.token].token.owner == user
       else
         && InviteGood(s, x) && s.codes[x.request.code].used.Some?
         && s.db.users[user].name == x.request.name && x.countedAt.Some? && (admin <==> CountedNone(s, x))
  }

  predicate StageOk(s: State, x: Call) {
    match x.stage
    case Begun => x.readAt.None? && x.countedAt.None?
    case Found(owner) => TokenGood(s, x) && s.minted[x.request.token].token.owner == owner
    case Spent(owner) =>
      && TokenGood(s, x) && s.minted[x.request.token].token.owner == owner
      && s.minted[x.request.token].gone.Some?
    case Invited => InviteGood(s, x)
    case Counted(admin) => InviteGood(s, x) && x.countedAt.Some? && (admin <==> CountedNone(s, x))
    case Open(admin) => InviteGood(s, x) && x.countedAt.Some? && (admin <==> CountedNone(s, x))
    case Inserted(id, admin) => InviteGood(s, x) && x.countedAt.Some? && (admin <==> CountedNone(s, x))
    case Marked(id, admin) => InviteGood(s, x) && x.countedAt.Some? && (admin <==> CountedNone(s, x))
    case Issuing(user, admin) => Passed(s, x, user, admin)
    case Done(token, user, admin) => Passed(s, x, user, admin) && token in s.minted
        && s.minted[token].token.owner == user
    case Failed(InvalidRefreshToken) => x.request.Refresh? && x.readAt.Some? && !TokenGood(s, x)
    case Failed(InviteInvalid) => x.request.Register? && (x.readAt.Some? ==> !InviteGood(s, x))
    case Failed(UsernameTaken) => InviteGood(s, x)
    case Failed(QueryFailed) => true
  }

  /** The row an open transaction has inserted is not visible yet. */
  predicate PendingOk(s: State, x: Call) {
    InTransaction(x) ==>
      x.stage.id < s.db.nextUser && x.stage.id !in s.db.users && !NameTaken(s.db.users, x.request.name)
  }

  /** It collides with no row another one has inserted. */
  predicate Apart(x: Call, y: Call) {
    InTransaction(x) && InTransaction(y) ==> x.stage.id != y.stage.id && x.request.name != y.request.name
  }

  predicate CallOk(s: State, x: Call) {
    Timed(s, x) && StageOk(s, x) && PendingOk(s, x)
  }

  ghost predicate Invariant(s: State) {
    && TokensOk(s) && InvitesOk(s) && UsersOk(s)
    && (forall i :: 0 <= i < |s.calls| ==> CallOk(s, s.calls[i]))
    && (forall i, j :: 0 <= i < j < |s.calls| ==> Apart(s.calls[i], s.calls[j]))
  }

  // ---------------------------------------------------------------- every step keeps it

  predicate Grew(was: Option<nat>, now: Option<nat>, clock: nat) {
    now == was || (was.None? && now == Some(clock))
  }

  predicate LaterTokens(s: State, t: State) {
    && (forall k :: k in s.minted ==>
          k in t.minted && t.minted[k].token == s.minted[k].token && t.minted[k].at == s.minted[k].at
          && Grew(s.minted[k].gone, t.minted[k].gone, s.clock))
    && (forall k :: k in t.minted && k !in s.minted ==> t.minted[k].at == s.clock)
  }

  predicate LaterInvites(s: State, t: State) {
    && (forall k :: k in s.codes ==>
          k in t.codes && t.codes[k].expiresAt == s.codes[k].expiresAt && t.codes[k].at == s.codes[k].at
          && Grew(s.codes[k].used, t.codes[k].used, s.clock) && Grew(s.codes[k].revoked, t.codes[k].revoked, s.clock))
    && (forall k :: k in t.codes && k !in s.codes ==> t.codes[k].at == s.clock)
  }

  /** Histories only grow: what is written at step `s.clock` is later than all that was. */
  predicate Later(s: State, t: State) {
    && s.clock <= t.clock && LaterTokens(s, t) && LaterInvites(s, t)
    && (forall u :: u in s.db.users ==> u in t.db.users && t.db.users[u] == s.db.users[u])
    && Grew(s.firstUser, t.firstUser, s.clock)
  }

  lemma GoodStays(s: State, t: State, x: Call)
    requires Later(s, t) && Timed(s, x)
    ensures TokenGood(t, x) == TokenGood(s, x) && InviteGood(t, x) == InviteGood(s, x)
    ensures x.countedAt.Some? ==> CountedNone(t, x) == CountedNone(s, x)
  {
  }

  lemma PassedStays(s: State, t: State, x: Call, user: nat, admin: bool)
    requires Later(s, t) && Timed(s, x) && Passed(s, x, user, admin)
    ensures Passed(t, x, user, admin)
  {
    GoodStays(s, t, x);
  }

  /** A call that took no step is as it was. */
  lemma OthersKeep(s: State, t: State, x: Call)
    requires Later(s, t) && Timed(s, x) && StageOk(s, x)
    ensures Timed(t, x) && StageOk(t, x)
    ensures TokenGood(t, x) == TokenGood(s, x) && InviteGood(t, x) == InviteGood(s, x)
    ensures x.countedAt.Some? ==> CountedNone(t, x) == CountedNone(s, x)
  {
    GoodStays(s, t, x);
    if x.stage.Issuing? || x.stage.Done? {
      PassedStays(s, t, x, x.stage.user, x.stage.admin);
    }
  }

  lemma TokensAreLater(s: State, l: Label)
    requires Enabled(s, l)
    ensures LaterTokens(s, Write(s, l))
  {
  }

  lemma InvitesAreLater(s: State, l: Label)
    requires InvitesOk(s) && Enabled(s, l)
    ensures LaterInvites(s, Write(s, l))
  {
    if l.DeleteInvite? {
      assert InviteOk(s, l.code);
    }
  }

  lemma StepIsLater(s: State, l: Label)
    requires InvitesOk(s) && Enabled(s, l)
    requires l.Commit? ==> s.calls[l.call].stage.id !in s.db.users
    ensures Later(s, Apply(s, l))
  {
    TokensAreLater(s, l);
    InvitesAreLater(s, l);
    var w, t := Write(s, l), Apply(s, l);
    assert t.minted == w.minted && t.codes == w.codes && t.db == w.db && t.firstUser == w.firstUser;
  }

  lemma StepKeepsTokens(s: State, l: Label)
    requires TokensOk(s) && Enabled(s, l)
    requires l.CreateToken? ==> s.calls[l.call].stage.user in s.db.users
    requires l.Commit? ==> s.calls[l.call].stage.id !in s.db.users
    ensures TokensOk(Apply(s, l))
  {
  }

  lemma StepKeepsInvites(s: State, l: Label)
    requires InvitesOk(s) && Enabled(s, l)
    ensures InvitesOk(Apply(s, l))
  {
    forall c ensures InviteOk(Apply(s, l), c) {
      assert InviteOk(s, c);
      if l.Commit? { CommitKeepsInvite(s, l, c); } else { OthersKeepInvite(s, l, c); }
    }
  }

  lemma CommitKeepsInvite(s: State, l: Label, c: string)
    requires InviteOk(s, c) && Enabled(s, l) && l.Commit?
    ensures InviteOk(Apply(s, l), c)
  {
  }

  lemma OthersKeepInvite(s: State, l: Label, c: string)
    requires InviteOk(s, c) && Enabled(s, l) && !l.Commit?
    ensures InviteOk(Apply(s, l), c)
  {
  }

  lemma StepKeepsUsers(s: State, l: Label)
    requires UsersOk(s) && Enabled(s, l)
    requires l.Commit? ==>
               s.calls[l.call].stage.id < s.db.nextUser && !NameTaken(s.db.users, s.calls[l.call].request.name)
    ensures UsersOk(Apply(s, l))
  {
    var t := Apply(s, l);
    if l.Commit? {
      var x := s.calls[l.call];
      assert x.stage.id in t.db.users;
      forall u, v | u in t.db.users && v in t.db.users && t.db.users[u].name == t.db.users[v].name ensures u == v {
        assert u != x.stage.id ==> s.db.users[u].name != x.request.name;
        assert v != x.stage.id ==> s.db.users[v].name != x.request.name;
      }
    }
  }

  /** The refresh that takes a step passes from one good stage to another. */
  lemma RefreshMoves(s: State, l: Label)
    requires TokensOk(s) && Enabled(s, l) && (l.GetToken? || l.DeleteToken? || l.GetUser? || l.CreateToken?)
    requires Timed(s, s.calls[l.call]) && StageOk(s, s.calls[l.call]) && Later(s, Apply(s, l))
    ensures Timed(Apply(s, l), Move(s, l)) && StageOk(Apply(s, l), Move(s, l))
  {
    var t, x := Apply(s, l), s.calls[l.call];
    OthersKeep(s, t, x);
    if l.GetToken? {
      assert x.request.token in s.minted ==> MintedOk(s, x.request.token);
    } else if !l.CreateToken? {
      assert MintedOk(s, x.request.token);
    }
  }

  lemma RegisterMoves(s: State, l: Label)
    requires InvitesOk(s) && UsersOk(s) && Enabled(s, l) && OfCall(l)
    requires !(l.GetToken? || l.DeleteToken? || l.GetUser? || l.CreateToken?)
    requires Timed(s, s.calls[l.call]) && StageOk(s, s.calls[l.call]) && Later(s, Apply(s, l))
    ensures Timed(Apply(s, l), Move(s, l)) && StageOk(Apply(s, l), Move(s, l))
  {
    var x := s.calls[l.call];
    OthersKeep(s, Apply(s, l), x);
    if l.GetInvite? {
      InviteRead(s, l);
    } else if l.Commit? {
      RegisterCommits(s, l);
    } else if l.Fault? {
      CallFails(s, l);
    } else {
      RegisterGoesOn(s, l);
    }
  }

  lemma InviteRead(s: State, l: Label)
    requires Enabled(s, l) && l.GetInvite? && InvitesOk(s)
    requires Timed(s, s.calls[l.call]) && StageOk(s, s.calls[l.call])
    ensures Timed(Apply(s, l), Move(s, l)) && StageOk(Apply(s, l), Move(s, l))
  {
    assert InviteOk(s, s.calls[l.call].request.code);
  }

  lemma RegisterCommits(s: State, l: Label)
    requires Enabled(s, l) && l.Commit? && Timed(s, s.calls[l.call]) && StageOk(s, s.calls[l.call])
    requires InviteGood(Apply(s, l), s.calls[l.call])
    requires CountedNone(Apply(s, l), s.calls[l.call]) == CountedNone(s, s.calls[l.call])
    ensures Timed(Apply(s, l), Move(s, l)) && StageOk(Apply(s, l), Move(s, l))
  {
  }

  lemma CallFails(s: State, l: Label)
    requires Enabled(s, l) && l.Fault? && Timed(s, s.calls[l.call]) && StageOk(s, s.calls[l.call])
    ensures Timed(Apply(s, l), Move(s, l)) && StageOk(Apply(s, l), Move(s, l))
  {
  }

  lemma RegisterGoesOn(s: State, l: Label)
    requires UsersOk(s) && Enabled(s, l) && (l.CountUsers? || l.BeginTx? || l.CreateUser? || l.MarkUsed?)
    requires Timed(s, s.calls[l.call]) && StageOk(s, s.calls[l.call])
    ensures Timed(Apply(s, l), Move(s, l)) && StageOk(Apply(s, l), Move(s, l))
  {
  }

  lemma MovePending(s: State, l: Label)
    requires UsersOk(s) && Enabled(s, l) && OfCall(l) && PendingOk(s, s.calls[l.call])
    ensures PendingOk(Apply(s, l), Move(s, l))
  {
  }

  lemma OthersPending(s: State, l: Label, x: Call)
    requires Enabled(s, l) && PendingOk(s, x)
    requires OfCall(l) ==> Apart(s.calls[l.call], x)
    ensures PendingOk(Apply(s, l), x)
  {
  }

  /** Nothing another call holds collides with the row just inserted. */
  lemma MoveApart(s: State, l: Label, i: nat)
    requires Enabled(s, l) && OfCall(l) && i < |s.calls| && i != l.call
    requires PendingOk(s, s.calls[i]) && Apart(s.calls[l.call], s.calls[i])
    ensures Apart(Move(s, l), s.calls[i]) && Apart(s.calls[i], Move(s, l))
  {
  }

  lemma StepKeepsTables(s: State, l: Label)
    requires Invariant(s) && Enabled(s, l)
    ensures TokensOk(Apply(s, l)) && InvitesOk(Apply(s, l)) && UsersOk(Apply(s, l)) && Later(s, Apply(s, l))
  {
    if OfCall(l) {
      assert CallOk(s, s.calls[l.call]);
    }
    StepIsLater(s, l);
    StepKeepsTokens(s, l);
    StepKeepsInvites(s, l);
    StepKeepsUsers(s, l);
  }

  lemma MoverKeeps(s: State, l: Label)
    requires Invariant(s) && Enabled(s, l) && OfCall(l) && Later(s, Apply(s, l))
    ensures CallOk(Apply(s, l), Move(s, l))
  {
    assert CallOk(s, s.calls[l.call]);
    MovePending(s, l);
    if l.GetToken? || l.DeleteToken? || l.GetUser? || l.CreateToken? {
      RefreshMoves(s, l);
    } else {
      RegisterMoves(s, l);
    }
  }

  lemma StepKeepsCall(s: State, l: Label, i: nat)
    requires Invariant(s) && Enabled(s, l) && i < |Calls(s, l)| && Later(s, Apply(s, l))
    ensures CallOk(Apply(s, l), Calls(s, l)[i])
  {
    if OfCall(l) && i == l.call {
      MoverKeeps(s, l);
    } else if i < |s.calls| {
      var x := s.calls[i];
      assert CallOk(s, x);
      assert OfCall(l) ==> Apart(s.calls[l.call], x);
      OthersKeep(s, Apply(s, l), x);
      OthersPending(s, l, x);
    }
  }

  lemma StepKeeps(s: State, l: Label)
    requires Invariant(s) && Enabled(s, l)
    ensures Invariant(Apply(s, l))
  {
    var t := Apply(s, l);
    StepKeepsTables(s, l);
    forall i | 0 <= i < |t.calls| ensures CallOk(t, t.calls[i]) {
      StepKeepsCall(s, l, i);
    }
    forall i, j | 0 <= i < j < |t.calls| ensures Apart(t.calls[i], t.calls[j]) {
      if OfCall(l) && (i == l.call || j == l.call) {
        var k := if i == l.call then j else i;
        assert CallOk(s, s.calls[k]) && Apart(s.calls[l.call], s.calls[k]);
        MoveApart(s, l, k);
      }
    }
  }

  lemma {:induction false} RunKeeps(from: State, states: seq<State>, to: State)
    requires Invariant(from) && IsRun(from, states, to)
    ensures Invariant(to)
    decreases |states|
  {
    if |states| > 1 {
      var n := |states| - 2;
      RunPrefix(from, states, to);
      RunKeeps(from, states[..n + 1], states[n]);
      assert StepsAt(states, n);
      var l :| Enabled(states[n], l) && Apply(states[n], l) == to;
      StepKeeps(states[n], l);
    }
  }

  lemma RunPrefix(from: State, states: seq<State>, to: State)
    requires IsRun(from, states, to) && |states| > 1
    ensures IsRun(from, states[..|states| - 1], states[|states| - 2])
  {
    var shorter := states[..|states| - 1];
    forall i: nat | i + 1 < |shorter| ensures StepsAt(shorter, i) {
      assert StepsAt(states, i);
    }
  }

  lemma InitHolds(db: Tables)
    requires TablesOk(db)
    ensures Invariant(Init(db))
  {
    var s := Init(db);
    forall c ensures InviteOk(s, c) {
    }
  }

  lemma ReachableHolds(s: State)
    requires Reachable(s)
    ensures Invariant(s)
  {
    var db :| TablesOk(db) && Leads(Init(db), s);
    var states :| IsRun(Init(db), states, s);
    InitHolds(db);
    RunKeeps(Init(db), states, s);
  }
}
