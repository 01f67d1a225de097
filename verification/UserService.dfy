/** The user service as an object over its tables: `Register` and `RefreshToken` as sequences of
    queries, `answered` of which the database answers before it fails. Each call, when nothing
    else interferes, is shown to be a run of the interleaved machine. */
module UserService {
  import opened Basics
  import opened Credentials
  import opened CredentialTheorems

  datatype Outcome = Pair(user: nat, admin: bool, refresh: string) | Refused(error: Error)

  predicate Matches(x: Call, r: Outcome) {
    match r
    case Pair(user, admin, refresh) => x.stage == Done(refresh, user, admin)
    case Refused(error) => x.stage == Failed(error)
  }

  /** The machine has run call `request` by itself, from tables `db` to tables `now`. */
  ghost predicate Alone(db: Tables, now: Tables, request: Request, u: State) {
    && Leads(Init(db), u) && u.db == now && u.minted.Keys == db.tokens.Keys
    && |u.calls| == 1 && u.calls[0].request == request
  }

  ghost predicate RanAs(db: Tables, now: Tables, request: Request, r: Outcome) {
    exists u :: Leads(Init(db), u) && u.db == now && |u.calls| == 1 && u.calls[0].request == request
        && Matches(u.calls[0], r)
  }

  lemma RunsKeepTables(db: Tables, now: Tables, request: Request, r: Outcome)
    requires TablesOk(db) && RanAs(db, now, request, r)
    ensures TablesOk(now)
  {
    var u :| Leads(Init(db), u) && u.db == now && |u.calls| == 1;
    AccountsConsistent(u);
  }

  lemma Starts(db: Tables, request: Request) returns (u: State)
    ensures Alone(db, db, request, u) && u.calls[0].stage == Begun
  {
    Stay(Init(db));
    u := Go(Init(db), Init(db), Begin(request));
  }

  /** One statement of the only call; the tables become `now`. */
  lemma Goes(db: Tables, was: Tables, now: Tables, request: Request, s: State, l: Label) returns (u: State)
    requires Alone(db, was, request, s) && OfCall(l) && l.call == 0 && !l.CreateToken? && Enabled(s, l)
    requires now == Write(s, l).db
    ensures Alone(db, now, request, u) && u.calls[0] == Move(s, l)
  {
    u := Go(Init(db), s, l);
  }

  lemma Fails(db: Tables, now: Tables, request: Request, s: State, r: Outcome)
    requires Alone(db, now, request, s) && !Finished(s.calls[0]) && r == Refused(FaultError(s.calls[0]))
    ensures RanAs(db, now, request, r)
  {
    var u := Go(Init(db), s, Fault(0));
  }

  lemma Ends(db: Tables, now: Tables, request: Request, s: State, r: Outcome)
    requires Alone(db, now, request, s) && Matches(s.calls[0], r)
    ensures RanAs(db, now, request, r)
  {
  }

  // ---------------------------------------------------------------- refreshing

  predicate ValidToken(db: Tables, token: string, now: int) {
    token in db.tokens && now <= db.tokens[token].expiresAt
  }

  /** The tables after a refresh, and its result. When the database fails after the delete, the
      token is spent for nothing. */
  function Refreshed(db: Tables, token: string, now: int, raw: string, until: int, answered: nat): (Tables, Outcome)
    requires TablesOk(db)
  {
    if answered < 1 then (db, Refused(QueryFailed))
    else if !ValidToken(db, token, now) then (db, Refused(InvalidRefreshToken))
    else if answered < 2 then (db, Refused(QueryFailed))
    else
      var spent := db.(tokens := db.tokens - {token});
      if answered < 4 then (spent, Refused(QueryFailed))
      else
        var user := db.tokens[token].owner;
        (spent.(tokens := spent.tokens[raw := Token(user, until)]), Pair(user, db.users[user].admin, raw))
  }

  lemma IssueAlone(db: Tables, was: Tables, request: Request, s: State, raw: string, until: int)
    requires Alone(db, was, request, s) && s.calls[0].stage.Issuing? && raw !in db.tokens.Keys
    ensures var x := s.calls[0].stage;
      RanAs(db, was.(tokens := was.tokens[raw := Token(x.user, until)]), request, Pair(x.user, x.admin, raw))
  {
    var u := Go(Init(db), s, CreateToken(0, raw, until));
  }

  lemma RefreshAfterUser(db: Tables, token: string, raw: string, until: int, answered: nat, s: State)
    requires TablesOk(db) && token in db.tokens && raw !in db.tokens.Keys && answered >= 3
    requires Alone(db, db.(tokens := db.tokens - {token}), Refresh(token), s)
    requires s.calls[0].stage == Issuing(db.tokens[token].owner, db.users[db.tokens[token].owner].admin)
    ensures var user, spent := db.tokens[token].owner, db.(tokens := db.tokens - {token});
      if answered < 4 then RanAs(db, spent, Refresh(token), Refused(QueryFailed))
      else RanAs(db, spent.(tokens := spent.tokens[raw := Token(user, until)]), Refresh(token),
                 Pair(user, db.users[user].admin, raw))
  {
    var spent := db.(tokens := db.tokens - {token});
    if answered < 4 {
      Fails(db, spent, Refresh(token), s, Refused(QueryFailed));
    } else {
      IssueAlone(db, spent, Refresh(token), s, raw, until);
    }
  }

  lemma RefreshAfterDelete(db: Tables, token: string, raw: string, until: int, answered: nat, s: State)
    requires TablesOk(db) && token in db.tokens && raw !in db.tokens.Keys && answered >= 2
    requires Alone(db, db.(tokens := db.tokens - {token}), Refresh(token), s)
        && s.calls[0].stage == Spent(db.tokens[token].owner)
    ensures var user, spent := db.tokens[token].owner, db.(tokens := db.tokens - {token});
      if answered < 4 then RanAs(db, spent, Refresh(token), Refused(QueryFailed))
      else RanAs(db, spent.(tokens := spent.tokens[raw := Token(user, until)]), Refresh(token),
          Pair(user, db.users[user].admin, raw))
  {
    var spent, request := db.(tokens := db.tokens - {token}), Refresh(token);
    if answered < 3 {
      Fails(db, spent, request, s, Refused(QueryFailed));
    } else {
      var u := Goes(db, spent, spent, request, s, GetUser(0));
      RefreshAfterUser(db, token, raw, until, answered, u);
    }
  }

  lemma RefreshAfterRead(db: Tables, token: string, now: int, raw: string, until: int, answered: nat, s: State)
    requires TablesOk(db) && raw !in db.tokens.Keys && answered >= 1 && ValidToken(db, token, now)
    requires Alone(db, db, Refresh(token), s) && s.calls[0].stage == Found(db.tokens[token].owner)
    ensures var (after, r) := Refreshed(db, token, now, raw, until, answered); RanAs(db, after, Refresh(token), r)
  {
    if answered < 2 {
      Fails(db, db, Refresh(token), s, Refused(QueryFailed));
    } else {
      var u := Goes(db, db, db.(tokens := db.tokens - {token}), Refresh(token), s, DeleteToken(0));
      RefreshAfterDelete(db, token, raw, until, answered, u);
    }
  }

  /** A refresh with nobody else around is a run of the machine, wherever the database fails. */
  lemma RefreshIsARun(db: Tables, token: string, now: int, raw: string, until: int, answered: nat)
    requires TablesOk(db) && raw !in db.tokens.Keys
    ensures var (after, r) := Refreshed(db, token, now, raw, until, answered); RanAs(db, after, Refresh(token), r)
  {
    var s := Starts(db, Refresh(token));
    if answered < 1 {
      Fails(db, db, Refresh(token), s, Refused(QueryFailed));
    } else {
      s := Goes(db, db, db, Refresh(token), s, GetToken(0, now));
      if ValidToken(db, token, now) {
        RefreshAfterRead(db, token, now, raw, until, answered, s);
      } else {
        Ends(db, db, Refresh(token), s, Refused(InvalidRefreshToken));
      }
    }
  }

  // ---------------------------------------------------------------- registering

  predicate ValidInvite(db: Tables, code: string, now: int) {
    code in db.invites && db.invites[code].usedBy.None? && now <= db.invites[code].expiresAt
  }

  /** What the two writes of a committed registration leave. */
  function Registered(db: Tables, code: string, name: string): Tables
    requires code in db.invites
  {
    db.(users := db.users[db.nextUser := User(name, db.users == map[])], nextUser := db.nextUser + 1,
        invites := db.invites[code := db.invites[code].(usedBy := Some(db.nextUser))])
  }

  /** The tables after a registration, and its result. One that does not commit leaves no user
      and no used invite; one that commits leaves both, even when it then fails to hand out a
      token. */
  function RegisteredAs(db: Tables, code: string, name: string, now: int, raw: string, until: int, answered: nat)
    : (Tables, Outcome)
  {
    if answered < 1 || !ValidInvite(db, code, now) then (db, Refused(InviteInvalid))
    else if answered < 3 then (db, Refused(QueryFailed))
    else if answered < 4 then (db, Refused(UsernameTaken))
    else if NameTaken(db.users, name) then (db.(nextUser := db.nextUser + 1), Refused(UsernameTaken))
    else if answered < 6 then (db.(nextUser := db.nextUser + 1), Refused(QueryFailed))
    else if answered < 7 then (Registered(db, code, name), Refused(QueryFailed))
    else
      var after := Registered(db, code, name);
      (after.(tokens := after.tokens[raw := Token(db.nextUser, until)]), Pair(db.nextUser, db.users == map[], raw))
  }

  lemma RegisterCommitted(db: Tables, code: string, name: string, raw: string, until: int, answered: nat, s: State)
    requires code in db.invites && raw !in db.tokens.Keys && answered >= 6
    requires Alone(db, Registered(db, code, name), Request.Register(code, name), s)
    requires s.calls[0].stage == Issuing(db.nextUser, db.users == map[])
    ensures var after := Registered(db, code, name);
      if answered < 7 then RanAs(db, after, Request.Register(code, name), Refused(QueryFailed))
      else RanAs(db, after.(tokens := after.tokens[raw := Token(db.nextUser, until)]), Request.Register(code, name),
                 Pair(db.nextUser, db.users == map[], raw))
  {
    var request, after := Request.Register(code, name), Registered(db, code, name);
    if answered < 7 {
      Fails(db, after, request, s, Refused(QueryFailed));
    } else {
      IssueAlone(db, after, request, s, raw, until);
    }
  }

  lemma RegisterInTx(db: Tables, code: string, name: string, now: int, raw: string, until: int, answered: nat, s: State)
    requires ValidInvite(db, code, now) && raw !in db.tokens.Keys && answered >= 4 && !NameTaken(db.users, name)
    requires Alone(db, db.(nextUser := db.nextUser + 1), Request.Register(code, name), s)
    requires s.calls[0].stage == Inserted(db.nextUser, db.users == map[])
    ensures var (after, r) := RegisteredAs(db, code, name, now, raw, until, answered);
      RanAs(db, after, Request.Register(code, name), r)
  {
    var request, inserted := Request.Register(code, name), db.(nextUser := db.nextUser + 1);
    if answered < 5 {
      Fails(db, inserted, request, s, Refused(QueryFailed));
    } else {
      var u := Goes(db, inserted, inserted, request, s, MarkUsed(0));
      if answered < 6 {
        Fails(db, inserted, request, u, Refused(QueryFailed));
      } else {
        u := Goes(db, inserted, Registered(db, code, name), request, u, Commit(0));
        RegisterCommitted(db, code, name, raw, until, answered, u);
      }
    }
  }

  lemma RegisterFromInvite(db: Tables, code: string, name: string, now: int, raw: string, until: int, answered: nat,
            s: State)
    requires ValidInvite(db, code, now) && raw !in db.tokens.Keys && answered >= 1
    requires Alone(db, db, Request.Register(code, name), s) && s.calls[0].stage == Invited
    ensures var (after, r) := RegisteredAs(db, code, name, now, raw, until, answered);
      RanAs(db, after, Request.Register(code, name), r)
  {
    var request := Request.Register(code, name);
    if answered < 2 {
      Fails(db, db, request, s, Refused(QueryFailed));
    } else {
      var u := Goes(db, db, db, request, s, Label.CountUsers(0));
      if answered < 3 {
        Fails(db, db, request, u, Refused(QueryFailed));
      } else {
        u := Goes(db, db, db, request, u, BeginTx(0));
        if answered < 4 {
          Fails(db, db, request, u, Refused(UsernameTaken));
        } else {
          u := Goes(db, db, db.(nextUser := db.nextUser + 1), request, u, CreateUser(0));
          if NameTaken(db.users, name) {
            Ends(db, db.(nextUser := db.nextUser + 1), request, u, Refused(UsernameTaken));
          } else {
            RegisterInTx(db, code, name, now, raw, until, answered, u);
          }
        }
      }
    }
  }

  /** So is a registration. */
  lemma RegisterIsARun(db: Tables, code: string, name: string, now: int, raw: string, until: int, answered: nat)
    requires raw !in db.tokens.Keys
    ensures var (after, r) := RegisteredAs(db, code, name, now, raw, until, answered);
      RanAs(db, after, Request.Register(code, name), r)
  {
    var request := Request.Register(code, name);
    var s := Starts(db, request);
    if answered < 1 {
      Fails(db, db, request, s, Refused(InviteInvalid));
    } else {
      s := Goes(db, db, db, request, s, GetInvite(0, now));
      if !ValidInvite(db, code, now) {
        Ends(db, db, request, s, Refused(InviteInvalid));
      } else {
        RegisterFromInvite(db, code, name, now, raw, until, answered, s);
      }
    }
  }

  // ---------------------------------------------------------------- which answer, and what has changed

  /** An unknown or expired token is refused as invalid; a known one is answered with a new pair if
      all four queries are answered. The old token is gone once the second one is. */
  ghost predicate RefreshEffect(was: Tables, db: Tables, token: string, now: int, raw: string, until: int,
                                answered: nat, r: Outcome)
    requires TablesOk(was)
  {
    var good := token in was.tokens && now <= was.tokens[token].expiresAt;
    && (r == Refused(InvalidRefreshToken) <==> answered >= 1 && !good)
    && (r == Refused(QueryFailed) <==> answered < 1 || (good && answered < 4))
    && db.users == was.users && db.nextUser == was.nextUser && db.invites == was.invites
    && (good && answered >= 4 ==>
          var owner := was.tokens[token].owner;
          && r == Pair(owner, was.users[owner].admin, raw)
          && db.tokens == (was.tokens - {token})[raw := Token(owner, until)])
    && (good && 2 <= answered < 4 ==> db.tokens == was.tokens - {token})
    && (!good || answered < 2 ==> db.tokens == was.tokens)
  }

  lemma RefreshedSays(db: Tables, token: string, now: int, raw: string, until: int, answered: nat)
    requires TablesOk(db)
    ensures var (after, r) := Refreshed(db, token, now, raw, until, answered);
      RefreshEffect(db, after, token, now, raw, until, answered, r)
  {
  }

  /** An invite that is unknown, used or expired is refused; with a usable one, a name that a user
      has is refused as taken, and any other name gets a pair if all seven queries are answered.
      User and used invite come with the sixth, an id of the sequence is gone with the fourth. */
  ghost predicate RegisterEffect(was: Tables, db: Tables, code: string, name: string, now: int, raw: string,
                                 until: int, answered: nat, r: Outcome)
  {
    var good := code in was.invites && was.invites[code].usedBy.None? && now <= was.invites[code].expiresAt;
    var taken := exists u :: u in was.users && was.users[u].name == name;
    var id := was.nextUser;
    && (r == Refused(InviteInvalid) <==> answered < 1 || !good)
    && (r == Refused(UsernameTaken) <==> good && answered >= 3 && (answered == 3 || taken))
    && (r.Pair? <==> good && answered >= 7 && !taken)
    && (r.Pair? ==> r == Pair(id, was.users == map[], raw))
    && (r.Refused? ==> r.error != InvalidRefreshToken)
    && db.nextUser == (if good && answered >= 4 then id + 1 else id)
    && db.tokens == (if r.Pair? then was.tokens[raw := Token(id, until)] else was.tokens)
    && if good && answered >= 6 && !taken then
         && db.users == was.users[id := User(name, was.users == map[])]
         && db.invites == was.invites[code := Invite(was.invites[code].expiresAt, Some(id))]
       else db.users == was.users && db.invites == was.invites
  }

  lemma RegisteredSays(db: Tables, code: string, name: string, now: int, raw: string, until: int, answered: nat)
    ensures var (after, r) := RegisteredAs(db, code, name, now, raw, until, answered);
      RegisterEffect(db, after, code, name, now, raw, until, answered, r)
  {
  }

  // ---------------------------------------------------------------- the service

  class Service {
    var users: map<nat, User>
    var nextUser: nat
    var tokens: map<string, Token>
    var invites: map<string, Invite>

    function Contents(): Tables
      reads this
    {
      Tables(users, nextUser, tokens, invites)
    }

    constructor (db: Tables)
      ensures Contents() == db
    {
      users, nextUser, tokens, invites := db.users, db.nextUser, db.tokens, db.invites;
    }

    /** `generateTokens`; `raw` is the random token. */
    method GenerateTokens(user: nat, admin: bool, raw: string, until: int, answered: bool) returns (r: Outcome)
      modifies this`tokens
      ensures r == if answered then Pair(user, admin, raw) else Refused(QueryFailed)
      ensures tokens == if answered then old(tokens)[raw := Token(user, until)] else old(tokens)
    {
      if !answered {
        return Refused(QueryFailed);
      }
      tokens := tokens[raw := Token(user, until)];
      r := Pair(user, admin, raw);
    }

    method RefreshToken(token: string, now: int, raw: string, until: int, answered: nat) returns (r: Outcome)
      requires TablesOk(Contents()) && raw !in tokens
      modifies this`tokens
      ensures (Contents(), r) == Refreshed(old(Contents()), token, now, raw, until, answered)
      ensures RefreshEffect(old(Contents()), Contents(), token, now, raw, until, answered, r)
      ensures RanAs(old(Contents()), Contents(), Refresh(token), r) && TablesOk(Contents())
    {
      ghost var (after, outcome) := Refreshed(Contents(), token, now, raw, until, answered);
      RefreshIsARun(Contents(), token, now, raw, until, answered);
      RunsKeepTables(Contents(), after, Refresh(token), outcome);
      RefreshedSays(Contents(), token, now, raw, until, answered);
      if answered < 1 {
        return Refused(QueryFailed);
      }
      if token !in tokens || tokens[token].expiresAt < now {
        return Refused(InvalidRefreshToken);
      }
      var owner := tokens[token].owner;
      if answered < 2 {
        return Refused(QueryFailed);
      }
      tokens := tokens - {token};
      if answered < 3 {
        return Refused(QueryFailed);
      }
      r := GenerateTokens(owner, users[owner].admin, raw, until, answered >= 4);
    }

    method Register(code: string, name: string, now: int, raw: string, until: int, answered: nat) returns (r: Outcome)
      requires TablesOk(Contents()) && raw !in tokens
      modifies this
      ensures (Contents(), r) == RegisteredAs(old(Contents()), code, name, now, raw, until, answered)
      ensures RegisterEffect(old(Contents()), Contents(), code, name, now, raw, until, answered, r)
      ensures RanAs(old(Contents()), Contents(), Request.Register(code, name), r) && TablesOk(Contents())
    {
      ghost var (after, outcome) := RegisteredAs(Contents(), code, name, now, raw, until, answered);
      RegisterIsARun(Contents(), code, name, now, raw, until, answered);
      RunsKeepTables(Contents(), after, Request.Register(code, name), outcome);
      RegisteredSays(Contents(), code, name, now, raw, until, answered);
      if answered < 1 || code !in invites || invites[code].usedBy.Some? || invites[code].expiresAt < now {
        return Refused(InviteInvalid);
      }
      if answered < 2 {
        return Refused(QueryFailed);
      }
      var admin := users == map[];
      if answered < 3 {
        return Refused(QueryFailed);
      }
      if answered < 4 {
        return Refused(UsernameTaken);
      }
      var id := nextUser;
      nextUser := nextUser + 1;
      if NameTaken(users, name) {
        return Refused(UsernameTaken);
      }
      if answered < 6 {
        // the transaction is rolled back
        return Refused(QueryFailed);
      }
      users := users[id := User(name, admin)];
      invites := invites[code := invites[code].(usedBy := Some(id))];
      r := GenerateTokens(id, admin, raw, until, answered >= 7);
    }
  }
}
