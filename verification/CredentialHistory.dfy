/** The tables of tokens and invites, and the outcome of every call, read off the statements of a
    run alone: who created, used and deleted what before whom. */
module CredentialHistory {
  import opened Basics
  import opened Credentials
  import opened CredentialTheorems

  // ---------------------------------------------------------------- what the statements did

  /** An invite with this code and expiry was there from the beginning or has been created. */
  ghost predicate Created(db: Tables, labels: seq<Label>, code: string, until: int) {
    || (code in db.invites && db.invites[code].expiresAt == until)
    || CreateInvite(code, until) in labels
  }

  predicate CommitsAt(labels: seq<Label>, states: seq<State>, code: string, k: nat) {
    && k < |labels| && k < |states| && labels[k].Commit? && labels[k].call < |states[k].calls|
    && states[k].calls[labels[k].call].request.Register? && states[k].calls[labels[k].call].request.code == code
  }

  /** It was used from the beginning or a registration on it has been committed. */
  ghost predicate Used(db: Tables, labels: seq<Label>, states: seq<State>, code: string) {
    (code in db.invites && db.invites[code].usedBy.Some?) || exists k: nat :: CommitsAt(labels, states, code, k)
  }

  predicate MintsAt(labels: seq<Label>, states: seq<State>, t: string, row: Token, k: nat) {
    && k < |labels| && k < |states| && labels[k].CreateToken? && labels[k].raw == t
    && labels[k].call < |states[k].calls| && states[k].calls[labels[k].call].stage.Issuing?
    && row == Token(states[k].calls[labels[k].call].stage.user, labels[k].expiresAt)
  }

  /** The token was there from the beginning or has been handed out to its owner. */
  ghost predicate Minted(db: Tables, labels: seq<Label>, states: seq<State>, t: string, row: Token) {
    (t in db.tokens && db.tokens[t] == row) || exists k: nat :: MintsAt(labels, states, t, row, k)
  }

  predicate DeletesAt(labels: seq<Label>, states: seq<State>, t: string, k: nat) {
    && k < |labels| && k < |states| && labels[k].DeleteToken? && labels[k].call < |states[k].calls|
    && states[k].calls[labels[k].call].request == Refresh(t)
  }

  ghost predicate Deleted(labels: seq<Label>, states: seq<State>, t: string) {
    exists k: nat :: DeletesAt(labels, states, t, k)
  }

  // ---------------------------------------------------------------- one more statement

  lemma MoreCreated(db: Tables, labels: seq<Label>, l: Label, code: string, until: int)
    ensures Created(db, labels + [l], code, until)
        <==> Created(db, labels, code, until) || l == CreateInvite(code, until)
    ensures DeleteInvite(code) in labels + [l] <==> DeleteInvite(code) in labels || l == DeleteInvite(code)
  {
  }

  lemma MoreUsed(db: Tables, labels: seq<Label>, states: seq<State>, l: Label, t: State, code: string)
    requires |states| == |labels| + 1
    ensures Used(db, labels + [l], states + [t], code)
        <==> Used(db, labels, states, code) || CommitsAt(labels + [l], states + [t], code, |labels|)
  {
    var more, longer := labels + [l], states + [t];
    if k: nat :| CommitsAt(labels, states, code, k) {
      assert more[k] == labels[k] && longer[k] == states[k];
      assert CommitsAt(more, longer, code, k);
    }
    if k: nat :| CommitsAt(more, longer, code, k) {
      assert k < |labels| ==> CommitsAt(labels, states, code, k);
    }
  }

  lemma MoreMinted(db: Tables, labels: seq<Label>, states: seq<State>, l: Label, s: State, t: string, row: Token)
    requires |states| == |labels| + 1
    ensures Minted(db, labels + [l], states + [s], t, row)
        <==> Minted(db, labels, states, t, row) || MintsAt(labels + [l], states + [s], t, row, |labels|)
  {
    var more, longer := labels + [l], states + [s];
    if k: nat :| MintsAt(labels, states, t, row, k) {
      assert more[k] == labels[k] && longer[k] == states[k];
      assert MintsAt(more, longer, t, row, k);
    }
    if k: nat :| MintsAt(more, longer, t, row, k) {
      assert k < |labels| ==> MintsAt(labels, states, t, row, k);
    }
  }

  lemma MoreDeleted(labels: seq<Label>, states: seq<State>, l: Label, s: State, t: string)
    requires |states| == |labels| + 1
    ensures Deleted(labels + [l], states + [s], t)
        <==> Deleted(labels, states, t) || DeletesAt(labels + [l], states + [s], t, |labels|)
  {
    var more, longer := labels + [l], states + [s];
    if k: nat :| DeletesAt(labels, states, t, k) {
      assert more[k] == labels[k] && longer[k] == states[k];
      assert DeletesAt(more, longer, t, k);
    }
    if k: nat :| DeletesAt(more, longer, t, k) {
      assert k < |labels| ==> DeletesAt(labels, states, t, k);
    }
  }

  // ---------------------------------------------------------------- the histories say the same

  ghost predicate CodeTold(db: Tables, labels: seq<Label>, states: seq<State>, s: State, code: string) {
    && (forall until :: Created(db, labels, code, until) <==> code in s.codes && s.codes[code].expiresAt == until)
    && (DeleteInvite(code) in labels <==> code in s.codes && s.codes[code].revoked.Some?)
    && (Used(db, labels, states, code) <==> code in s.codes && s.codes[code].used.Some?)
  }

  ghost predicate TokenTold(db: Tables, labels: seq<Label>, states: seq<State>, s: State, t: string) {
    && (forall row :: Minted(db, labels, states, t, row) <==> t in s.minted && s.minted[t].token == row)
    && (Deleted(labels, states, t) <==> t in s.minted && s.minted[t].gone.Some?)
  }

  lemma StepTellsCode(db: Tables, labels: seq<Label>, states: seq<State>, s: State, l: Label, code: string)
    requires Invariant(s) && Enabled(s, l) && CodeTold(db, labels, states, s, code)
    requires |states| == |labels| + 1 && states[|labels|] == s
    ensures CodeTold(db, labels + [l], states + [Apply(s, l)], Apply(s, l), code)
  {
    var t := Apply(s, l);
    var more, longer := labels + [l], states + [t];
    MoreUsed(db, labels, states, l, t, code);
    forall until ensures Created(db, more, code, until) <==> code in t.codes && t.codes[code].expiresAt == until {
      MoreCreated(db, labels, l, code, until);
    }
    MoreCreated(db, labels, l, code, 0);
    assert more[|labels|] == l && longer[|labels|] == s;
    if l.Commit? {
      assert CallOk(s, s.calls[l.call]);
    }
    assert InviteOk(s, code);
  }

  lemma StepTellsToken(db: Tables, labels: seq<Label>, states: seq<State>, s: State, l: Label, t: string)
    requires Invariant(s) && Enabled(s, l) && TokenTold(db, labels, states, s, t)
    requires |states| == |labels| + 1 && states[|labels|] == s
    ensures TokenTold(db, labels + [l], states + [Apply(s, l)], Apply(s, l), t)
  {
    var u := Apply(s, l);
    var more, longer := labels + [l], states + [u];
    MoreDeleted(labels, states, l, u, t);
    forall row ensures Minted(db, more, longer, t, row) <==> t in u.minted && u.minted[t].token == row {
      MoreMinted(db, labels, states, l, u, t, row);
    }
    assert more[|labels|] == l && longer[|labels|] == s;
    if l.DeleteToken? {
      assert CallOk(s, s.calls[l.call]);
    }
  }

  lemma StartTells(db: Tables, code: string, t: string)
    ensures CodeTold(db, [], [Init(db)], Init(db), code) && TokenTold(db, [], [Init(db)], Init(db), t)
  {
  }

  lemma {:induction false} RunTells(db: Tables, labels: seq<Label>, states: seq<State>, s: State, code: string,
                                    t: string)
    requires TablesOk(db) && IsRunBy(Init(db), labels, states, s)
    ensures CodeTold(db, labels, states, s, code) && TokenTold(db, labels, states, s, t)
    decreases |labels|
  {
    if labels == [] {
      assert states == [s];
      StartTells(db, code, t);
    } else {
      var n := |labels| - 1;
      RunByPrefix(Init(db), labels, states, s);
      RunByHolds(db, labels[..n], states[..n + 1], states[n]);
      RunTells(db, labels[..n], states[..n + 1], states[n], code, t);
      StepTellsCode(db, labels[..n], states[..n + 1], states[n], labels[n], code);
      StepTellsToken(db, labels[..n], states[..n + 1], states[n], labels[n], t);
      assert labels == labels[..n] + [labels[n]] && states == states[..n + 1] + [s];
    }
  }

  /** The invites in the table are those created and not deleted, with the expiry they were created
      with, and marked as used exactly when a registration on them has been committed. */
  lemma InviteTable(db: Tables, labels: seq<Label>, states: seq<State>, s: State, code: string)
    requires TablesOk(db) && IsRunBy(Init(db), labels, states, s)
    ensures code in s.db.invites <==>
        (exists until :: Created(db, labels, code, until)) && DeleteInvite(code) !in labels
    ensures code in s.db.invites ==>
        && (forall until :: Created(db, labels, code, until) <==> until == s.db.invites[code].expiresAt)
        && (s.db.invites[code].usedBy.Some? <==> Used(db, labels, states, code))
  {
    RunTells(db, labels, states, s, code, "");
    RunByHolds(db, labels, states, s);
    assert InviteOk(s, code);
    if code in s.codes {
      assert Created(db, labels, code, s.codes[code].expiresAt);
    }
  }

  /** The tokens in the table are those handed out and not deleted, each with its owner and expiry. */
  lemma TokenTable(db: Tables, labels: seq<Label>, states: seq<State>, s: State, t: string)
    requires TablesOk(db) && IsRunBy(Init(db), labels, states, s)
    ensures t in s.db.tokens <==>
        (exists row :: Minted(db, labels, states, t, row)) && !Deleted(labels, states, t)
    ensures t in s.db.tokens ==> forall row :: Minted(db, labels, states, t, row) <==> row == s.db.tokens[t]
  {
    RunTells(db, labels, states, s, "", t);
    RunByHolds(db, labels, states, s);
    if t in s.minted {
      assert MintedOk(s, t);
      assert Minted(db, labels, states, t, s.minted[t].token);
    }
  }

  // ---------------------------------------------------------------- the outcome of a call

  /** Step k of the run reads the invite of call i, and it is good: created, not expired, not used
      and not deleted by any step before. */
  ghost predicate ReadsGoodInvite(db: Tables, labels: seq<Label>, states: seq<State>, i: nat, code: string, k: nat)
    requires k <= |labels| && k < |states|
  {
    && k < |labels| && labels[k].GetInvite? && labels[k].call == i
    && (exists until :: Created(db, labels[..k], code, until) && labels[k].now <= until)
    && DeleteInvite(code) !in labels[..k] && !Used(db, labels[..k], states[..k + 1], code)
  }

  ghost predicate ReadsGoodToken(db: Tables, labels: seq<Label>, states: seq<State>, i: nat, t: string, k: nat)
    requires k <= |labels| && k < |states|
  {
    && k < |labels| && labels[k].GetToken? && labels[k].call == i
    && (exists row :: Minted(db, labels[..k], states[..k + 1], t, row) && labels[k].now <= row.expiresAt)
    && !Deleted(labels[..k], states[..k + 1], t)
  }

  lemma {:induction false} RunToStep(db: Tables, labels: seq<Label>, states: seq<State>, s: State, k: nat)
    requires IsRunBy(Init(db), labels, states, s) && k <= |labels|
    ensures IsRunBy(Init(db), labels[..k], states[..k + 1], states[k])
    decreases |labels|
  {
    var first, before := labels[..k], states[..k + 1];
    forall j: nat | j < |first| ensures Takes(first, before, j) {
      assert Takes(labels, states, j);
    }
  }

  /** How the read ends. */
  lemma InviteRead(db: Tables, labels: seq<Label>, states: seq<State>, s: State, k: nat)
    requires TablesOk(db) && IsRunBy(Init(db), labels, states, s) && k < |labels| && labels[k].GetInvite?
    ensures labels[k].call < |states[k].calls| && labels[k].call < |states[k + 1].calls|
    ensures var i := labels[k].call;
      var x := states[k].calls[i];
      && x.request.Register? && x.stage == Begun
      && states[k + 1].calls[i].stage
           == if ReadsGoodInvite(db, labels, states, i, x.request.code, k) then Invited else Failed(InviteInvalid)
  {
    assert Takes(labels, states, k);
    RunToStep(db, labels, states, s, k);
    InviteTable(db, labels[..k], states[..k + 1], states[k], states[k].calls[labels[k].call].request.code);
  }

  lemma TokenRead(db: Tables, labels: seq<Label>, states: seq<State>, s: State, k: nat)
    requires TablesOk(db) && IsRunBy(Init(db), labels, states, s) && k < |labels| && labels[k].GetToken?
    ensures labels[k].call < |states[k].calls| && labels[k].call < |states[k + 1].calls|
    ensures var i := labels[k].call;
      var x := states[k].calls[i];
      && x.request.Refresh? && x.stage == Begun
      && (states[k + 1].calls[i].stage.Found? <==> ReadsGoodToken(db, labels, states, i, x.request.token, k))
      && (states[k + 1].calls[i].stage.Found? || states[k + 1].calls[i].stage == Failed(InvalidRefreshToken))
  {
    assert Takes(labels, states, k);
    RunToStep(db, labels, states, s, k);
    TokenTable(db, labels[..k], states[..k + 1], states[k], states[k].calls[labels[k].call].request.token);
  }

  predicate Refused(x: Call) {
    x.stage == Failed(InviteInvalid) || x.stage == Failed(InvalidRefreshToken)
  }

  predicate Reads(l: Label, i: nat) {
    (l.GetInvite? || l.GetToken?) && l.call == i
  }

  /** Call i was refused or let through by its read, which was step k. */
  predicate DecidedAt(labels: seq<Label>, states: seq<State>, s: State, i: nat, k: nat) {
    && k < |labels| && k + 1 < |states| && Reads(labels[k], i) && i < |states[k].calls| && i < |states[k + 1].calls|
    && i < |s.calls|
    && states[k].calls[i].request == s.calls[i].request
    && (Refused(s.calls[i]) <==> Refused(states[k + 1].calls[i]))
  }

  ghost predicate Decided(labels: seq<Label>, states: seq<State>, s: State, i: nat) {
    i < |s.calls| && Fault(i) !in labels && s.calls[i].stage != Begun ==>
      exists k: nat :: DecidedAt(labels, states, s, i, k)
  }

  /** After its read a call is not refused as invalid any more, and once refused it stays so. */
  lemma RefusedStays(s: State, l: Label, i: nat)
    requires Invariant(s) && Enabled(s, l) && i < |s.calls| && s.calls[i].stage != Begun && l != Fault(i)
    ensures i < |Apply(s, l).calls| && Apply(s, l).calls[i].request == s.calls[i].request
    ensures Refused(Apply(s, l).calls[i]) <==> Refused(s.calls[i])
  {
    OtherCalls(s, l, i);
    if OfCall(l) && l.call == i {
      OwnStep(s, l);
    }
  }

  lemma StepDecides(labels: seq<Label>, states: seq<State>, s: State, l: Label, i: nat)
    requires Invariant(s) && Enabled(s, l) && Decided(labels, states, s, i)
    requires |states| == |labels| + 1 && states[|labels|] == s
    ensures Decided(labels + [l], states + [Apply(s, l)], Apply(s, l), i)
  {
    var t := Apply(s, l);
    var more, longer := labels + [l], states + [t];
    if i < |t.calls| && Fault(i) !in more && t.calls[i].stage != Begun {
      assert more[|labels|] == l && l != Fault(i);
      if i < |s.calls| && s.calls[i].stage != Begun {
        assert Fault(i) !in labels;
        var k: nat :| DecidedAt(labels, states, s, i, k);
        RefusedStays(s, l, i);
        assert more[k] == labels[k] && longer[k] == states[k] && longer[k + 1] == states[k + 1];
        assert DecidedAt(more, longer, t, i, k);
      } else {
        FirstMove(s, l, i);
        assert longer[|labels|] == s && longer[|labels| + 1] == t;
        assert DecidedAt(more, longer, t, i, |labels|);
      }
    }
  }

  /** The first thing a call does is to read. */
  lemma FirstMove(s: State, l: Label, i: nat)
    requires Enabled(s, l) && i < |Apply(s, l).calls| && Apply(s, l).calls[i].stage != Begun && l != Fault(i)
    requires i < |s.calls| ==> s.calls[i].stage == Begun
    ensures i < |s.calls| && Reads(l, i) && Apply(s, l).calls[i].request == s.calls[i].request
  {
    if i < |s.calls| {
      OtherCalls(s, l, i);
    }
  }

  lemma {:induction false} RunDecides(db: Tables, labels: seq<Label>, states: seq<State>, s: State, i: nat)
    requires TablesOk(db) && IsRunBy(Init(db), labels, states, s)
    ensures Decided(labels, states, s, i)
    decreases |labels|
  {
    if labels != [] {
      var n := |labels| - 1;
      RunByPrefix(Init(db), labels, states, s);
      RunByHolds(db, labels[..n], states[..n + 1], states[n]);
      RunDecides(db, labels[..n], states[..n + 1], states[n], i);
      StepDecides(labels[..n], states[..n + 1], states[n], labels[n], i);
      assert labels == labels[..n] + [labels[n]] && states == states[..n + 1] + [s];
    }
  }

  /** Every refresh that ended without a fault read its token at some step, and succeeded exactly
      when the token had been handed out before that step, had not expired, and no call had deleted
      it by then; otherwise it was refused. */
  lemma RefreshByHistory(db: Tables, labels: seq<Label>, states: seq<State>, s: State, i: nat) returns (k: nat)
    requires TablesOk(db) && IsRunBy(Init(db), labels, states, s) && i < |s.calls| && s.calls[i].request.Refresh?
    requires Finished(s.calls[i]) && Fault(i) !in labels
    ensures k < |labels| && labels[k].GetToken? && labels[k].call == i
    ensures var good := ReadsGoodToken(db, labels, states, i, s.calls[i].request.token, k);
      && (s.calls[i].stage.Done? <==> good)
      && (s.calls[i].stage == Failed(InvalidRefreshToken) <==> !good)
  {
    RunDecides(db, labels, states, s, i);
    k :| DecidedAt(labels, states, s, i, k);
    assert Takes(labels, states, k);
    TokenRead(db, labels, states, s, k);
    RefreshOutcome(db, labels, states, s, i);
  }

  /** Every registration that ended without a fault read its invite at some step: it was refused
      exactly when the invite had not been created before that step, had expired, had been deleted or
      had a committed registration on it by then; otherwise it ended by its name being taken, or in
      success. */
  lemma RegisterByHistory(db: Tables, labels: seq<Label>, states: seq<State>, s: State, i: nat) returns (k: nat)
    requires TablesOk(db) && IsRunBy(Init(db), labels, states, s) && i < |s.calls| && s.calls[i].request.Register?
    requires Finished(s.calls[i]) && Fault(i) !in labels
    ensures k < |labels| && labels[k].GetInvite? && labels[k].call == i
    ensures var good := ReadsGoodInvite(db, labels, states, i, s.calls[i].request.code, k);
      var taken := MetName(labels, states, i, s.calls[i].request.name);
      && (s.calls[i].stage == Failed(InviteInvalid) <==> !good)
      && (s.calls[i].stage == Failed(UsernameTaken) <==> good && taken)
      && (s.calls[i].stage.Done? <==> good && !taken)
  {
    RunDecides(db, labels, states, s, i);
    k :| DecidedAt(labels, states, s, i, k);
    assert Takes(labels, states, k);
    InviteRead(db, labels, states, s, k);
    RegisterOutcome(db, labels, states, s, i);
  }
}
