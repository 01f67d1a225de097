/** The read watermark and the unread count of the chat list. */
module Unread {
  import opened Basics
  import opened Ordering
  import opened Store

  function Watermark(db: Db, chat: int, user: int): nat {
    if (chat, user) in db.watermarks then db.watermarks[(chat, user)] else 0
  }

  predicate Counts(m: Message, chat: int, user: int, mark: nat) {
    m.chat == chat && m.sender != user && m.deletedAt.None? && m.id > mark
  }

  /** The scalar subquery of `ListChatsByUser`. */
  function UnreadCount(db: Db, chat: int, user: int): nat {
    CountAbove(db.messages, chat, user, Watermark(db, chat, user))
  }

  function CountAbove(messages: seq<Message>, chat: int, user: int, mark: nat): nat {
    |Filter(messages, (m: Message) => Counts(m, chat, user, mark))|
  }

  // ---------------------------------------------------------------- the incremental counter

  predicate Accepted(db: Db, op: Op) {
    match op
    case Send(id, chat, sender, content, replyTo, _) =>
      id in db.pending && (chat, sender) in db.members && IsText(content) && RepliesToRow(db.messages, replyTo)
    case Read(chat, user, upTo) => (chat, user) in db.members && Readable(db, chat, user, upTo)
    case _ => true
  }

  /** How one statement changes the unread count a client would keep by itself: a message of
      somebody else adds one unless its id is not above the watermark; deleting a message it
      counts takes one away; reading takes away what the watermark passes; nothing else matters. */
  ghost function Change(db: Db, op: Op, chat: int, user: int): int {
    var mark := Watermark(db, chat, user);
    if !Accepted(db, op) then 0
    else match op
      case Assign => 0
      case Send(id, c, sender, _, _, _) => if c == chat && sender != user && id > mark then 1 else 0
      case Edit(_, _, _) => 0
      case Delete(id, _) =>
        if exists i :: 0 <= i < |db.messages| && db.messages[i].id == id && Counts(db.messages[i], chat, user, mark)
        then -1 else 0
      case Read(c, u, upTo) =>
        if c == chat && u == user then
          -|Filter(db.messages, (m: Message) => Counts(m, chat, user, mark) && m.id <= upTo)|
        else 0
  }

  ghost function Counter(db: Db, ops: seq<Op>, chat: int, user: int): int {
    if ops == [] then UnreadCount(db, chat, user)
    else
      var n := |ops| - 1;
      Counter(db, ops[..n], chat, user) + Change(Run(db, ops[..n]), ops[n], chat, user)
  }

  // ---------------------------------------------------------------- counting

  lemma {:induction false} CountSame(s: seq<Message>, t: seq<Message>, p: Message -> bool, q: Message -> bool)
    requires |s| == |t| && forall i :: 0 <= i < |s| ==> p(s[i]) == q(t[i])
    ensures |Filter(s, p)| == |Filter(t, q)|
  {
    if s != [] {
      assert forall i :: 0 <= i < |s[1..]| ==> s[1..][i] == s[i + 1] && t[1..][i] == t[i + 1];
      CountSame(s[1..], t[1..], p, q);
    }
  }

  lemma {:induction false} CountSplit(s: seq<Message>, p: Message -> bool, q: Message -> bool, r: Message -> bool)
    requires forall m :: m in s ==> (p(m) <==> q(m) || r(m)) && !(q(m) && r(m))
    ensures |Filter(s, p)| == |Filter(s, q)| + |Filter(s, r)|
  {
    if s != [] {
      assert s[0] in s && forall m :: m in s[1..] ==> m in s;
      CountSplit(s[1..], p, q, r);
    }
  }

  /** One element falls out of the count. */
  lemma {:induction false} CountLess(s: seq<Message>, t: seq<Message>, p: Message -> bool, k: nat)
    requires |s| == |t| && k < |s| && p(s[k]) && !p(t[k])
    requires forall i :: 0 <= i < |s| && i != k ==> p(s[i]) == p(t[i])
    ensures |Filter(s, p)| == |Filter(t, p)| + 1
  {
    assert forall i :: 0 <= i < |s[1..]| ==> s[1..][i] == s[i + 1] && t[1..][i] == t[i + 1];
    if k == 0 {
      CountSame(s[1..], t[1..], p, p);
    } else {
      CountLess(s[1..], t[1..], p, k - 1);
    }
  }

  /** By the foreign key a watermark never passes the last id assigned. */
  lemma WatermarkBelowNext(db: Db, chat: int, user: int)
    requires DbOk(db)
    ensures Watermark(db, chat, user) < db.nextId
  {
  }

  lemma SendChange(db: Db, op: Op, chat: int, user: int)
    requires DbOk(db) && op.Send?
    ensures UnreadCount(Step(db, op), chat, user) == UnreadCount(db, chat, user) + Change(db, op, chat, user)
  {
    if Accepted(db, op) {
      var p := (m: Message) => Counts(m, chat, user, Watermark(db, chat, user));
      var d := Step(db, op);
      FilterConcat(db.messages, [d.messages[|db.messages|]], p);
      assert d.messages == db.messages + [d.messages[|db.messages|]];
      assert [d.messages[|db.messages|]][1..] == [];
    }
  }

  lemma EditChange(db: Db, op: Op, chat: int, user: int)
    requires DbOk(db) && op.Edit?
    ensures UnreadCount(Step(db, op), chat, user) == UnreadCount(db, chat, user) + Change(db, op, chat, user)
  {
    var p := (m: Message) => Counts(m, chat, user, Watermark(db, chat, user));
    CountSame(db.messages, Step(db, op).messages, p, p);
  }

  lemma DeleteChange(db: Db, op: Op, chat: int, user: int)
    requires DbOk(db) && op.Delete?
    ensures UnreadCount(Step(db, op), chat, user) == UnreadCount(db, chat, user) + Change(db, op, chat, user)
  {
    var mark := Watermark(db, chat, user);
    var p := (m: Message) => Counts(m, chat, user, mark);
    var d := Step(db, op);
    if i :| 0 <= i < |db.messages| && db.messages[i].id == op.deleted && Counts(db.messages[i], chat, user, mark) {
      CountLess(db.messages, d.messages, p, i);
    } else {
      CountSame(db.messages, d.messages, p, p);
    }
  }

  lemma ReadChange(db: Db, op: Op, chat: int, user: int)
    requires DbOk(db) && op.Read?
    ensures UnreadCount(Step(db, op), chat, user) == UnreadCount(db, chat, user) + Change(db, op, chat, user)
  {
    var mark, d := Watermark(db, chat, user), Step(db, op);
    if Accepted(db, op) && op.readChat == chat && op.user == user {
      var p := (m: Message) => Counts(m, chat, user, mark);
      var q := (m: Message) => Counts(m, chat, user, Watermark(d, chat, user));
      var r := (m: Message) => Counts(m, chat, user, mark) && m.id <= op.upTo;
      CountSplit(db.messages, p, q, r);
    }
  }

  /** Over every run of sends, edits, soft deletes and reads, in any order and with any
      repetitions, the SQL count is what the incremental counter says. */
  lemma {:induction false} UnreadIsIncremental(db: Db, ops: seq<Op>, chat: int, user: int)
    requires DbOk(db)
    ensures UnreadCount(Run(db, ops), chat, user) == Counter(db, ops, chat, user)
  {
    if ops != [] {
      var n := |ops| - 1;
      UnreadIsIncremental(db, ops[..n], chat, user);
      RunOk(db, ops[..n]);
      var before := Run(db, ops[..n]);
      match ops[n] {
        case Assign =>
        case Send(_, _, _, _, _, _) => SendChange(before, ops[n], chat, user);
        case Edit(_, _, _) => EditChange(before, ops[n], chat, user);
        case Delete(_, _) => DeleteChange(before, ops[n], chat, user);
        case Read(_, _, _) => ReadChange(before, ops[n], chat, user);
      }
    }
  }

  /** After any run, a message somebody else sends becomes unread exactly when its id is above what
      the reader has read. */
  lemma MessageCounts(db: Db, ops: seq<Op>, op: Op, chat: int, user: int)
    requires DbOk(db) && op.Send? && Accepted(Run(db, ops), op) && op.chat == chat && op.sender != user
    ensures UnreadCount(Run(db, ops + [op]), chat, user) == UnreadCount(Run(db, ops), chat, user) + 1
       <==> op.sent > Watermark(Run(db, ops), chat, user)
    ensures op.sent <= Watermark(Run(db, ops), chat, user) ==>
              UnreadCount(Run(db, ops + [op]), chat, user) == UnreadCount(Run(db, ops), chat, user)
  {
    RunOk(db, ops);
    assert (ops + [op])[..|ops|] == ops;
    SendChange(Run(db, ops), op, chat, user);
  }

  predicate ReadsChat(op: Op, chat: int, user: int) {
    op.Read? && op.readChat == chat && op.user == user
  }

  lemma {:induction false} WatermarkStays(db: Db, ops: seq<Op>, chat: int, user: int)
    requires forall op :: op in ops ==> !ReadsChat(op, chat, user)
    ensures Watermark(Run(db, ops), chat, user) == Watermark(db, chat, user)
  {
    if ops != [] {
      var n := |ops| - 1;
      assert ops[n] in ops && forall op :: op in ops[..n] ==> op in ops;
      WatermarkStays(db, ops[..n], chat, user);
    }
  }

  /** A message whose id is assigned after the reader's last read is counted, whenever its row
      becomes visible. */
  lemma LaterMessageCounts(db: Db, ops: seq<Op>, more: seq<Op>, op: Op, chat: int, user: int)
    requires DbOk(db) && op.Send? && Accepted(Run(Run(db, ops), more), op) && op.chat == chat && op.sender != user
    requires op.sent >= Run(db, ops).nextId && forall o :: o in more ==> !ReadsChat(o, chat, user)
    ensures UnreadCount(Step(Run(Run(db, ops), more), op), chat, user) ==
        UnreadCount(Run(Run(db, ops), more), chat, user) + 1
  {
    RunOk(db, ops);
    var d := Run(db, ops);
    WatermarkBelowNext(d, chat, user);
    WatermarkStays(d, more, chat, user);
    RunOk(d, more);
    SendChange(Run(d, more), op, chat, user);
  }

  /** Two inserts that overlap: id `a` is taken before id `b`, but b's row becomes visible first and
      is read, and then a's. */
  function Overlapping(db: Db, chat: int, sender: int, user: int, a: nat, b: nat): (Db, Db) {
    var read := Step(Step(db, Send(b, chat, sender, "second", None, 0)), Read(chat, user, b));
    (read, Step(read, Send(a, chat, sender, "first", None, 0)))
  }

  lemma SecondIsRead(db: Db, chat: int, sender: int, user: int, a: nat, b: nat)
    requires DbOk(db) && {(chat, sender), (chat, user)} <= db.members
    requires a < b && a in db.pending && b in db.pending
    ensures var read := Overlapping(db, chat, sender, user, a, b).0;
      DbOk(read) && a in read.pending && read.members == db.members && Watermark(read, chat, user) >= b
  {
    var send, readB := Send(b, chat, sender, "second", None, 0), Read(chat, user, b);
    var sent := Step(db, send);
    StepOk(db, send);
    StepOk(sent, readB);
    assert sent.messages[|db.messages|].id == b;
    assert Exists(sent.messages, b);
  }

  /** From any tables in which two inserts of another member are under way, this leaves a message
      that was never read and is never counted. */
  lemma OverlapIsMissed(db: Db, chat: int, sender: int, user: int, a: nat, b: nat)
    requires DbOk(db) && {(chat, sender), (chat, user)} <= db.members && sender != user
    requires a < b && a in db.pending && b in db.pending
    ensures var (read, after) := Overlapping(db, chat, sender, user, a, b);
      && |after.messages| == |read.messages| + 1
      && after.messages[|read.messages|] == Message(a, chat, sender, Some("first"), None, 0, None, None)
      && UnreadCount(after, chat, user) == UnreadCount(read, chat, user)
  {
    SecondIsRead(db, chat, sender, user, a, b);
    SendChange(Overlapping(db, chat, sender, user, a, b).0, Send(a, chat, sender, "first", None, 0), chat, user);
  }

  /** Two ids are taken just so by two inserts in a row. */
  lemma OverlapStarts(db: Db)
    requires DbOk(db)
    ensures var d := Step(Step(db, Assign), Assign);
      DbOk(d) && db.nextId in d.pending && db.nextId + 1 in d.pending && d.members == db.members
  {
    StepOk(db, Assign);
    StepOk(Step(db, Assign), Assign);
  }

  lemma {:induction false} NoneCounted(s: seq<Message>, p: Message -> bool)
    requires forall i :: 0 <= i < |s| ==> !p(s[i])
    ensures Filter(s, p) == []
  {
    if s != [] {
      NoneCounted(s[1..], p);
    }
  }

  lemma ReadPasses(db: Db, op: Op, chat: int, user: int)
    requires op.Read? && Accepted(db, op) && op.readChat == chat && op.user == user
    requires forall m :: m in db.messages && m.chat == chat ==> m.id <= op.upTo
    ensures UnreadCount(Step(db, op), chat, user) == 0
  {
    var d := Step(db, op);
    var mark := Watermark(d, chat, user);
    assert d.messages == db.messages && mark >= op.upTo;
    forall i | 0 <= i < |d.messages| ensures !Counts(d.messages[i], chat, user, mark) {
      assert d.messages[i] in db.messages;
    }
    NoneCounted(d.messages, (m: Message) => Counts(m, chat, user, mark));
  }

  /** Reading up to the newest message leaves nothing unread, even if an earlier read went
      further. */
  lemma ReadingClears(db: Db, ops: seq<Op>, op: Op, chat: int, user: int)
    requires DbOk(db) && op.Read? && Accepted(Run(db, ops), op) && op.readChat == chat && op.user == user
    requires forall m :: m in Run(db, ops).messages && m.chat == chat ==> m.id <= op.upTo
    ensures UnreadCount(Run(db, ops + [op]), chat, user) == 0
  {
    assert (ops + [op])[..|ops|] == ops;
    assert Run(db, ops + [op]) == Step(Run(db, ops), op);
    ReadPasses(Run(db, ops), op, chat, user);
  }

  // ---------------------------------------------------------------- the watermark

  /** The ids this user has read in this chat, as far as the reads were accepted. */
  function ReadIds(db: Db, ops: seq<Op>, chat: int, user: int): set<int> {
    if ops == [] then {}
    else
      var n := |ops| - 1;
      var op := ops[n];
      ReadIds(db, ops[..n], chat, user)
      + if op.Read? && op.readChat == chat && op.user == user && Accepted(Run(db, ops[..n]), op) then {op.upTo} else {}
  }

  /** The stored watermark is the greatest id ever read, or where it stood before; so neither the
      order of the read events nor their repetition matters. */
  lemma {:induction false} WatermarkIsMaximum(db: Db, ops: seq<Op>, chat: int, user: int)
    ensures var mark, ids := Watermark(Run(db, ops), chat, user), ReadIds(db, ops, chat, user);
      && mark >= Watermark(db, chat, user)
      && (forall x :: x in ids ==> x <= mark)
      && (mark in ids || mark == Watermark(db, chat, user))
  {
    if ops != [] {
      var n := |ops| - 1;
      WatermarkIsMaximum(db, ops[..n], chat, user);
      var before := Run(db, ops[..n]);
      assert Watermark(Step(before, ops[n]), chat, user) >= Watermark(before, chat, user);
      assert forall x :: x in ReadIds(db, ops[..n], chat, user) ==> x <= Watermark(before, chat, user);
    }
  }

  lemma WatermarkForgetsOrder(db: Db, ops: seq<Op>, ops': seq<Op>, chat: int, user: int)
    requires ReadIds(db, ops, chat, user) == ReadIds(db, ops', chat, user)
    ensures Watermark(Run(db, ops), chat, user) == Watermark(Run(db, ops'), chat, user)
  {
    WatermarkIsMaximum(db, ops, chat, user);
    WatermarkIsMaximum(db, ops', chat, user);
  }
}
