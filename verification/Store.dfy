/** The tables behind chats and the statements that change them. */
module Store {
  import opened Basics
  import opened Ordering

  datatype Message = Message(
    id: nat,
    chat: int,
    sender: int,
    content: Option<string>,
    replyTo: Option<int>,
    createdAt: int,
    updatedAt: Option<int>,
    deletedAt: Option<int>)

  /** `messages` are the visible rows in the order in which they became visible; `pending` are
      the ids that inserts still under way have taken from the sequence. */
  datatype Db = Db(
    messages: seq<Message>,
    nextId: nat,
    pending: set<nat>,
    watermarks: map<(int, int), nat>,
    members: set<(int, int)>)

  /** What happens to the tables. An insert takes its id from the sequence (`Assign`) before its
      row becomes visible (`Send`), and inserts overlap, so rows may become visible in another
      order than they got their ids, or their timestamps `now`. */
  datatype Op =
    | Assign
    | Send(sent: nat, chat: int, sender: int, content: string, replyTo: Option<int>, now: int)
    | Edit(id: nat, text: string, at: int)
    | Delete(deleted: nat, when: int)
    | Read(readChat: int, user: int, upTo: int)

  function Found(messages: seq<Message>, id: nat): seq<Message> {
    Filter(messages, (m: Message) => m.id == id)
  }

  predicate Exists(messages: seq<Message>, id: int) {
    exists i :: 0 <= i < |messages| && messages[i].id == id
  }

  function SetContent(m: Message, text: string, at: int): Message {
    m.(content := Some(text), updatedAt := Some(at))
  }

  function SoftDelete(m: Message, when: int): Message {
    m.(content := None, deletedAt := Some(when), updatedAt := Some(when))
  }

  /** `UPDATE … WHERE id = …` */
  function UpdateById(messages: seq<Message>, id: nat, f: Message -> Message): seq<Message> {
    seq(|messages|, (i: nat) requires i < |messages| => if messages[i].id == id then f(messages[i]) else messages[i])
  }

  function Greatest(a: nat, b: int): (r: nat)
    ensures r >= a && r >= b && (r == a || r == b)
  {
    if a < b then b else a
  }

  /** The foreign key of `reply_to_id`. */
  predicate RepliesToRow(messages: seq<Message>, replyTo: Option<int>) {
    replyTo.None? || Exists(messages, replyTo.value)
  }

  /** The foreign key of `last_read_msg_id`: the upsert stores the greater id, so an unknown one
      violates it only when there is no greater one stored. */
  predicate Readable(db: Db, chat: int, user: int, upTo: int) {
    Exists(db.messages, upTo) || ((chat, user) in db.watermarks && upTo <= db.watermarks[(chat, user)])
  }

  /** Text the database takes: it has no place for the character with code 0. */
  predicate IsText(text: string) {
    '\0' !in text
  }

  /** What a statement leaves behind. A send or a read by a non-member, and text the database does
      not take, are refused before they reach the tables; what violates a foreign key leaves no row,
      though the id it took from the sequence is gone. */
  function Step(db: Db, op: Op): Db {
    match op
    case Assign => db.(nextId := db.nextId + 1, pending := db.pending + {db.nextId})
    case Send(id, chat, sender, content, replyTo, now) =>
      if id !in db.pending || (chat, sender) !in db.members || !IsText(content) then db
      else if !RepliesToRow(db.messages, replyTo) then db.(pending := db.pending - {id})
      else
        var m := Message(id, chat, sender, if content == "" then None else Some(content), replyTo, now, None, None);
        db.(messages := db.messages + [m], pending := db.pending - {id})
    case Edit(id, text, at) =>
      if !IsText(text) then db
      else db.(messages := UpdateById(db.messages, id, (m: Message) => SetContent(m, text, at)))
    case Delete(id, when) => db.(messages := UpdateById(db.messages, id, (m: Message) => SoftDelete(m, when)))
    case Read(chat, user, upTo) =>
      if (chat, user) !in db.members || !Readable(db, chat, user, upTo) then db
      else
        var stored := Greatest(if (chat, user) in db.watermarks then db.watermarks[(chat, user)] else 0, upTo);
        db.(watermarks := db.watermarks[(chat, user) := stored])
  }

  function Run(db: Db, ops: seq<Op>): Db {
    if ops == [] then db else Step(Run(db, ops[..|ops| - 1]), ops[|ops| - 1])
  }

  /** Ids are assigned from 1, each once. */
  ghost predicate IdsOk(db: Db) {
    && db.nextId > 0
    && (forall i :: 0 <= i < |db.messages| ==> 0 < db.messages[i].id < db.nextId && db.messages[i].id !in db.pending)
    && (forall i, j :: 0 <= i < j < |db.messages| ==> db.messages[i].id != db.messages[j].id)
    && (forall x :: x in db.pending ==> 0 < x < db.nextId)
  }

  /** And every watermark names a message. */
  ghost predicate DbOk(db: Db) {
    IdsOk(db) && forall k :: k in db.watermarks ==> Exists(db.messages, db.watermarks[k])
  }

  lemma UpdateKeepsIds(messages: seq<Message>, id: nat, f: Message -> Message, x: int)
    requires forall m :: f(m).id == m.id
    ensures Exists(UpdateById(messages, id, f), x) <==> Exists(messages, x)
  {
    var u := UpdateById(messages, id, f);
    if Exists(messages, x) {
      var i :| 0 <= i < |messages| && messages[i].id == x;
      assert u[i].id == x;
    }
    if Exists(u, x) {
      var i :| 0 <= i < |u| && u[i].id == x;
      assert messages[i].id == x;
    }
  }

  /** A message that is there stays there. */
  lemma StepKeepsRows(db: Db, op: Op, x: int)
    requires Exists(db.messages, x)
    ensures Exists(Step(db, op).messages, x)
  {
    match op {
      case Assign =>
      case Send(_, _, _, _, _, _) =>
        var i :| 0 <= i < |db.messages| && db.messages[i].id == x;
        assert i < |Step(db, op).messages|;
        assert Step(db, op).messages[i].id == x;
      case Edit(id, text, at) =>
        if IsText(text) {
          UpdateKeepsIds(db.messages, id, (m: Message) => SetContent(m, text, at), x);
        }
      case Delete(id, when) => UpdateKeepsIds(db.messages, id, (m: Message) => SoftDelete(m, when), x);
      case Read(_, _, _) =>
    }
  }

  lemma StepKeepsIds(db: Db, op: Op)
    requires IdsOk(db)
    ensures IdsOk(Step(db, op))
  {
  }

  lemma StepKeepsMarks(db: Db, op: Op, k: (int, int))
    requires forall m :: m in db.watermarks ==> Exists(db.messages, db.watermarks[m])
    requires k in Step(db, op).watermarks
    ensures Exists(Step(db, op).messages, Step(db, op).watermarks[k])
  {
    var d := Step(db, op);
    if op.Read? {
      assert d.messages == db.messages;
    } else {
      StepKeepsRows(db, op, d.watermarks[k]);
    }
  }

  lemma StepOk(db: Db, op: Op)
    requires DbOk(db)
    ensures DbOk(Step(db, op))
  {
    StepKeepsIds(db, op);
    forall k | k in Step(db, op).watermarks ensures Exists(Step(db, op).messages, Step(db, op).watermarks[k]) {
      StepKeepsMarks(db, op, k);
    }
  }

  lemma {:induction false} RunOk(db: Db, ops: seq<Op>)
    requires DbOk(db)
    ensures DbOk(Run(db, ops))
  {
    if ops != [] {
      RunOk(db, ops[..|ops| - 1]);
      StepOk(Run(db, ops[..|ops| - 1]), ops[|ops| - 1]);
    }
  }

  /** What never changes about a message: its place, its chat and its sender. */
  predicate SameRow(m: Message, n: Message) {
    m.id == n.id && m.chat == n.chat && m.sender == n.sender && m.createdAt == n.createdAt
  }

  /** Every row of `before` is still there, at the same position, and rows are only appended. */
  ghost predicate Evolves(before: seq<Message>, after: seq<Message>) {
    |before| <= |after| && forall i :: 0 <= i < |before| ==> SameRow(before[i], after[i])
  }

  lemma StepEvolves(db: Db, op: Op)
    ensures Evolves(db.messages, Step(db, op).messages)
  {
  }

  lemma {:induction false} RunEvolves(db: Db, ops: seq<Op>)
    ensures Evolves(db.messages, Run(db, ops).messages)
  {
    if ops != [] {
      RunEvolves(db, ops[..|ops| - 1]);
      StepEvolves(Run(db, ops[..|ops| - 1]), ops[|ops| - 1]);
    }
  }

  // ---------------------------------------------------------------- the tables as an object

  class Tables {
    var messages: seq<Message>
    var nextId: nat
    var pending: set<nat>
    var watermarks: map<(int, int), nat>
    var members: set<(int, int)>

    function Contents(): Db
      reads this
    {
      Db(messages, nextId, pending, watermarks, members)
    }

    constructor (members: set<(int, int)>)
      ensures Contents() == Db([], 1, {}, map[], members) && DbOk(Contents())
    {
      this.members := members;
      messages, nextId, pending, watermarks := [], 1, {}, map[];
    }

    /** An insert takes an id from the sequence. */
    method TakeId() returns (id: nat)
      modifies this
      ensures Contents() == Step(old(Contents()), Assign)
      ensures id == old(nextId) && id in pending
    {
      id := nextId;
      nextId := nextId + 1;
      pending := pending + {id};
    }

    /** The insert with that id ends; other statements may have come in between. */
    method FinishInsert(id: nat, chat: int, sender: int, content: string, replyTo: Option<int>, now: int)
      returns (m: Option<Message>)
      requires id in pending
      modifies this
      ensures Contents() == Step(old(Contents()), Send(id, chat, sender, content, replyTo, now))
      ensures m.None? <==>
          || (chat, sender) !in members || '\0' in content
          || (replyTo.Some? && forall i :: 0 <= i < |old(messages)| ==> old(messages)[i].id != replyTo.value)
      ensures m.Some? ==> messages == old(messages) + [m.value]
      ensures m.Some? ==>
        m.value == Message(id, chat, sender, if content == "" then None else Some(content), replyTo, now, None, None)
      ensures m.None? ==> messages == old(messages)
      ensures watermarks == old(watermarks) && members == old(members) && nextId == old(nextId)
    {
      if (chat, sender) !in members || !IsText(content) {
        return None;
      }
      pending := pending - {id};
      if !RepliesToRow(messages, replyTo) {
        return None;
      }
      var row := Message(id, chat, sender, if content == "" then None else Some(content), replyTo, now, None, None);
      messages := messages + [row];
      m := Some(row);
    }

    /** `Service.Send` after `EnsureMember`, with nothing in between: the stored row, or nothing
        for a non-member, text that is refused or a reply to nothing. */
    method CreateMessage(chat: int, sender: int, content: string, replyTo: Option<int>, now: int)
      returns (m: Option<Message>)
      modifies this
      ensures Contents() == if (chat, sender) !in members || !IsText(content) then old(Contents())
                            else Step(Step(old(Contents()), Assign),
                                Send(old(nextId), chat, sender, content, replyTo, now))
      ensures m.None? <==>
          || (chat, sender) !in members || '\0' in content
          || (replyTo.Some? && forall i :: 0 <= i < |old(messages)| ==> old(messages)[i].id != replyTo.value)
      ensures m.Some? ==> messages == old(messages) + [m.value]
      ensures m.Some? ==>
        m.value == Message(old(nextId), chat, sender, if content == "" then None else Some(content), replyTo, now,
                           None, None)
      ensures m.None? ==> messages == old(messages)
      ensures watermarks == old(watermarks) && members == old(members)
    {
      if (chat, sender) !in members || !IsText(content) {
        return None;
      }
      var id := TakeId();
      m := FinishInsert(id, chat, sender, content, replyTo, now);
    }

    /** `UpdateMessageContent`. */
    method UpdateMessageContent(id: nat, text: string, at: int)
      modifies this
      ensures Contents() == Step(old(Contents()), Edit(id, text, at))
      ensures |messages| == |old(messages)| && forall i :: 0 <= i < |messages| ==>
          var was := old(messages)[i];
          messages[i] == if was.id == id && '\0' !in text then was.(content := Some(text), updatedAt := Some(at))
                         else was
    {
      if IsText(text) {
        UpdateRows(id, (m: Message) => SetContent(m, text, at));
      }
    }

    method SoftDeleteMessage(id: nat, when: int)
      modifies this
      ensures Contents() == Step(old(Contents()), Delete(id, when))
      ensures |messages| == |old(messages)| && forall i :: 0 <= i < |messages| ==>
          var was := old(messages)[i];
          messages[i] == if was.id == id then was.(content := None, deletedAt := Some(when), updatedAt := Some(when))
                         else was
    {
      UpdateRows(id, (m: Message) => SoftDelete(m, when));
    }

    method UpdateRows(id: nat, f: Message -> Message)
      modifies this`messages
      ensures messages == UpdateById(old(messages), id, f)
    {
      for i := 0 to |messages|
        invariant |messages| == |old(messages)|
        invariant forall j :: 0 <= j < i ==> messages[j] == UpdateById(old(messages), id, f)[j]
        invariant forall j :: i <= j < |messages| ==> messages[j] == old(messages)[j]
      {
        if messages[i].id == id {
          messages := messages[i := f(messages[i])];
        }
      }
    }

    /** `handleMessageRead` up to the upsert: refused for non-members, and for an id that names no
        message unless a greater one is stored; otherwise the greater of the two is kept. */
    method UpsertMessageRead(chat: int, user: int, upTo: int) returns (stored: bool)
      requires DbOk(Contents())
      modifies this`watermarks
      ensures Contents() == Step(old(Contents()), Read(chat, user, upTo))
      ensures stored <==>
          && (chat, user) in members
          && (|| (exists i :: 0 <= i < |messages| && messages[i].id == upTo)
              || ((chat, user) in old(watermarks) && upTo <= old(watermarks)[(chat, user)]))
      ensures watermarks ==
        if !stored then old(watermarks)
        else if (chat, user) in old(watermarks) && old(watermarks)[(chat, user)] > upTo then old(watermarks)
        else old(watermarks)[(chat, user) := upTo]
    {
      if (chat, user) !in members {
        return false;
      }
      if (chat, user) in watermarks {
        // the conflicting row is updated; the foreign key is checked when its id changes
        var kept := watermarks[(chat, user)];
        stored := upTo <= kept || Exists(messages, upTo);
        if stored {
          watermarks := watermarks[(chat, user) := Greatest(kept, upTo)];
        }
      } else {
        stored := Exists(messages, upTo);
        if stored {
          watermarks := watermarks[(chat, user) := upTo];
        }
      }
    }
  }
}
