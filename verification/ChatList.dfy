/** The chat list: the last message of each chat and the order of the chats. */
module ChatList {
  import opened Basics
  import opened Ordering
  import opened Store
  import opened History
  import Unread

  datatype Chat = Chat(id: int, createdAt: int)

  datatype ChatRow = ChatRow(
    id: int, updatedAt: int, lastMessageId: Option<nat>, lastContent: Option<string>, unread: nat)

  /** The newest message of a chat, found by one scan. */
  function Head(messages: seq<Message>, chat: int): Option<Message> {
    if messages == [] then None
    else
      var n := |messages| - 1;
      var best := Head(messages[..n], chat);
      if messages[n].chat == chat && (best.None? || Less(Newest(messages[n]), Newest(best.value)))
      then Some(messages[n]) else best
  }

  function UpdatedAt(messages: seq<Message>, c: Chat): int {
    var head := Head(messages, c.id);
    if head.Some? then head.value.createdAt else c.createdAt
  }

  /** ORDER BY COALESCE(lm.created_at, c.created_at) DESC, c.id DESC. */
  function Position(messages: seq<Message>): Chat -> Key {
    (c: Chat) => (-UpdatedAt(messages, c), -c.id)
  }

  function Row(db: Db, c: Chat, user: int): ChatRow {
    var head := Head(db.messages, c.id);
    ChatRow(c.id, UpdatedAt(db.messages, c),
            if head.Some? then Some(head.value.id) else None,
            if head.Some? then head.value.content else None,
            Unread.UnreadCount(db, c.id, user))
  }

  function Mine(chats: seq<Chat>, members: set<(int, int)>, user: int): seq<Chat> {
    Filter(chats, (c: Chat) => (c.id, user) in members)
  }

  function InOrder(db: Db, chats: seq<Chat>, user: int): seq<Chat> {
    SortBy(Mine(chats, db.members, user), Position(db.messages))
  }

  /** `ListChatsByUser`. */
  function ListChats(db: Db, chats: seq<Chat>, user: int): seq<ChatRow> {
    var order := InOrder(db, chats, user);
    seq(|order|, (i: nat) requires i < |order| => Row(db, order[i], user))
  }

  // ---------------------------------------------------------------- the head

  lemma {:induction false} HeadIsNewest(messages: seq<Message>, chat: int)
    requires DistinctIds(messages)
    ensures var head := Head(messages, chat);
      && (head.Some? ==> head.value in messages && head.value.chat == chat)
      && (forall m :: m in messages && m.chat == chat ==>
            head.Some? && (m == head.value || Less(Newest(head.value), Newest(m))))
  {
    if messages != [] {
      var n := |messages| - 1;
      HeadIsNewest(messages[..n], chat);
      assert forall m :: m in messages <==> m in messages[..n] || m == messages[n];
      var best := Head(messages[..n], chat);
      if best.Some? {
        var i :| 0 <= i < n && messages[i] == best.value;
        assert messages[i].id != messages[n].id;
      }
    }
  }

  /** `last_message_id` names the first row of the latest page, whatever its limit, and is NULL
      exactly when that page is empty. */
  lemma HeadIsFirstOfLatest(messages: seq<Message>, chat: int, limit: nat)
    requires DistinctIds(messages) && limit >= 1
    ensures var page, head := Latest(messages, chat, limit), Head(messages, chat);
      && (head.None? <==> page == [])
      && (head.Some? ==> page[0] == head.value)
  {
    var page, head := Latest(messages, chat, limit), Head(messages, chat);
    HeadIsNewest(messages, chat);
    PageIs(messages, chat, None, limit);
    if page != [] {
      assert page[0] in page;
    }
    if head.Some? {
      assert head.value in page;
      var i :| 0 <= i < |page| && page[i] == head.value;
      assert i == 0 || Less(Newest(page[0]), Newest(page[i]));
    }
  }

  // ---------------------------------------------------------------- what a row shows

  /** The message is in the chat, and every other one there is older. */
  ghost predicate IsLast(messages: seq<Message>, chat: int, m: Message) {
    && m in messages && m.chat == chat
    && forall n :: n in messages && n.chat == chat && n != m ==>
         n.createdAt < m.createdAt || (n.createdAt == m.createdAt && n.id < m.id)
  }

  /** The messages of others in the chat that are not deleted and above what the user has read. */
  ghost function UnreadOf(db: Db, chat: int, user: int): set<Message> {
    set m | m in db.messages && m.chat == chat && m.sender != user && m.deletedAt.None?
            && m.id > (if (chat, user) in db.watermarks then db.watermarks[(chat, user)] else 0)
  }

  /** The row shows the chat's last message with its time; for a chat without messages nothing, and
      the chat's own time. */
  ghost predicate ShowsChat(db: Db, c: Chat, user: int, row: ChatRow) {
    && row.id == c.id && row.unread == |UnreadOf(db, c.id, user)|
    && (forall m :: IsLast(db.messages, c.id, m) ==>
          && row.updatedAt == m.createdAt && row.lastMessageId == Some(m.id) && row.lastContent == m.content)
    && (forall m :: m in db.messages && m.chat == c.id ==>
          && m.createdAt <= row.updatedAt && row.lastMessageId.Some?
          && exists last :: IsLast(db.messages, c.id, last) && Latest(db.messages, c.id, 1) == [last])
    && ((forall m :: m in db.messages ==> m.chat != c.id) ==>
          row.updatedAt == c.createdAt && row.lastMessageId.None? && row.lastContent.None?)
  }

  ghost predicate ShowsOneOf(db: Db, chats: seq<Chat>, user: int, row: ChatRow) {
    exists c :: c in chats && ShowsChat(db, c, user, row)
  }

  predicate HasRow(rows: seq<ChatRow>, id: int) {
    exists i :: 0 <= i < |rows| && rows[i].id == id
  }

  predicate RowBefore(a: ChatRow, b: ChatRow) {
    b.updatedAt < a.updatedAt || (b.updatedAt == a.updatedAt && b.id < a.id)
  }

  ghost function Those(s: seq<Message>, p: Message -> bool): set<Message> {
    set m | m in s && p(m)
  }

  lemma {:induction false} FilterCount(s: seq<Message>, p: Message -> bool)
    requires DistinctIds(s)
    ensures |Filter(s, p)| == |Those(s, p)|
  {
    if s != [] {
      var x, rest := s[0], s[1..];
      FilterCount(rest, p);
      assert forall m :: m in s <==> m == x || m in rest;
      if p(x) {
        assert Those(s, p) == Those(rest, p) + {x};
      } else {
        assert Those(s, p) == Those(rest, p);
      }
    }
  }

  lemma UnreadIsCount(db: Db, chat: int, user: int)
    requires DistinctIds(db.messages)
    ensures Unread.UnreadCount(db, chat, user) == |UnreadOf(db, chat, user)|
  {
    var mark := Unread.Watermark(db, chat, user);
    var p := (m: Message) => Unread.Counts(m, chat, user, mark);
    FilterCount(db.messages, p);
    assert UnreadOf(db, chat, user) == Those(db.messages, p);
  }

  lemma HeadIsLast(messages: seq<Message>, chat: int, m: Message)
    requires DistinctIds(messages)
    ensures IsLast(messages, chat, m) <==> Head(messages, chat) == Some(m)
  {
    HeadIsNewest(messages, chat);
  }

  lemma RowShowsChat(db: Db, c: Chat, user: int)
    requires DistinctIds(db.messages)
    ensures ShowsChat(db, c, user, Row(db, c, user))
  {
    var row, head := Row(db, c, user), Head(db.messages, c.id);
    UnreadIsCount(db, c.id, user);
    HeadIsNewest(db.messages, c.id);
    HeadIsFirstOfLatest(db.messages, c.id, 1);
    forall m | IsLast(db.messages, c.id, m)
      ensures row.updatedAt == m.createdAt && row.lastMessageId == Some(m.id) && row.lastContent == m.content
    {
      HeadIsLast(db.messages, c.id, m);
    }
    if head.Some? {
      HeadIsLast(db.messages, c.id, head.value);
      assert Latest(db.messages, c.id, 1) == [head.value];
    }
  }

  /** The list has each chat of the user once, by the time of its last message (or its own), the
      latest first, and by id, the greatest first, among equals; and each row shows its chat. */
  lemma ListIsInOrder(db: Db, chats: seq<Chat>, user: int)
    requires DistinctIds(db.messages)
    requires forall i, j :: 0 <= i < j < |chats| ==> chats[i].id != chats[j].id
    ensures var rows := ListChats(db, chats, user);
      && (forall i, j :: 0 <= i < j < |rows| ==> RowBefore(rows[i], rows[j]))
      && (forall c :: c in chats ==> ((c.id, user) in db.members <==> HasRow(rows, c.id)))
      && (forall i :: 0 <= i < |rows| ==> ShowsOneOf(db, chats, user, rows[i]))
  {
    var mine, key := Mine(chats, db.members, user), Position(db.messages);
    FilterDistinct(chats, (c: Chat) => (c.id, user) in db.members, key);
    SortAscending(mine, key);
    var order, rows := InOrder(db, chats, user), ListChats(db, chats, user);
    forall i, j | 0 <= i < j < |rows| ensures RowBefore(rows[i], rows[j]) {
      assert Less(key(order[i]), key(order[j]));
    }
    forall c | c in chats ensures (c.id, user) in db.members <==> HasRow(rows, c.id) {
      ChatIsListed(db, chats, user, c);
    }
    forall i | 0 <= i < |rows| ensures ShowsOneOf(db, chats, user, rows[i]) {
      OrderIsMine(db, chats, user, order[i]);
      RowShowsChat(db, order[i], user);
    }
  }

  lemma OrderIsMine(db: Db, chats: seq<Chat>, user: int, c: Chat)
    ensures c in InOrder(db, chats, user) <==> c in chats && (c.id, user) in db.members
  {
    SortHas(Mine(chats, db.members, user), Position(db.messages), c);
    FilterElements(chats, (x: Chat) => (x.id, user) in db.members, c);
  }

  lemma ChatIsListed(db: Db, chats: seq<Chat>, user: int, c: Chat)
    requires c in chats
    ensures (c.id, user) in db.members <==> HasRow(ListChats(db, chats, user), c.id)
  {
    var order, rows := InOrder(db, chats, user), ListChats(db, chats, user);
    OrderIsMine(db, chats, user, c);
    if c in order {
      var i :| 0 <= i < |order| && order[i] == c;
      assert rows[i].id == c.id;
    }
    if i :| 0 <= i < |rows| && rows[i].id == c.id {
      OrderIsMine(db, chats, user, order[i]);
    }
  }

  /** A message sent later than everything else puts its chat first in the list of each of its
      members, as the last message there. */
  lemma NewMessageComesFirst(db: Db, chats: seq<Chat>, user: int, op: Op, c: Chat)
    requires IdsOk(db) && c in chats && (c.id, user) in db.members
    requires forall i, j :: 0 <= i < j < |chats| ==> chats[i].id != chats[j].id
    requires op.Send? && op.chat == c.id && Unread.Accepted(db, op)
    requires forall m :: m in db.messages ==> m.createdAt < op.now
    requires forall d :: d in chats ==> d.createdAt < op.now
    ensures var rows := ListChats(Step(db, op), chats, user);
      && rows != [] && rows[0].id == c.id && rows[0].updatedAt == op.now && rows[0].lastMessageId == Some(op.sent)
      && rows[0].lastContent == if op.content == "" then None else Some(op.content)
  {
    var d, rows := Step(db, op), ListChats(Step(db, op), chats, user);
    StepKeepsIds(db, op);
    ListIsInOrder(d, chats, user);
    assert HasRow(rows, c.id);
    FirstOfList(db, chats, user, op, c, rows);
    NewIsLast(db, chats, user, op, c, rows[0]);
  }

  lemma FirstOfList(db: Db, chats: seq<Chat>, user: int, op: Op, c: Chat, rows: seq<ChatRow>)
    requires IdsOk(db) && op.Send? && op.chat == c.id && Unread.Accepted(db, op)
    requires forall m :: m in db.messages ==> m.createdAt < op.now
    requires forall d :: d in chats ==> d.createdAt < op.now
    requires HasRow(rows, c.id) && forall i, j :: 0 <= i < j < |rows| ==> RowBefore(rows[i], rows[j])
    requires forall i :: 0 <= i < |rows| ==> ShowsOneOf(Step(db, op), chats, user, rows[i])
    ensures rows[0].id == c.id
  {
    var i :| 0 <= i < |rows| && rows[i].id == c.id;
    NewIsLast(db, chats, user, op, c, rows[i]);
    OldIsEarlier(db, chats, user, op, c, rows[0]);
    assert i > 0 ==> RowBefore(rows[0], rows[i]);
  }

  lemma NewIsLast(db: Db, chats: seq<Chat>, user: int, op: Op, c: Chat, row: ChatRow)
    requires IdsOk(db) && op.Send? && op.chat == c.id && Unread.Accepted(db, op)
    requires forall m :: m in db.messages ==> m.createdAt < op.now
    requires ShowsOneOf(Step(db, op), chats, user, row)
    requires row.id == c.id
    ensures row.updatedAt == op.now && row.lastMessageId == Some(op.sent)
    ensures row.lastContent == if op.content == "" then None else Some(op.content)
  {
    var after := Step(db, op).messages;
    var m := after[|after| - 1];
    assert forall n :: n in after ==> n in db.messages || n == m;
    assert m in after;
    assert IsLast(after, c.id, m);
  }

  lemma OldIsEarlier(db: Db, chats: seq<Chat>, user: int, op: Op, c: Chat, row: ChatRow)
    requires IdsOk(db) && op.Send? && op.chat == c.id && Unread.Accepted(db, op)
    requires forall m :: m in db.messages ==> m.createdAt < op.now
    requires forall d :: d in chats ==> d.createdAt < op.now
    requires ShowsOneOf(Step(db, op), chats, user, row)
    ensures row.id == c.id || row.updatedAt < op.now
  {
    var after := Step(db, op).messages;
    var d :| d in chats && ShowsChat(Step(db, op), d, user, row);
    assert forall n :: n in after ==> n in db.messages || n.chat == c.id;
    if m :| m in after && m.chat == d.id && d.id != c.id {
      var last :| IsLast(after, d.id, last) && Latest(after, d.id, 1) == [last];
    }
  }

  // ---------------------------------------------------------------- edits and deletions

  lemma {:induction false} HeadUnmoved(before: seq<Message>, after: seq<Message>, chat: int)
    requires |before| == |after| && Evolves(before, after)
    ensures var h, h' := Head(before, chat), Head(after, chat);
      && (h.Some? <==> h'.Some?)
      && (h.Some? ==> SameRow(h.value, h'.value))
  {
    if before != [] {
      var n := |before| - 1;
      HeadUnmoved(before[..n], after[..n], chat);
      assert SameRow(before[n], after[n]);
    }
  }

  lemma {:induction false} InsertSameKey<T(!new)>(s: seq<T>, x: T, key: T -> Key, key': T -> Key)
    requires forall y :: key(y) == key'(y)
    ensures InsertBy(s, x, key) == InsertBy(s, x, key')
  {
    if s != [] {
      InsertSameKey(s[1..], x, key, key');
    }
  }

  lemma {:induction false} SortSameKey<T(!new)>(s: seq<T>, key: T -> Key, key': T -> Key)
    requires forall y :: key(y) == key'(y)
    ensures SortBy(s, key) == SortBy(s, key')
  {
    if s != [] {
      SortSameKey(s[1..], key, key');
      InsertSameKey(SortBy(s[1..], key), s[0], key, key');
    }
  }

  /** Edits and soft deletes change neither the last message of any chat nor the order of the
      chats; a deleted last message stays the last one, with its content gone. */
  lemma EditsKeepTheList(db: Db, chats: seq<Chat>, user: int, op: Op)
    requires op.Edit? || op.Delete?
    ensures var before, after := ListChats(db, chats, user), ListChats(Step(db, op), chats, user);
      && |before| == |after|
      && forall i :: 0 <= i < |before| ==> SameEntry(before[i], after[i], op)
  {
    var d := Step(db, op);
    StepEvolves(db, op);
    forall c: Chat ensures Position(d.messages)(c) == Position(db.messages)(c) {
      HeadUnmoved(db.messages, d.messages, c.id);
    }
    SortSameKey(Mine(chats, db.members, user), Position(db.messages), Position(d.messages));
    var order := InOrder(db, chats, user);
    assert InOrder(d, chats, user) == order;
    forall i | 0 <= i < |order| ensures SameEntry(Row(db, order[i], user), Row(d, order[i], user), op) {
      RowUnmoved(db, order[i], user, op);
    }
  }

  /** The entry is as it was, but for the text of a last message that was edited or deleted. */
  predicate SameEntry(before: ChatRow, after: ChatRow, op: Op)
    requires op.Edit? || op.Delete?
  {
    && after.id == before.id
    && after.updatedAt == before.updatedAt
    && after.lastMessageId == before.lastMessageId
    && after.lastContent ==
         if op.Delete? && before.lastMessageId == Some(op.deleted) then None
         else if op.Edit? && before.lastMessageId == Some(op.id) && IsText(op.text) then Some(op.text)
         else before.lastContent
  }

  lemma {:induction false} HeadUpdated(messages: seq<Message>, id: nat, f: Message -> Message, chat: int)
    requires forall m :: SameRow(m, f(m))
    ensures var head := Head(messages, chat);
      Head(UpdateById(messages, id, f), chat)
        == if head.Some? && head.value.id == id then Some(f(head.value)) else head
  {
    if messages != [] {
      var n := |messages| - 1;
      HeadUpdated(messages[..n], id, f, chat);
      assert UpdateById(messages, id, f)[..n] == UpdateById(messages[..n], id, f);
    }
  }

  lemma RowUnmoved(db: Db, c: Chat, user: int, op: Op)
    requires op.Edit? || op.Delete?
    ensures SameEntry(Row(db, c, user), Row(Step(db, op), c, user), op)
  {
    if op.Delete? {
      HeadUpdated(db.messages, op.deleted, (m: Message) => SoftDelete(m, op.when), c.id);
    } else if IsText(op.text) {
      HeadUpdated(db.messages, op.id, (m: Message) => SetContent(m, op.text, op.at), c.id);
    }
  }
}
