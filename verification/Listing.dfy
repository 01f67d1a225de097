/** The message list endpoint: a page of messages with their attachments fetched in one batch. */
module Listing {
  import opened Basics
  import opened Ordering
  import opened Store
  import opened History

  datatype Attachment = Attachment(
    id: int, messageId: nat, fileName: string, fileSize: int, mimeType: string,
    storagePath: string, thumbnailPath: Option<string>, createdAt: int)

  datatype MessageDto = MessageDto(
    id: nat, chatId: int, senderId: int, content: Option<string>, replyToId: Option<int>,
    createdAt: int, updatedAt: Option<int>, deletedAt: Option<int>, attachments: seq<Attachment>)

  /** The `before` parameter of the request. */
  datatype Cursor = NoCursor | BadCursor | Cursor(id: int)

  datatype Response = Forbidden | BadRequest | InternalError | Listed(dtos: seq<MessageDto>)

  function AttachmentKey(a: Attachment): Key {
    (a.messageId, a.id)
  }

  /** `ListAttachmentsByMessageIDs`. */
  function Batch(table: seq<Attachment>, ids: seq<nat>): seq<Attachment> {
    SortBy(Filter(table, (a: Attachment) => a.messageId in ids), AttachmentKey)
  }

  /** The attachments of one message, in id order. */
  function ForMessage(table: seq<Attachment>, id: nat): seq<Attachment> {
    SortBy(Of(table, id), AttachmentKey)
  }

  function Of(rows: seq<Attachment>, id: nat): seq<Attachment> {
    Filter(rows, (a: Attachment) => a.messageId == id)
  }

  ghost predicate DistinctAttachments(table: seq<Attachment>) {
    forall i, j :: 0 <= i < j < |table| ==> table[i].id != table[j].id
  }

  /** Picking one message's rows out of the batch is looking that message up by itself. */
  lemma BatchHasEachMessage(table: seq<Attachment>, ids: seq<nat>, id: nat)
    requires DistinctAttachments(table)
    ensures Of(Batch(table, ids), id) == if id in ids then ForMessage(table, id) else []
  {
    var p := (a: Attachment) => a.messageId in ids;
    var q := (a: Attachment) => a.messageId == id;
    var batch := Batch(table, ids);
    FilterDistinct(table, p, AttachmentKey);
    FilterDistinct(table, q, AttachmentKey);
    SortAscending(Filter(table, p), AttachmentKey);
    SortAscending(Filter(table, q), AttachmentKey);
    FilterAscending(batch, q, AttachmentKey);
    var want := if id in ids then ForMessage(table, id) else [];
    forall a ensures a in Of(batch, id) <==> a in want {
      FilterElements(batch, q, a);
      SortHas(Filter(table, p), AttachmentKey, a);
      FilterElements(table, p, a);
      SortHas(Filter(table, q), AttachmentKey, a);
      FilterElements(table, q, a);
    }
    AscendingUnique(Of(batch, id), want, AttachmentKey);
  }

  lemma OfSnoc(rows: seq<Attachment>, i: nat, id: nat)
    requires i < |rows|
    ensures Of(rows[..i + 1], id) == Of(rows[..i], id) + if rows[i].messageId == id then [rows[i]] else []
  {
    FilterConcat(rows[..i], [rows[i]], (a: Attachment) => a.messageId == id);
    assert rows[..i + 1] == rows[..i] + [rows[i]];
    assert [rows[i]][1..] == [];
  }

  /** `attachmentsByMessageID`: groups the batch; a message without attachments is absent. */
  method AttachmentsByMessageId(table: seq<Attachment>, ids: seq<nat>) returns (result: map<nat, seq<Attachment>>)
    requires DistinctAttachments(table)
    ensures forall id :: id in result <==> id in ids && ForMessage(table, id) != []
    ensures forall id :: id in result ==> result[id] == ForMessage(table, id)
  {
    if |ids| == 0 {
      return map[];
    }
    var rows := Batch(table, ids);
    result := map[];
    for i := 0 to |rows|
      invariant forall id :: id in result <==> Of(rows[..i], id) != []
      invariant forall id :: id in result ==> result[id] == Of(rows[..i], id)
    {
      var k := rows[i].messageId;
      forall id: nat { OfSnoc(rows, i, id); }
      result := result[k := (if k in result then result[k] else []) + [rows[i]]];
    }
    assert rows[..|rows|] == rows;
    forall id: nat { BatchHasEachMessage(table, ids, id); }
  }

  /** `buildMessageDTO` */
  function BuildDto(m: Message, attachments: seq<Attachment>): MessageDto {
    MessageDto(m.id, m.chat, m.sender, m.content, m.replyTo, m.createdAt, m.updatedAt, m.deletedAt, attachments)
  }

  /** The loops both branches of the endpoint share. */
  method Render(page: seq<Message>, table: seq<Attachment>) returns (dtos: seq<MessageDto>)
    requires DistinctAttachments(table)
    ensures |dtos| == |page|
    ensures forall i :: 0 <= i < |page| ==> dtos[i] == BuildDto(page[i], ForMessage(table, page[i].id))
  {
    var ids := new nat[|page|](_ => 0);
    for i := 0 to |page|
      invariant forall j :: 0 <= j < i ==> ids[j] == page[j].id
    {
      ids[i] := page[i].id;
    }
    var groups := AttachmentsByMessageId(table, ids[..]);
    dtos := [];
    for i := 0 to |page|
      invariant |dtos| == i
      invariant forall j :: 0 <= j < i ==> dtos[j] == BuildDto(page[j], ForMessage(table, page[j].id))
    {
      var id := page[i].id;
      assert ids[..][i] == id;
      dtos := dtos + [BuildDto(page[i], if id in groups then groups[id] else [])];
    }
  }

  function RequestedPage(messages: seq<Message>, chat: int, limit: Param, before: Cursor): seq<Message> {
    // no message has a negative id
    if before.Cursor? then if before.id < 0 then [] else Before(messages, chat, before.id, PageLimit(limit))
    else Latest(messages, chat, PageLimit(limit))
  }

  lemma PageRowsAreMessages(db: Db, chat: int, limit: Param, before: Cursor)
    requires DbOk(db)
    ensures var page := RequestedPage(db.messages, chat, limit, before);
      |page| <= 100 && forall m :: m in page ==> m in db.messages && m.chat == chat
  {
    var messages := db.messages;
    if before.Cursor? && before.id >= 0 {
      var cursor := Found(messages, before.id);
      if cursor != [] {
        PageIs(messages, chat, Some(Newest(cursor[0])), PageLimit(limit));
      }
    } else if !before.Cursor? {
      PageIs(messages, chat, None, PageLimit(limit));
    }
  }

  // ---------------------------------------------------------------- what a response lists

  predicate IsOlder(m: Message, than: Message) {
    m.createdAt < than.createdAt || (m.createdAt == than.createdAt && m.id < than.id)
  }

  predicate DtoOlder(d: MessageDto, than: MessageDto) {
    d.createdAt < than.createdAt || (d.createdAt == than.createdAt && d.id < than.id)
  }

  predicate Precedes(m: Message, d: MessageDto) {
    m.createdAt < d.createdAt || (m.createdAt == d.createdAt && m.id < d.id)
  }

  /** The request asks for message m: it is in the chat, and older than the cursor's message, if
      there is a cursor. */
  ghost predicate Wanted(messages: seq<Message>, chat: int, before: Cursor, m: Message) {
    && m in messages && m.chat == chat
    && (before.Cursor? ==> exists c :: c in messages && c.id == before.id && IsOlder(m, c))
  }

  /** How many rows the request may be answered with. */
  function AtMost(limit: Param): nat {
    match limit
    case Number(n) => if 1 <= n <= 100 then n else 50
    case _ => 50
  }

  /** The entry shows the message, with its own attachments in the order of their ids. */
  ghost predicate Shows(d: MessageDto, m: Message, table: seq<Attachment>) {
    && d.id == m.id && d.chatId == m.chat && d.senderId == m.sender && d.content == m.content
    && d.replyToId == m.replyTo && d.createdAt == m.createdAt && d.updatedAt == m.updatedAt
    && d.deletedAt == m.deletedAt
    && (forall a :: a in d.attachments <==> a in table && a.messageId == m.id)
    && (forall i, j :: 0 <= i < j < |d.attachments| ==> d.attachments[i].id < d.attachments[j].id)
  }

  ghost predicate ShowsWanted(d: MessageDto, messages: seq<Message>, table: seq<Attachment>, chat: int,
                              before: Cursor)
  {
    exists m :: Wanted(messages, chat, before, m) && Shows(d, m, table)
  }

  predicate Lists(dtos: seq<MessageDto>, m: Message) {
    exists i :: 0 <= i < |dtos| && dtos[i].id == m.id
  }

  /** The entries are wanted messages, strictly newest first; there are no more than the limit, and
      a wanted message is missing only when there are that many and it is older than all of them. */
  ghost predicate IsListing(messages: seq<Message>, table: seq<Attachment>, chat: int, limit: Param, before: Cursor,
                            dtos: seq<MessageDto>) {
    && |dtos| <= AtMost(limit)
    && (forall i, j :: 0 <= i < j < |dtos| ==> DtoOlder(dtos[j], dtos[i]))
    && (forall i :: 0 <= i < |dtos| ==> ShowsWanted(dtos[i], messages, table, chat, before))
    && (forall m :: Wanted(messages, chat, before, m) && !Lists(dtos, m) ==>
          |dtos| == AtMost(limit) && forall i :: 0 <= i < |dtos| ==> Precedes(m, dtos[i]))
  }

  /** The bound of the page that a request asks for. */
  ghost predicate BoundOf(messages: seq<Message>, before: Cursor, bound: Option<Key>) {
    match before
    case NoCursor => bound == None
    case BadCursor => false
    case Cursor(id) => exists c :: c in messages && c.id == id && bound == Some(Newest(c))
  }

  lemma WantedIsUnder(messages: seq<Message>, chat: int, before: Cursor, bound: Option<Key>, m: Message)
    requires DistinctIds(messages) && BoundOf(messages, before, bound)
    ensures Wanted(messages, chat, before, m) <==> m in messages && m.chat == chat && Under(m, bound)
  {
    if before.Cursor? {
      var c :| c in messages && c.id == before.id && bound == Some(Newest(c));
      forall d | d in messages && d.id == before.id ensures d == c {
        OneRow(messages, c, d);
      }
    }
  }

  lemma OneRow(messages: seq<Message>, c: Message, d: Message)
    requires DistinctIds(messages) && c in messages && d in messages && c.id == d.id
    ensures c == d
  {
    var i :| 0 <= i < |messages| && messages[i] == c;
    var j :| 0 <= j < |messages| && messages[j] == d;
  }

  lemma DtoShows(m: Message, table: seq<Attachment>)
    requires DistinctAttachments(table)
    ensures Shows(BuildDto(m, ForMessage(table, m.id)), m, table)
  {
    var p := (a: Attachment) => a.messageId == m.id;
    var atts := ForMessage(table, m.id);
    FilterDistinct(table, p, AttachmentKey);
    SortAscending(Of(table, m.id), AttachmentKey);
    forall a ensures a in atts <==> a in table && a.messageId == m.id {
      SortHas(Of(table, m.id), AttachmentKey, a);
      FilterElements(table, p, a);
    }
    forall i, j | 0 <= i < j < |atts| ensures atts[i].id < atts[j].id {
      assert atts[i] in atts && atts[j] in atts;
      assert Less(AttachmentKey(atts[i]), AttachmentKey(atts[j]));
    }
  }

  /** The entries are the rows of the page, each with its attachments. */
  ghost predicate Renders(dtos: seq<MessageDto>, page: seq<Message>, table: seq<Attachment>) {
    |dtos| == |page| && forall i :: 0 <= i < |page| ==> dtos[i] == BuildDto(page[i], ForMessage(table, page[i].id))
  }

  lemma PageListed(messages: seq<Message>, table: seq<Attachment>, chat: int, limit: Param, before: Cursor,
                   bound: Option<Key>, page: seq<Message>, dtos: seq<MessageDto>)
    requires DistinctIds(messages) && DistinctAttachments(table) && BoundOf(messages, before, bound)
    requires IsPage(messages, chat, bound, AtMost(limit), page) && Renders(dtos, page, table)
    ensures IsListing(messages, table, chat, limit, before, dtos)
  {
    forall i | 0 <= i < |dtos| ensures ShowsWanted(dtos[i], messages, table, chat, before) {
      assert page[i] in page;
      WantedIsUnder(messages, chat, before, bound, page[i]);
      DtoShows(page[i], table);
    }
    forall i, j | 0 <= i < j < |dtos| ensures DtoOlder(dtos[j], dtos[i]) {
      assert Less(Newest(page[i]), Newest(page[j]));
    }
    forall m | Wanted(messages, chat, before, m) && !Lists(dtos, m)
      ensures |dtos| == AtMost(limit) && forall i :: 0 <= i < |dtos| ==> Precedes(m, dtos[i])
    {
      WantedIsUnder(messages, chat, before, bound, m);
      MissedIsOlder(messages, chat, bound, AtMost(limit), page, dtos, table, m);
    }
  }

  lemma MissedIsOlder(messages: seq<Message>, chat: int, bound: Option<Key>, limit: nat, page: seq<Message>,
                      dtos: seq<MessageDto>, table: seq<Attachment>, m: Message)
    requires IsPage(messages, chat, bound, limit, page) && Renders(dtos, page, table)
    requires m in messages && m.chat == chat && Under(m, bound) && !Lists(dtos, m)
    ensures |page| == limit && forall i :: 0 <= i < |dtos| ==> Precedes(m, dtos[i])
  {
    forall k | 0 <= k < |page| ensures page[k] != m {
      assert dtos[k].id == page[k].id;
    }
    forall i | 0 <= i < |dtos| ensures Precedes(m, dtos[i]) {
      var last := page[|page| - 1];
      assert i < |page| - 1 ==> Less(Newest(page[i]), Newest(last));
      assert Less(Newest(last), Newest(m));
    }
  }

  /** The requested page is answered by just such a list. */
  lemma RequestedIsListing(db: Db, table: seq<Attachment>, chat: int, limit: Param, before: Cursor,
                           dtos: seq<MessageDto>)
    requires DbOk(db) && DistinctAttachments(table) && !before.BadCursor?
    requires Renders(dtos, RequestedPage(db.messages, chat, limit, before), table)
    ensures IsListing(db.messages, table, chat, limit, before, dtos)
  {
    var messages := db.messages;
    if before.Cursor? && !Exists(messages, before.id) {
      NoSuchCursor(messages, chat, limit, before);
      forall m ensures !Wanted(messages, chat, before, m) {
        assert forall c :: c in messages ==> c.id != before.id;
      }
    } else {
      var bound := None;
      if before.Cursor? {
        var i :| 0 <= i < |messages| && messages[i].id == before.id;
        assert messages[i] in messages;
        CursorKey(messages, before.id, messages[i]);
        bound := Some(Newest(messages[i]));
        assert BoundOf(messages, before, bound);
      }
      PageIs(messages, chat, bound, PageLimit(limit));
      PageListed(messages, table, chat, limit, before, bound, RequestedPage(messages, chat, limit, before), dtos);
    }
  }

  lemma {:induction false} NoneFound(messages: seq<Message>, id: nat)
    requires forall c :: c in messages ==> c.id != id
    ensures Found(messages, id) == []
  {
    if messages != [] {
      assert messages[0] in messages;
      NoneFound(messages[1..], id);
    }
  }

  lemma NoSuchCursor(messages: seq<Message>, chat: int, limit: Param, before: Cursor)
    requires before.Cursor? && !Exists(messages, before.id)
    ensures RequestedPage(messages, chat, limit, before) == []
    ensures forall c :: c in messages ==> c.id != before.id
  {
    forall c | c in messages ensures c.id != before.id {
      var i :| 0 <= i < |messages| && messages[i] == c;
    }
    if before.id >= 0 {
      NoneFound(messages, before.id);
    }
  }

  /** A request with an unknown cursor is answered by an empty list. */
  lemma UnknownCursorListsNothing(messages: seq<Message>, table: seq<Attachment>, chat: int, limit: Param, id: int,
                                  dtos: seq<MessageDto>)
    requires IsListing(messages, table, chat, limit, Cursor(id), dtos)
    requires forall m :: m in messages ==> m.id != id
    ensures dtos == []
  {
    assert forall d :: !ShowsWanted(d, messages, table, chat, Cursor(id));
    assert dtos != [] ==> ShowsWanted(dtos[0], messages, table, chat, Cursor(id));
  }

  ghost function WantedIds(messages: seq<Message>, chat: int, before: Cursor): set<nat> {
    set m | m in messages && Wanted(messages, chat, before, m) :: m.id
  }

  function IdsOf(dtos: seq<MessageDto>): set<nat> {
    set i | 0 <= i < |dtos| :: dtos[i].id
  }

  lemma {:induction false} DistinctCount(dtos: seq<MessageDto>)
    requires forall i, j :: 0 <= i < j < |dtos| ==> dtos[i].id != dtos[j].id
    ensures |IdsOf(dtos)| == |dtos|
  {
    if dtos != [] {
      var n := |dtos| - 1;
      DistinctCount(dtos[..n]);
      forall id ensures id in IdsOf(dtos) <==> id in IdsOf(dtos[..n]) + {dtos[n].id} {
        if id in IdsOf(dtos[..n]) {
          var i :| 0 <= i < n && dtos[..n][i].id == id;
          assert dtos[i].id == id;
        }
        if id in IdsOf(dtos) && id != dtos[n].id {
          var i :| 0 <= i < |dtos| && dtos[i].id == id;
          assert dtos[..n][i].id == id;
        }
      }
      assert dtos[n].id !in IdsOf(dtos[..n]);
      assert IdsOf(dtos) == IdsOf(dtos[..n]) + {dtos[n].id};
    }
  }

  /** There are exactly as many entries as messages wanted, up to the limit. */
  lemma ListingCount(messages: seq<Message>, table: seq<Attachment>, chat: int, limit: Param, before: Cursor,
                     dtos: seq<MessageDto>)
    requires DistinctIds(messages) && IsListing(messages, table, chat, limit, before, dtos)
    ensures var wanted := |WantedIds(messages, chat, before)|;
      |dtos| == if wanted < AtMost(limit) then wanted else AtMost(limit)
  {
    var ids, wanted := IdsOf(dtos), WantedIds(messages, chat, before);
    EntriesDiffer(messages, table, chat, limit, before, dtos);
    DistinctCount(dtos);
    EntriesAreWanted(messages, table, chat, limit, before, dtos);
    SubsetCount(ids, wanted);
    if |dtos| < AtMost(limit) {
      WantedAreListed(messages, table, chat, limit, before, dtos);
      assert ids == wanted;
    }
  }

  lemma EntriesDiffer(messages: seq<Message>, table: seq<Attachment>, chat: int, limit: Param, before: Cursor,
                      dtos: seq<MessageDto>)
    requires DistinctIds(messages) && IsListing(messages, table, chat, limit, before, dtos)
    ensures forall i, j :: 0 <= i < j < |dtos| ==> dtos[i].id != dtos[j].id
  {
    forall i, j | 0 <= i < j < |dtos| ensures dtos[i].id != dtos[j].id {
      assert DtoOlder(dtos[j], dtos[i]);
      if dtos[i].id == dtos[j].id {
        OneTimePerId(messages, table, chat, before, dtos[i], dtos[j]);
      }
    }
  }

  lemma EntriesAreWanted(messages: seq<Message>, table: seq<Attachment>, chat: int, limit: Param, before: Cursor,
                         dtos: seq<MessageDto>)
    requires IsListing(messages, table, chat, limit, before, dtos)
    ensures IdsOf(dtos) <= WantedIds(messages, chat, before)
  {
    forall i | 0 <= i < |dtos| ensures dtos[i].id in WantedIds(messages, chat, before) {
      assert ShowsWanted(dtos[i], messages, table, chat, before);
      var m :| Wanted(messages, chat, before, m) && Shows(dtos[i], m, table);
      assert m in messages;
    }
  }

  lemma WantedAreListed(messages: seq<Message>, table: seq<Attachment>, chat: int, limit: Param, before: Cursor,
                        dtos: seq<MessageDto>)
    requires IsListing(messages, table, chat, limit, before, dtos) && |dtos| < AtMost(limit)
    ensures WantedIds(messages, chat, before) <= IdsOf(dtos)
  {
    forall m | m in messages && Wanted(messages, chat, before, m) ensures m.id in IdsOf(dtos) {
      assert Lists(dtos, m);
      var i :| 0 <= i < |dtos| && dtos[i].id == m.id;
    }
  }

  lemma OneTimePerId(messages: seq<Message>, table: seq<Attachment>, chat: int, before: Cursor, d: MessageDto,
                     e: MessageDto)
    requires DistinctIds(messages) && ShowsWanted(d, messages, table, chat, before)
    requires ShowsWanted(e, messages, table, chat, before) && d.id == e.id
    ensures d.createdAt == e.createdAt
  {
    var m :| Wanted(messages, chat, before, m) && Shows(d, m, table);
    var n :| Wanted(messages, chat, before, n) && Shows(e, n, table);
    OneRow(messages, m, n);
  }

  lemma {:induction false} SubsetCount(a: set<nat>, b: set<nat>)
    requires a <= b
    ensures |a| <= |b|
  {
    if a != {} {
      var x :| x in a;
      SubsetCount(a - {x}, b - {x});
    }
  }

  lemma EmptyExactly(db: Db, table: seq<Attachment>, chat: int, limit: Param, before: Cursor)
    requires DbOk(db) && DistinctAttachments(table) && !before.BadCursor?
    ensures RequestedPage(db.messages, chat, limit, before) == [] <==>
        forall m :: !Wanted(db.messages, chat, before, m)
  {
    var page := RequestedPage(db.messages, chat, limit, before);
    var dtos := seq(|page|, (i: nat) requires i < |page| => BuildDto(page[i], ForMessage(table, page[i].id)));
    RequestedIsListing(db, table, chat, limit, before, dtos);
    assert dtos != [] ==> ShowsWanted(dtos[0], db.messages, table, chat, before);
  }

  /** `ListMessages`, of whose queries the database answers `answered`; the third, for the
      attachments, is not made for an empty page. */
  method ListMessages(db: Db, table: seq<Attachment>, user: int, chat: int, limit: Param, before: Cursor, answered: nat)
    returns (response: Response)
    requires DbOk(db) && DistinctAttachments(table)
    ensures response == Forbidden <==> (chat, user) !in db.members || answered == 0
    ensures response == BadRequest <==> (chat, user) in db.members && answered >= 1 && before == BadCursor
    ensures response == InternalError <==>
              && (chat, user) in db.members && answered >= 1 && before != BadCursor
              && (answered < 2 || (answered < 3 && RequestedPage(db.messages, chat, limit, before) != []))
    ensures response == InternalError <==>
              && (chat, user) in db.members && answered >= 1 && before != BadCursor
              && (answered < 2 || (answered < 3 && exists m :: Wanted(db.messages, chat, before, m)))
    ensures response.Listed? ==> IsListing(db.messages, table, chat, limit, before, response.dtos)
    ensures response.Listed? ==>
              var page := RequestedPage(db.messages, chat, limit, before);
              && |response.dtos| == |page| <= 100
              && forall i :: 0 <= i < |page| ==>
                   && page[i] in db.messages && page[i].chat == chat
                   && response.dtos[i] == BuildDto(page[i], ForMessage(table, page[i].id))
  {
    if answered < 1 || (chat, user) !in db.members {
      return Forbidden;
    }
    if before == BadCursor {
      return BadRequest;
    }
    if answered < 2 {
      return InternalError;
    }
    var page := RequestedPage(db.messages, chat, limit, before);
    EmptyExactly(db, table, chat, limit, before);
    if answered < 3 && page != [] {
      return InternalError;
    }
    PageRowsAreMessages(db, chat, limit, before);
    assert forall i :: 0 <= i < |page| ==> page[i] in page;
    var dtos := Render(page, table);
    RequestedIsListing(db, table, chat, limit, before, dtos);
    response := Listed(dtos);
  }
}
