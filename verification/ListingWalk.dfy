/** A client that pages back through a chat with the message list endpoint: it asks without a
    cursor first, and then for what lies before the last entry it got. */
module ListingWalk {
  import opened Basics
  import opened Ordering
  import opened Store
  import opened History
  import opened Listing

  /** The cursor of the i-th request. */
  function CursorFor(answers: seq<seq<MessageDto>>, i: nat): Cursor
    requires i <= |answers|
  {
    if i == 0 || answers[i - 1] == [] then NoCursor
    else Cursor(answers[i - 1][|answers[i - 1]| - 1].id)
  }

  /** The entries of the first i answers, as they were received. */
  function Joined(answers: seq<seq<MessageDto>>, i: nat): seq<MessageDto>
    requires i <= |answers|
  {
    if i == 0 then [] else Joined(answers, i - 1) + answers[i - 1]
  }

  /** The i-th answer is what the endpoint lists for that request from the tables it finds. */
  ghost predicate Answered(tables: seq<seq<Message>>, attachments: seq<seq<Attachment>>, params: seq<Param>, chat: int,
                           answers: seq<seq<MessageDto>>, i: nat)
    requires i < |tables| == |attachments| == |params| == |answers|
  {
    IsListing(tables[i], attachments[i], chat, params[i], CursorFor(answers, i), answers[i])
  }

  /** The client has not stopped at an empty answer before the n-th. */
  ghost predicate Walks(tables: seq<seq<Message>>, attachments: seq<seq<Attachment>>, params: seq<Param>, chat: int,
                        answers: seq<seq<MessageDto>>, n: nat)
  {
    && n < |tables| == |attachments| == |params| == |answers|
    && (forall i: nat :: i <= n ==> Answered(tables, attachments, params, chat, answers, i))
    && (forall i: nat :: i < n ==> answers[i] != [])
  }

  predicate SameMessage(d: MessageDto, m: Message) {
    d.id == m.id && d.createdAt == m.createdAt
  }

  ghost predicate Matches(dtos: seq<MessageDto>, rows: seq<Message>) {
    |dtos| == |rows| && forall i :: 0 <= i < |dtos| ==> SameMessage(dtos[i], rows[i])
  }

  lemma {:induction false} RowsOf(messages: seq<Message>, table: seq<Attachment>, chat: int, before: Cursor,
                                  dtos: seq<MessageDto>) returns (rows: seq<Message>)
    requires forall i :: 0 <= i < |dtos| ==> ShowsWanted(dtos[i], messages, table, chat, before)
    ensures Matches(dtos, rows) && forall m :: m in rows ==> Wanted(messages, chat, before, m)
  {
    if dtos == [] {
      rows := [];
    } else {
      var n := |dtos| - 1;
      rows := RowsOf(messages, table, chat, before, dtos[..n]);
      assert forall i :: 0 <= i < n ==> dtos[..n][i] == dtos[i];
      assert ShowsWanted(dtos[n], messages, table, chat, before);
      var m :| Wanted(messages, chat, before, m) && Shows(dtos[n], m, table);
      rows := rows + [m];
    }
  }

  /** What is listed is a page of the chat. */
  lemma ListingIsPage(messages: seq<Message>, table: seq<Attachment>, chat: int, limit: Param, before: Cursor,
                      bound: Option<Key>, dtos: seq<MessageDto>) returns (page: seq<Message>)
    requires DistinctIds(messages) && BoundOf(messages, before, bound)
    requires IsListing(messages, table, chat, limit, before, dtos)
    ensures IsPage(messages, chat, bound, AtMost(limit), page) && Matches(dtos, page)
  {
    page := RowsOf(messages, table, chat, before, dtos);
    forall i, j | 0 <= i < j < |page| ensures Less(Newest(page[i]), Newest(page[j])) {
      assert SameMessage(dtos[i], page[i]) && SameMessage(dtos[j], page[j]);
      assert DtoOlder(dtos[j], dtos[i]);
    }
    forall m | m in page ensures m in messages && m.chat == chat && Under(m, bound) {
      WantedIsUnder(messages, chat, before, bound, m);
    }
    forall m | m in messages && m.chat == chat && Under(m, bound) && m !in page
      ensures |page| == AtMost(limit) && (page != [] ==> Less(Newest(page[|page| - 1]), Newest(m)))
    {
      WantedIsUnder(messages, chat, before, bound, m);
      NotListed(messages, chat, before, dtos, page, m);
      if page != [] {
        assert SameMessage(dtos[|page| - 1], page[|page| - 1]);
        assert Precedes(m, dtos[|page| - 1]);
      }
    }
  }

  lemma NotListed(messages: seq<Message>, chat: int, before: Cursor, dtos: seq<MessageDto>, page: seq<Message>,
                  m: Message)
    requires DistinctIds(messages) && Matches(dtos, page) && m in messages && m !in page
    requires forall x :: x in page ==> Wanted(messages, chat, before, x)
    ensures !Lists(dtos, m)
  {
    forall i | 0 <= i < |dtos| ensures dtos[i].id != m.id {
      assert SameMessage(dtos[i], page[i]) && page[i] in page;
      if page[i].id == m.id {
        OneRow(messages, page[i], m);
      }
    }
  }

  /** The client holds `got`, which shows `walked` and ends with the last answer, which shows `page`. */
  ghost predicate Holds(first: seq<Message>, now: seq<Message>, chat: int, got: seq<MessageDto>,
                        last: seq<MessageDto>, walked: seq<Message>, page: seq<Message>)
  {
    && Matches(got, walked) && Matches(last, page)
    && Ascending(walked, Newest) && Caught(first, chat, page, walked) && EndsWith(walked, page)
    && forall m :: m in page ==> m in now
  }

  lemma FirstAnswer(first: seq<Message>, table: seq<Attachment>, chat: int, limit: Param, dtos: seq<MessageDto>)
    returns (page: seq<Message>)
    requires DistinctIds(first) && IsListing(first, table, chat, limit, NoCursor, dtos)
    ensures Holds(first, first, chat, dtos, dtos, page, page)
  {
    page := ListingIsPage(first, table, chat, limit, NoCursor, None, dtos);
    FirstPage(first, chat, AtMost(limit), page);
  }

  /** The row that the next cursor names, as it is now. */
  lemma CursorIsThere(before: seq<Message>, now: seq<Message>, last: seq<MessageDto>, previous: seq<Message>)
    requires Evolves(before, now) && last != [] && Matches(last, previous)
    requires forall m :: m in previous ==> m in before
    ensures BoundOf(now, Cursor(last[|last| - 1].id), Some(Newest(previous[|previous| - 1])))
  {
    var row := previous[|previous| - 1];
    assert SameMessage(last[|last| - 1], row) && row in previous;
    var n := LaterRow(before, now, row);
  }

  /** The next answer is the page below the last row the client got. */
  lemma NextPageOf(before: seq<Message>, now: seq<Message>, table: seq<Attachment>, chat: int, limit: Param,
                   last: seq<MessageDto>, dtos: seq<MessageDto>, previous: seq<Message>)
    returns (page: seq<Message>)
    requires DistinctIds(now) && Evolves(before, now) && last != [] && Matches(last, previous)
    requires forall m :: m in previous ==> m in before
    requires IsListing(now, table, chat, limit, Cursor(last[|last| - 1].id), dtos)
    ensures IsPage(now, chat, Some(Newest(previous[|previous| - 1])), AtMost(limit), page) && Matches(dtos, page)
  {
    CursorIsThere(before, now, last, previous);
    page := ListingIsPage(now, table, chat, limit, Cursor(last[|last| - 1].id),
                          Some(Newest(previous[|previous| - 1])), dtos);
  }

  lemma HoldsMore(first: seq<Message>, before: seq<Message>, now: seq<Message>, chat: int, limit: nat,
                  got: seq<MessageDto>, last: seq<MessageDto>, dtos: seq<MessageDto>,
                  walked: seq<Message>, previous: seq<Message>, page: seq<Message>)
    requires Evolves(first, now) && limit >= 1 && previous != []
    requires Holds(first, before, chat, got, last, walked, previous) && Matches(dtos, page)
    requires IsPage(now, chat, Some(Newest(previous[|previous| - 1])), limit, page)
    ensures Holds(first, now, chat, got + dtos, dtos, walked + page, page)
  {
    NextPage(first, now, chat, walked, previous, limit, page);
    Appended(got, dtos, walked, page);
  }

  lemma Appended(a: seq<MessageDto>, b: seq<MessageDto>, rows: seq<Message>, more: seq<Message>)
    requires Matches(a, rows) && Matches(b, more)
    ensures Matches(a + b, rows + more)
  {
    forall i | 0 <= i < |a + b| ensures SameMessage((a + b)[i], (rows + more)[i]) {
      assert i < |a| ==> SameMessage(a[i], rows[i]);
      assert i >= |a| ==> SameMessage(b[i - |a|], more[i - |a|]);
    }
  }

  lemma NextAnswer(first: seq<Message>, before: seq<Message>, now: seq<Message>, table: seq<Attachment>, chat: int,
                   limit: Param, got: seq<MessageDto>, last: seq<MessageDto>, dtos: seq<MessageDto>,
                   walked: seq<Message>, previous: seq<Message>) returns (page: seq<Message>)
    requires DistinctIds(now) && Evolves(first, now) && Evolves(before, now) && last != []
    requires Holds(first, before, chat, got, last, walked, previous)
    requires IsListing(now, table, chat, limit, Cursor(last[|last| - 1].id), dtos)
    ensures Holds(first, now, chat, got + dtos, dtos, walked + page, page)
  {
    page := NextPageOf(before, now, table, chat, limit, last, dtos, previous);
    HoldsMore(first, before, now, chat, AtMost(limit), got, last, dtos, walked, previous, page);
  }

  /** What one more answer is about. */
  lemma AnswerFollows(tables: seq<seq<Message>>, attachments: seq<seq<Attachment>>, params: seq<Param>, chat: int,
                      answers: seq<seq<MessageDto>>, n: nat)
    requires Mutating(tables) && Walks(tables, attachments, params, chat, answers, n) && n > 0
    ensures Walks(tables, attachments, params, chat, answers, n - 1)
    ensures DistinctIds(tables[n]) && Evolves(tables[0], tables[n]) && Evolves(tables[n - 1], tables[n])
    ensures var last := answers[n - 1];
      && last != []
      && IsListing(tables[n], attachments[n], chat, params[n], Cursor(last[|last| - 1].id), answers[n])
    ensures Joined(answers, n + 1) == Joined(answers, n) + answers[n]
  {
    assert Answered(tables, attachments, params, chat, answers, n);
  }

  lemma WalkStarts(tables: seq<seq<Message>>, attachments: seq<seq<Attachment>>, params: seq<Param>, chat: int,
                   answers: seq<seq<MessageDto>>) returns (page: seq<Message>)
    requires Mutating(tables) && Walks(tables, attachments, params, chat, answers, 0)
    ensures Holds(tables[0], tables[0], chat, Joined(answers, 1), answers[0], page, page)
  {
    assert Answered(tables, attachments, params, chat, answers, 0);
    page := FirstAnswer(tables[0], attachments[0], chat, params[0], answers[0]);
    assert Joined(answers, 1) == [] + answers[0] == answers[0];
  }

  /** The walk as the rows it shows. */
  lemma {:induction false} WalkTo(tables: seq<seq<Message>>, attachments: seq<seq<Attachment>>, params: seq<Param>,
                                  chat: int, answers: seq<seq<MessageDto>>, n: nat)
    returns (walked: seq<Message>, page: seq<Message>)
    requires Mutating(tables) && Walks(tables, attachments, params, chat, answers, n)
    ensures Holds(tables[0], tables[n], chat, Joined(answers, n + 1), answers[n], walked, page)
    decreases n
  {
    if n == 0 {
      page := WalkStarts(tables, attachments, params, chat, answers);
      walked := page;
    } else {
      AnswerFollows(tables, attachments, params, chat, answers, n);
      var before, previous := WalkTo(tables, attachments, params, chat, answers, n - 1);
      page := NextAnswer(tables[0], tables[n - 1], tables[n], attachments[n], chat, params[n], Joined(answers, n),
                         answers[n - 1], answers[n], before, previous);
      walked := before + page;
    }
  }

  /** Whatever is written to the tables between the requests and whatever limits the client sends,
      it gets entries strictly descending in (created_at, id), so none twice, and once an answer
      is empty it has got every message of the chat that was there at its first request. */
  lemma ClientGetsAll(tables: seq<seq<Message>>, attachments: seq<seq<Attachment>>, params: seq<Param>, chat: int,
                      answers: seq<seq<MessageDto>>, n: nat)
    requires Mutating(tables) && Walks(tables, attachments, params, chat, answers, n)
    ensures var got := Joined(answers, n + 1);
      && (forall i, j :: 0 <= i < j < |got| ==> DtoOlder(got[j], got[i]))
      && (answers[n] == [] ==> forall m :: m in tables[0] && m.chat == chat ==> Lists(got, m))
  {
    var walked, page := WalkTo(tables, attachments, params, chat, answers, n);
    var got := Joined(answers, n + 1);
    forall i, j | 0 <= i < j < |got| ensures DtoOlder(got[j], got[i]) {
      assert SameMessage(got[i], walked[i]) && SameMessage(got[j], walked[j]);
      assert Less(Newest(walked[i]), Newest(walked[j]));
    }
    if answers[n] == [] {
      forall m | m in tables[0] && m.chat == chat ensures Lists(got, m) {
        assert Received(walked, m);
        var i :| 0 <= i < |walked| && walked[i].id == m.id;
        assert SameMessage(got[i], walked[i]);
      }
    }
  }
}
