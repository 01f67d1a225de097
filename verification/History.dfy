/** Message history: keyset pagination. */
module History {
  import opened Basics
  import opened Ordering
  import opened Store

  /** ORDER BY created_at DESC, id DESC, as an ascending key. */
  function Newest(m: Message): Key {
    (-m.createdAt, -(m.id as int))
  }

  function InChat(messages: seq<Message>, chat: int): seq<Message> {
    Filter(messages, (m: Message) => m.chat == chat)
  }

  /** `ListMessagesByChatLatest`. */
  function Latest(messages: seq<Message>, chat: int, limit: nat): seq<Message> {
    Take(SortBy(InChat(messages, chat), Newest), limit)
  }

  /** `ListMessagesByChatBefore`: when the subquery finds no row the comparison is NULL and
      nothing is selected. */
  function Before(messages: seq<Message>, chat: int, id: nat, limit: nat): seq<Message> {
    var cursor := Found(messages, id);
    if cursor == [] then []
    else Take(SortBy(Older(InChat(messages, chat), Newest(cursor[0])), Newest), limit)
  }

  function Older(rows: seq<Message>, bound: Key): seq<Message> {
    Filter(rows, (m: Message) => Less(bound, Newest(m)))
  }

  /** The `limit` parameter of the request: absent, not a 32-bit integer, or a number. */
  datatype Param = Absent | Malformed | Number(n: int)

  function PageLimit(p: Param): (limit: nat)
    ensures 1 <= limit <= 100
  {
    if p.Number? && 0 < p.n <= 100 then p.n else 50
  }

  ghost predicate DistinctIds(messages: seq<Message>) {
    forall i, j :: 0 <= i < j < |messages| ==> messages[i].id != messages[j].id
  }

  // ---------------------------------------------------------------- what one page is

  /** A page that starts below `bound`, or at the newest message when there is none. */
  function PageOf(messages: seq<Message>, chat: int, bound: Option<Key>, limit: nat): seq<Message> {
    match bound
    case None => Latest(messages, chat, limit)
    case Some(k) => Take(SortBy(Older(InChat(messages, chat), k), Newest), limit)
  }

  predicate Under(m: Message, bound: Option<Key>) {
    bound.None? || Less(bound.value, Newest(m))
  }

  /** A page holds rows of its chat below its bound, newest first; it has at most `limit` rows,
      and misses a row below its bound only when it is full and the row is older than its last. */
  ghost predicate IsPage(messages: seq<Message>, chat: int, bound: Option<Key>, limit: nat, page: seq<Message>) {
    && |page| <= limit
    && Ascending(page, Newest)
    && (forall m :: m in page ==> m in messages && m.chat == chat && Under(m, bound))
    && (forall m :: m in messages && m.chat == chat && Under(m, bound) && m !in page ==>
          |page| == limit && (page != [] ==> Less(Newest(page[|page| - 1]), Newest(m))))
  }

  /** The rows a page is taken from, before they are sorted. */
  function Candidates(messages: seq<Message>, chat: int, bound: Option<Key>): seq<Message> {
    match bound
    case None => InChat(messages, chat)
    case Some(k) => Older(InChat(messages, chat), k)
  }

  lemma CandidatesAre(messages: seq<Message>, chat: int, bound: Option<Key>, m: Message)
    ensures m in SortBy(Candidates(messages, chat, bound), Newest) <==>
        m in messages && m.chat == chat && Under(m, bound)
  {
    SortHas(Candidates(messages, chat, bound), Newest, m);
    FilterElements(messages, (m: Message) => m.chat == chat, m);
    if bound.Some? {
      FilterElements(InChat(messages, chat), (m: Message) => Less(bound.value, Newest(m)), m);
    }
  }

  lemma CandidatesAscend(messages: seq<Message>, chat: int, bound: Option<Key>)
    requires DistinctIds(messages)
    ensures Ascending(SortBy(Candidates(messages, chat, bound), Newest), Newest)
  {
    FilterDistinct(messages, (m: Message) => m.chat == chat, Newest);
    if bound.Some? {
      FilterDistinct(InChat(messages, chat), (m: Message) => Less(bound.value, Newest(m)), Newest);
    }
    SortAscending(Candidates(messages, chat, bound), Newest);
  }

  lemma PageIs(messages: seq<Message>, chat: int, bound: Option<Key>, limit: nat)
    requires DistinctIds(messages)
    ensures IsPage(messages, chat, bound, limit, PageOf(messages, chat, bound, limit))
  {
    var all := SortBy(Candidates(messages, chat, bound), Newest);
    var page := PageOf(messages, chat, bound, limit);
    assert page == Take(all, limit);
    CandidatesAscend(messages, chat, bound);
    forall m ensures m in all <==> m in messages && m.chat == chat && Under(m, bound) {
      CandidatesAre(messages, chat, bound, m);
    }
    assert forall k :: 0 <= k < |page| ==> page[k] == all[k] && page[k] in page;
    assert forall m :: m in page ==> m in all;
    forall m | m in all && m !in page
      ensures |page| == limit && (page != [] ==> Less(Newest(page[|page| - 1]), Newest(m)))
    {
      var i :| 0 <= i < |all| && all[i] == m;
      assert i >= limit;
    }
  }

  // ---------------------------------------------------------------- walking back through a chat

  /** The key of the row with this id. */
  lemma CursorKey(messages: seq<Message>, id: nat, m: Message)
    requires DistinctIds(messages) && m in messages && m.id == id
    ensures Found(messages, id) != [] && Found(messages, id)[0] == m
  {
    var f := Found(messages, id);
    FilterElements(messages, (x: Message) => x.id == id, m);
    FilterElements(messages, (x: Message) => x.id == id, f[0]);
    var i :| 0 <= i < |messages| && messages[i] == m;
    var j :| 0 <= j < |messages| && messages[j] == f[0];
  }

  /** The i-th page of a client that starts at the latest page and then asks for what lies before
      the last message it got. Page i is read from `tables[i]` with `limits[i]`. */
  function Page(tables: seq<seq<Message>>, limits: seq<nat>, chat: int, i: nat): seq<Message>
    requires i < |tables| && i < |limits|
  {
    if i == 0 then Latest(tables[0], chat, limits[0])
    else
      var previous := Page(tables, limits, chat, i - 1);
      if previous == [] then []
      else Before(tables[i], chat, previous[|previous| - 1].id, limits[i])
  }

  /** All rows of the first i pages, in the order they were received. */
  function Walked(tables: seq<seq<Message>>, limits: seq<nat>, chat: int, i: nat): seq<Message>
    requires i <= |tables| && i <= |limits|
  {
    if i == 0 then [] else Walked(tables, limits, chat, i - 1) + Page(tables, limits, chat, i - 1)
  }

  /** The table only evolves by the statements of module Store between two fetches. */
  ghost predicate Mutating(tables: seq<seq<Message>>) {
    && (forall i :: 0 <= i < |tables| ==> DistinctIds(tables[i]))
    && (forall i, j :: 0 <= i <= j < |tables| ==> Evolves(tables[i], tables[j]))
  }

  ghost predicate Limits(limits: seq<nat>) {
    forall i :: 0 <= i < |limits| ==> 1 <= limits[i] <= 100
  }

  lemma LaterRow(before: seq<Message>, after: seq<Message>, m: Message) returns (n: Message)
    requires Evolves(before, after) && m in before
    ensures n in after && SameRow(m, n) && Newest(n) == Newest(m)
  {
    var i :| 0 <= i < |before| && before[i] == m;
    n := after[i];
  }

  /** Page i is the page below the last row of page i - 1, as it was when that was fetched. */
  ghost predicate Continues(tables: seq<seq<Message>>, limits: seq<nat>, chat: int, i: nat)
    requires 0 < i < |tables| && i < |limits|
  {
    var previous := Page(tables, limits, chat, i - 1);
    previous != [] ==>
      Page(tables, limits, chat, i) == PageOf(tables[i], chat, Some(Newest(previous[|previous| - 1])), limits[i])
  }

  lemma PageBound(tables: seq<seq<Message>>, limits: seq<nat>, chat: int, i: nat)
    requires Mutating(tables) && 0 < i < |tables| && i < |limits|
    ensures Continues(tables, limits, chat, i)
  {
    var previous := Page(tables, limits, chat, i - 1);
    if previous != [] {
      var last := previous[|previous| - 1];
      PageRows(tables, limits, chat, i - 1, last);
      assert Evolves(tables[i - 1], tables[i]);
      var n := LaterRow(tables[i - 1], tables[i], last);
      CursorKey(tables[i], last.id, n);
    }
  }

  lemma {:induction false} PageRows(tables: seq<seq<Message>>, limits: seq<nat>, chat: int, i: nat, m: Message)
    requires Mutating(tables) && i < |tables| && i < |limits| && m in Page(tables, limits, chat, i)
    ensures m in tables[i] && m.chat == chat
  {
    if i == 0 {
      PageIs(tables[0], chat, None, limits[0]);
    } else {
      var previous := Page(tables, limits, chat, i - 1);
      var cursor := Found(tables[i], previous[|previous| - 1].id);
      PageIs(tables[i], chat, Some(Newest(cursor[0])), limits[i]);
    }
  }

  /** The client holds every row of the chat in the first table that is not older than the last
      row of the page it has just received. */
  ghost predicate Caught(first: seq<Message>, chat: int, page: seq<Message>, walked: seq<Message>) {
    forall m :: m in first && m.chat == chat && (page == [] || !Less(Newest(page[|page| - 1]), Newest(m)))
      ==> Received(walked, m)
  }

  ghost predicate EndsWith(walked: seq<Message>, page: seq<Message>) {
    page != [] ==> walked != [] && walked[|walked| - 1] == page[|page| - 1]
  }

  lemma FirstPage(first: seq<Message>, chat: int, limit: nat, page: seq<Message>)
    requires IsPage(first, chat, None, limit, page) && limit >= 1
    ensures Caught(first, chat, page, page)
  {
    forall m | m in first && m.chat == chat && (page == [] || !Less(Newest(page[|page| - 1]), Newest(m)))
      ensures Received(page, m)
    {
      assert m in page;
    }
  }

  lemma NextPage(first: seq<Message>, now: seq<Message>, chat: int, walked: seq<Message>, previous: seq<Message>,
                 limit: nat, page: seq<Message>)
    requires Evolves(first, now) && limit >= 1 && previous != []
    requires Ascending(walked, Newest) && Caught(first, chat, previous, walked) && EndsWith(walked, previous)
    requires IsPage(now, chat, Some(Newest(previous[|previous| - 1])), limit, page)
    ensures Ascending(walked + page, Newest) && Caught(first, chat, page, walked + page)
  {
    var bound := Newest(previous[|previous| - 1]);
    JoinPages(walked, page, bound);
    forall m | m in first && m.chat == chat && (page == [] || !Less(Newest(page[|page| - 1]), Newest(m)))
      ensures Received(walked + page, m)
    {
      if Less(bound, Newest(m)) {
        var n := LaterRow(first, now, m);
        assert n in page;
        ReceivedIn(walked, page, m, n);
      } else {
        assert Received(walked, m);
        ReceivedEarlier(walked, page, m);
      }
    }
  }

  ghost predicate WalkOk(tables: seq<seq<Message>>, limits: seq<nat>, chat: int, i: nat) {
    && i < |tables| && i < |limits|
    && Ascending(Walked(tables, limits, chat, i + 1), Newest)
    && Caught(tables[0], chat, Page(tables, limits, chat, i), Walked(tables, limits, chat, i + 1))
    && EndsWith(Walked(tables, limits, chat, i + 1), Page(tables, limits, chat, i))
  }

  lemma WalkBegins(tables: seq<seq<Message>>, limits: seq<nat>, chat: int)
    requires Mutating(tables) && Limits(limits) && 0 < |tables| && 0 < |limits|
    ensures WalkOk(tables, limits, chat, 0)
  {
    var page := Page(tables, limits, chat, 0);
    PageIs(tables[0], chat, None, limits[0]);
    FirstPage(tables[0], chat, limits[0], page);
    assert Walked(tables, limits, chat, 0) == [];
    assert Walked(tables, limits, chat, 1) == page;
  }

  /** One more page, when there was a page to continue from. */
  lemma PageJoins(tables: seq<seq<Message>>, limits: seq<nat>, chat: int, i: nat, walked: seq<Message>,
            previous: seq<Message>)
    requires 0 < i < |tables| && i < |limits| && limits[i] >= 1
    requires Evolves(tables[0], tables[i]) && DistinctIds(tables[i]) && Continues(tables, limits, chat, i)
    requires previous == Page(tables, limits, chat, i - 1) != []
    requires Ascending(walked, Newest) && Caught(tables[0], chat, previous, walked) && EndsWith(walked, previous)
    ensures var page := Page(tables, limits, chat, i);
      Ascending(walked + page, Newest) && Caught(tables[0], chat, page, walked + page)
  {
    var page := Page(tables, limits, chat, i);
    var bound := Some(Newest(previous[|previous| - 1]));
    assert page == PageOf(tables[i], chat, bound, limits[i]);
    PageIs(tables[i], chat, bound, limits[i]);
    NextPage(tables[0], tables[i], chat, walked, previous, limits[i], page);
  }

  lemma WalkGoesOn(tables: seq<seq<Message>>, limits: seq<nat>, chat: int, i: nat)
    requires 0 < i < |tables| && i < |limits| && limits[i] >= 1
    requires Evolves(tables[0], tables[i]) && DistinctIds(tables[i])
    requires WalkOk(tables, limits, chat, i - 1) && Continues(tables, limits, chat, i)
    ensures WalkOk(tables, limits, chat, i)
  {
    var previous, walked := Page(tables, limits, chat, i - 1), Walked(tables, limits, chat, i);
    if previous == [] {
      assert walked + [] == walked;
    } else {
      PageJoins(tables, limits, chat, i, walked, previous);
    }
  }

  lemma {:induction false} WalkKeeps(tables: seq<seq<Message>>, limits: seq<nat>, chat: int, i: nat)
    requires Mutating(tables) && Limits(limits) && i < |tables| && i < |limits|
    ensures WalkOk(tables, limits, chat, i)
  {
    if i == 0 {
      WalkBegins(tables, limits, chat);
    } else {
      WalkKeeps(tables, limits, chat, i - 1);
      PageBound(tables, limits, chat, i);
      assert Evolves(tables[0], tables[i]);
      WalkGoesOn(tables, limits, chat, i);
    }
  }

  /** The client has received the message (in some version). */
  ghost predicate Received(walked: seq<Message>, m: Message) {
    exists i :: 0 <= i < |walked| && walked[i].id == m.id
  }

  lemma ReceivedIn(walked: seq<Message>, page: seq<Message>, m: Message, n: Message)
    requires n in page && n.id == m.id
    ensures Received(walked + page, m)
  {
    var i :| 0 <= i < |page| && page[i] == n;
    assert (walked + page)[|walked| + i].id == m.id;
  }

  lemma ReceivedEarlier(walked: seq<Message>, page: seq<Message>, m: Message)
    requires Received(walked, m)
    ensures Received(walked + page, m)
  {
    var i :| 0 <= i < |walked| && walked[i].id == m.id;
    assert (walked + page)[i].id == m.id;
  }

  lemma JoinPages(walked: seq<Message>, page: seq<Message>, bound: Key)
    requires Ascending(walked, Newest) && Ascending(page, Newest)
    requires walked != [] && Newest(walked[|walked| - 1]) == bound
    requires forall m :: m in page ==> Less(bound, Newest(m))
    ensures Ascending(walked + page, Newest)
  {
    forall j | 0 <= j < |page| ensures Less(bound, Newest(page[j])) {
      assert page[j] in page;
    }
  }

  /** Paging is complete under mutation: whatever is inserted, edited or soft-deleted between the
      fetches and whatever limits the client asks for, it receives rows strictly descending in
      (created_at, id), so none twice, and when it gets an empty page it has received every
      message of the chat that was there at its first fetch. */
  lemma PagingIsComplete(tables: seq<seq<Message>>, limits: seq<nat>, chat: int, n: nat)
    requires Mutating(tables) && Limits(limits) && n < |tables| && n < |limits|
    ensures var walked := Walked(tables, limits, chat, n + 1);
      && (forall i, j :: 0 <= i < j < |walked| ==>
            || walked[j].createdAt < walked[i].createdAt
            || (walked[j].createdAt == walked[i].createdAt && walked[j].id < walked[i].id))
      && (Page(tables, limits, chat, n) == [] ==>
            forall m :: m in tables[0] && m.chat == chat ==> Received(walked, m))
  {
    WalkKeeps(tables, limits, chat, n);
    var walked := Walked(tables, limits, chat, n + 1);
    forall i, j | 0 <= i < j < |walked|
      ensures walked[j].createdAt < walked[i].createdAt
        || (walked[j].createdAt == walked[i].createdAt && walked[j].id < walked[i].id)
    {
      assert Less(Newest(walked[i]), Newest(walked[j]));
    }
  }

  /** The tables seen between the statements of a run are such tables. */
  lemma RunsMutate(db: Db, runs: seq<seq<Op>>, tables: seq<seq<Message>>)
    requires DbOk(db) && |tables| == |runs|
    requires forall i :: 0 <= i < |runs| ==> tables[i] == Run(db, runs[i]).messages
    requires forall i, j :: 0 <= i <= j < |runs| ==> runs[i] <= runs[j]
    ensures Mutating(tables)
  {
    forall i | 0 <= i < |tables| ensures DistinctIds(tables[i]) {
      RunOk(db, runs[i]);
    }
    forall i, j | 0 <= i <= j < |tables| ensures Evolves(tables[i], tables[j]) {
      RunSplit(db, runs[i], runs[j][|runs[i]|..]);
      assert runs[j] == runs[i] + runs[j][|runs[i]|..];
      RunEvolves(Run(db, runs[i]), runs[j][|runs[i]|..]);
    }
  }

  lemma {:induction false} RunSplit(db: Db, a: seq<Op>, b: seq<Op>)
    ensures Run(db, a + b) == Run(Run(db, a), b)
  {
    if b == [] {
      assert a + b == a;
    } else {
      var n := |b| - 1;
      assert (a + b)[..|a + b| - 1] == a + b[..n];
      RunSplit(db, a, b[..n]);
    }
  }

  // ---------------------------------------------------------------- a table that does not change

  function Total(limits: seq<nat>, i: nat): nat
    requires i <= |limits|
  {
    if i == 0 then 0 else Total(limits, i - 1) + limits[i - 1]
  }

  function Min(a: nat, b: nat): nat {
    if a < b then a else b
  }

  function Slice<T>(s: seq<T>, from: nat, to: nat): seq<T>
    requires from <= to
  {
    s[Min(from, |s|)..Min(to, |s|)]
  }

  /** Over a fixed table page i is the next slice of the full sorted list. */
  ghost predicate IsSlice(all: seq<Message>, tables: seq<seq<Message>>, limits: seq<nat>, chat: int, i: nat)
    requires i < |tables| == |limits|
  {
    Page(tables, limits, chat, i) == Slice(all, Total(limits, i), Total(limits, i + 1))
  }

  lemma FirstSlice(all: seq<Message>, tables: seq<seq<Message>>, limits: seq<nat>, chat: int)
    requires 0 < |tables| == |limits| && all == SortBy(InChat(tables[0], chat), Newest)
    ensures IsSlice(all, tables, limits, chat, 0)
  {
    assert Total(limits, 1) == Total(limits, 0) + limits[0];
  }

  /** The subquery for a row of the sorted list finds that row. */
  lemma CursorInTable(all: seq<Message>, table: seq<Message>, chat: int, last: Message)
    requires DistinctIds(table) && all == SortBy(InChat(table, chat), Newest) && last in all
    ensures Found(table, last.id) != [] && Found(table, last.id)[0] == last
  {
    SortHas(InChat(table, chat), Newest, last);
    FilterElements(table, (m: Message) => m.chat == chat, last);
    CursorKey(table, last.id, last);
  }

  lemma NextSlice(all: seq<Message>, tables: seq<seq<Message>>, limits: seq<nat>, chat: int, i: nat)
    requires 0 < i < |tables| == |limits| && all == SortBy(InChat(tables[i], chat), Newest)
    requires DistinctIds(tables[i]) && limits[i - 1] >= 1 && IsSlice(all, tables, limits, chat, i - 1)
    ensures IsSlice(all, tables, limits, chat, i)
  {
    var from, to := Total(limits, i - 1), Total(limits, i);
    assert Total(limits, i + 1) == to + limits[i];
    var previous := Page(tables, limits, chat, i - 1);
    if previous != [] {
      CursorInTable(all, tables[i], chat, previous[|previous| - 1]);
      FixedNext(tables[i], chat, previous, from, to, limits[i]);
    }
  }

  lemma {:induction false} FixedPages(all: seq<Message>, table: seq<Message>, tables: seq<seq<Message>>,
            limits: seq<nat>, chat: int, i: nat)
    requires i < |tables| == |limits| && Limits(limits) && DistinctIds(table)
    requires forall k :: 0 <= k < |tables| ==> tables[k] == table
    requires all == SortBy(InChat(table, chat), Newest)
    ensures IsSlice(all, tables, limits, chat, i)
  {
    if i == 0 {
      FirstSlice(all, tables, limits, chat);
    } else {
      FixedPages(all, table, tables, limits, chat, i - 1);
      NextSlice(all, tables, limits, chat, i);
    }
  }

  lemma WalkSlice(all: seq<Message>, tables: seq<seq<Message>>, limits: seq<nat>, chat: int, i: nat)
    requires i < |tables| == |limits| && IsSlice(all, tables, limits, chat, i)
    requires Walked(tables, limits, chat, i) == all[..Min(Total(limits, i), |all|)]
    ensures Walked(tables, limits, chat, i + 1) == all[..Min(Total(limits, i + 1), |all|)]
  {
    var from, to := Min(Total(limits, i), |all|), Min(Total(limits, i + 1), |all|);
    assert all[..from] + all[from..to] == all[..to];
  }

  lemma {:induction false} FixedWalk(all: seq<Message>, tables: seq<seq<Message>>, limits: seq<nat>, chat: int, i: nat)
    requires i <= |tables| == |limits| && forall k :: 0 <= k < i ==> IsSlice(all, tables, limits, chat, k)
    ensures Walked(tables, limits, chat, i) == all[..Min(Total(limits, i), |all|)]
  {
    if i > 0 {
      FixedWalk(all, tables, limits, chat, i - 1);
      WalkSlice(all, tables, limits, chat, i - 1);
    }
  }

  lemma {:induction false} TotalGrows(limits: seq<nat>, i: nat)
    requires i <= |limits| && Limits(limits)
    ensures i <= Total(limits, i)
  {
    if i > 0 {
      TotalGrows(limits, i - 1);
    }
  }

  lemma FixedEnds(all: seq<Message>, tables: seq<seq<Message>>, limits: seq<nat>, chat: int)
    requires |all| < |tables| == |limits| && Limits(limits)
    requires forall k :: 0 <= k <= |all| ==> IsSlice(all, tables, limits, chat, k)
    ensures Walked(tables, limits, chat, |all|) == all && Page(tables, limits, chat, |all|) == []
  {
    TotalGrows(limits, |all|);
    FixedWalk(all, tables, limits, chat, |all|);
    assert IsSlice(all, tables, limits, chat, |all|);
    assert all[..|all|] == all;
  }

  lemma FixedNext(table: seq<Message>, chat: int, previous: seq<Message>, from: nat, to: nat, limit: nat)
    requires DistinctIds(table) && from <= to && previous != []
    requires previous == Slice(SortBy(InChat(table, chat), Newest), from, to)
    ensures PageOf(table, chat, Some(Newest(previous[|previous| - 1])), limit)
         == Slice(SortBy(InChat(table, chat), Newest), to, to + limit)
  {
    var all := SortBy(InChat(table, chat), Newest);
    var n := Min(to, |all|);
    assert previous[|previous| - 1] == all[n - 1];
    RestOfSorted(table, chat, n);
    TakeIsSlice(all, to, limit);
  }

  lemma TakeIsSlice<T>(s: seq<T>, from: nat, limit: nat)
    ensures Take(s[Min(from, |s|)..], limit) == Slice(s, from, from + limit)
  {
    if |s| - Min(from, |s|) > limit {
      assert s[from..][..limit] == s[from..from + limit];
    }
  }

  /** What lies below the n-th row of the sorted list is the rest of it. */
  lemma RestOfSorted(table: seq<Message>, chat: int, n: nat)
    requires DistinctIds(table) && 0 < n <= |SortBy(InChat(table, chat), Newest)|
    ensures var all := SortBy(InChat(table, chat), Newest);
      SortBy(Older(InChat(table, chat), Newest(all[n - 1])), Newest) == all[n..]
  {
    var rows := InChat(table, chat);
    var all := SortBy(rows, Newest);
    var bound := Newest(all[n - 1]);
    var older := Older(rows, bound);
    FilterDistinct(table, (m: Message) => m.chat == chat, Newest);
    FilterDistinct(rows, (m: Message) => Less(bound, Newest(m)), Newest);
    SortAscending(rows, Newest);
    SortAscending(older, Newest);
    forall m ensures m in SortBy(older, Newest) <==> m in all[n..] {
      SortHas(older, Newest, m);
      FilterElements(rows, (m: Message) => Less(bound, Newest(m)), m);
      SortHas(rows, Newest, m);
      if m in all[n..] {
        var i :| 0 <= i < |all[n..]| && all[n..][i] == m;
        assert all[n + i] == m;
      }
      if m in all && Less(bound, Newest(m)) {
        var i :| 0 <= i < |all| && all[i] == m;
        assert i >= n;
        assert all[n..][i - n] == m;
      }
    }
    AscendingUnique(SortBy(older, Newest), all[n..], Newest);
  }

  /** Over a fixed table, whatever the limits, as many pages as the chat has messages bring the
      full list, sorted, and the next page is empty. */
  lemma FixedTablePaging(table: seq<Message>, limits: seq<nat>, chat: int)
    requires DistinctIds(table) && Limits(limits) && |InChat(table, chat)| < |limits|
    ensures var tables := seq(|limits|, (k: nat) => table);
      var n := |InChat(table, chat)|;
      && Walked(tables, limits, chat, n) == SortBy(InChat(table, chat), Newest)
      && Page(tables, limits, chat, n) == []
  {
    var n := |InChat(table, chat)|;
    var tables := seq(|limits|, (k: nat) => table);
    var all := SortBy(InChat(table, chat), Newest);
    SortElements(InChat(table, chat), Newest);
    assert |multiset(all)| == |all| && |multiset(InChat(table, chat))| == n;
    forall k | 0 <= k <= n ensures IsSlice(all, tables, limits, chat, k) {
      FixedPages(all, table, tables, limits, chat, k);
    }
    FixedEnds(all, tables, limits, chat);
  }
}
