/** Creating a chat: one transaction that inserts the chat, its creator and its members. */
module ChatCreation {
  import opened Basics

  datatype Kind = Direct | Group

  datatype Role = Admin | Member

  datatype Chat = Chat(kind: Kind, name: Option<string>, createdBy: int)

  datatype Membership = Membership(role: Role, joinedAt: int)

  type Members = map<(nat, int), Membership>

  datatype Tables = Tables(chats: map<nat, Chat>, members: Members, users: set<int>)

  datatype Result = Created(id: nat) | DirectChatExists | Failed

  datatype Request = Request(creator: int, kind: Kind, name: Option<string>, ids: seq<int>)

  /** Length of the column `name`, in characters. */
  const NAME_LIMIT: nat := 100

  /** What the column stores for a name: blanks beyond its length are cut off, anything else there
      is an error, and so is the character with code 0 anywhere. */
  function Stored(name: Option<string>): Option<Option<string>> {
    if name.None? then Some(None)
    else if '\0' in name.value then None
    else if |name.value| <= NAME_LIMIT then Some(name)
    else if forall i :: NAME_LIMIT <= i < |name.value| ==> name.value[i] == ' ' then
      Some(Some(name.value[..NAME_LIMIT]))
    else None
  }

  /** Foreign keys and the sequence behind the ids. */
  predicate TablesOk(db: Tables, nextId: nat) {
    && (forall c :: c in db.chats ==> c < nextId)
    && (forall k :: k in db.members ==> k.0 in db.chats && k.1 in db.users)
  }

  /** `FindDirectChat` finds a row. */
  predicate HasDirectChat(db: Tables, a: int, b: int) {
    exists c :: c in db.chats && db.chats[c].kind == Direct && (c, a) in db.members && (c, b) in db.members
  }

  /** The request is checked against existing direct chats only when it names one other member. */
  predicate Checked(q: Request) {
    q.kind == Direct && |q.ids| == 1
  }

  ghost function MembersOf(db: Tables, id: nat): set<int> {
    set k | k in db.members && k.0 == id :: k.1
  }

  ghost function Admins(db: Tables, id: nat): set<int> {
    set k | k in db.members && k.0 == id && db.members[k].role == Admin :: k.1
  }

  function Elements(ids: seq<int>): set<int> {
    set u | u in ids
  }

  /** The statements the member loop needs. */
  function Inserts(creator: int, ids: seq<int>): nat {
    if ids == [] then 0 else Inserts(creator, ids[..|ids| - 1]) + if ids[|ids| - 1] == creator then 0 else 1
  }

  /** All the statements of a request: the check, the opening of the transaction, the chat's row, the
      creator's, the other members' and the commit. */
  function Needed(q: Request): nat {
    (if Checked(q) then 1 else 0) + 4 + Inserts(q.creator, q.ids)
  }

  lemma {:induction false} InsertsPrefix(creator: int, ids: seq<int>, i: nat)
    requires i <= |ids|
    ensures Inserts(creator, ids[..i]) <= Inserts(creator, ids)
    decreases |ids|
  {
    if i == |ids| {
      assert ids[..i] == ids;
    } else {
      InsertsPrefix(creator, ids[..|ids| - 1], i);
      assert ids[..|ids| - 1][..i] == ids[..i];
    }
  }

  /** Exactly the creator and the requested users are members, with the creator the only admin,
      and nothing else is different. */
  ghost predicate CreatedFrom(was: Tables, now: Tables, id: nat, q: Request) {
    && id !in was.chats && Stored(q.name).Some?
    && now.chats == was.chats[id := Chat(q.kind, Stored(q.name).value, q.creator)]
    && now.users == was.users
    && MembersOf(now, id) == {q.creator} + Elements(q.ids)
    && Admins(now, id) == {q.creator}
    && forall k: (nat, int) :: k.0 != id ==>
         (k in now.members <==> k in was.members) && (k in was.members ==> now.members[k] == was.members[k])
  }

  /** What a request does when the database answers `answered` of its statements. */
  ghost predicate Outcome(was: Tables, now: Tables, q: Request, answered: nat, r: Result) {
    && (r.Created? ==> CreatedFrom(was, now, r.id, q))
    && (!r.Created? ==> now == was)
    && (r == DirectChatExists <==> Checked(q) && answered >= 1 && HasDirectChat(was, q.creator, q.ids[0]))
    && (r.Created? <==>
          && !(Checked(q) && HasDirectChat(was, q.creator, q.ids[0])) && answered >= Needed(q)
          && Stored(q.name).Some? && {q.creator} + Elements(q.ids) <= was.users)
  }

  /** What the loop has done to the transaction's copy of the member table after `done`. */
  ghost predicate Inserting(was: Members, now: Members, id: nat, creator: int, done: seq<int>) {
    && (forall k :: k in now <==> k in was || (k.0 == id && (k.1 == creator || k.1 in done)))
    && (forall k :: k in was ==> now[k] == was[k])
    && (forall u :: (id, u) in now ==> now[(id, u)].role == if u == creator then Admin else Member)
  }

  lemma InsertingIsDone(was: Tables, now: Tables, id: nat, q: Request)
    requires id !in was.chats && Stored(q.name).Some? && now.users == was.users
    requires now.chats == was.chats[id := Chat(q.kind, Stored(q.name).value, q.creator)]
    requires forall u :: (id, u) !in was.members
    requires Inserting(was.members, now.members, id, q.creator, q.ids)
    ensures CreatedFrom(was, now, id, q)
  {
    forall u ensures u in MembersOf(now, id) <==> u in {q.creator} + Elements(q.ids) {
      if u == q.creator || u in q.ids {
        assert (id, u) in now.members;
      }
    }
    forall u ensures u in Admins(now, id) <==> u in {q.creator} {
      if u == q.creator {
        assert (id, u) in now.members;
      }
    }
  }

  /** The member loop, on the transaction's copy of the member table. */
  method AddMembers(users: set<int>, ghost was: Members, members: Members, id: nat, creator: int, ids: seq<int>,
                    at: int, answered: nat)
    returns (now: Members, left: nat, ok: bool)
    requires Inserting(was, members, id, creator, [])
    ensures ok <==> answered >= Inserts(creator, ids) && forall u :: u in ids ==> u == creator || u in users
    ensures ok ==> Inserting(was, now, id, creator, ids) && left == answered - Inserts(creator, ids)
    ensures forall k :: k in now && k !in members ==> now[k].joinedAt == at
    ensures forall k :: k in members ==> k in now && now[k] == members[k]
  {
    now, left, ok := members, answered, false;
    for i := 0 to |ids|
      invariant Inserting(was, now, id, creator, ids[..i])
      invariant forall u :: u in ids[..i] ==> u == creator || u in users
      invariant left == answered - Inserts(creator, ids[..i])
      invariant forall k :: k in now && k !in members ==> now[k].joinedAt == at
      invariant forall k :: k in members ==> k in now && now[k] == members[k]
    {
      var u := ids[i];
      assert ids[..i + 1] == ids[..i] + [u];
      assert u in ids;
      InsertsPrefix(creator, ids, i + 1);
      if u != creator {
        if left == 0 || u !in users {
          return;
        }
        left := left - 1;
        // ON CONFLICT DO NOTHING
        if (id, u) !in now {
          now := now[(id, u) := Membership(Member, at)];
        }
      }
    }
    assert ids[..|ids|] == ids;
    ok := true;
  }

  /** Some key of a nonempty set joined no later than the others. */
  lemma {:induction false} FirstJoined(members: Members, keys: set<(nat, int)>) returns (first: (nat, int))
    requires keys != {} && forall k :: k in keys ==> k in members
    ensures first in keys && forall k :: k in keys ==> members[first].joinedAt <= members[k].joinedAt
    decreases keys
  {
    first :| first in keys;
    if keys != {first} {
      var other := FirstJoined(members, keys - {first});
      if members[other].joinedAt < members[first].joinedAt {
        first := other;
      }
    }
  }

  class Service {
    var chats: map<nat, Chat>
    var members: Members
    var users: set<int>
    var nextId: nat

    function Contents(): Tables
      reads this
    {
      Tables(chats, members, users)
    }

    predicate Valid()
      reads this
    {
      TablesOk(Contents(), nextId)
    }

    constructor (users: set<int>)
      ensures Valid() && Contents() == Tables(map[], map[], users)
    {
      this.users := users;
      chats, members, nextId := map[], map[], 0;
    }

    /** `ListChatMembers`, by joined_at; which of two who joined at the same time comes first is
        open. */
    method ListChatMembers(id: nat) returns (rows: seq<(int, Membership)>)
      ensures forall i, j :: 0 <= i < j < |rows| ==> rows[i].0 != rows[j].0 && rows[i].1.joinedAt <= rows[j].1.joinedAt
      ensures forall u :: (id, u) in members <==> exists i :: 0 <= i < |rows| && rows[i].0 == u
      ensures forall i :: 0 <= i < |rows| ==> (id, rows[i].0) in members && rows[i].1 == members[(id, rows[i].0)]
    {
      rows := [];
      var todo := set k | k in members && k.0 == id;
      while todo != {}
        invariant forall k :: k in todo ==> k in members && k.0 == id
        invariant forall i, j :: 0 <= i < j < |rows| ==>
            rows[i].0 != rows[j].0 && rows[i].1.joinedAt <= rows[j].1.joinedAt
        invariant forall i, k :: 0 <= i < |rows| && k in todo ==> rows[i].1.joinedAt <= members[k].joinedAt
        invariant forall u :: (id, u) in members <==> (id, u) in todo || exists i :: 0 <= i < |rows| && rows[i].0 == u
        invariant forall i :: 0 <= i < |rows| ==>
          (id, rows[i].0) in members && (id, rows[i].0) !in todo && rows[i].1 == members[(id, rows[i].0)]
      {
        ghost var first := FirstJoined(members, todo);
        var k :| k in todo && forall o :: o in todo ==> members[k].joinedAt <= members[o].joinedAt;
        assert k == (id, k.1);
        ghost var before := rows;
        rows, todo := rows + [(k.1, members[k])], todo - {k};
        assert rows[|before|].0 == k.1 && forall i :: 0 <= i < |before| ==> rows[i] == before[i];
      }
    }

    /** `GetMemberIDs`: every member once, by joined_at. This is what every event to a chat is sent
        to. */
    method GetMemberIds(id: nat) returns (ids: array<int>)
      ensures fresh(ids) && Distinct(ids[..])
      ensures Elements(ids[..]) == MembersOf(Contents(), id)
      ensures forall i :: 0 <= i < ids.Length ==> (id, ids[i]) in members
      ensures forall i, j :: 0 <= i < j < ids.Length ==>
          members[(id, ids[i])].joinedAt <= members[(id, ids[j])].joinedAt
    {
      var rows := ListChatMembers(id);
      ids := new int[|rows|](_ => 0);
      for i := 0 to |rows|
        invariant forall j :: 0 <= j < i ==> ids[j] == rows[j].0
      {
        ids[i] := rows[i].0;
      }
      forall u ensures u in Elements(ids[..]) <==> u in MembersOf(Contents(), id) {
        if u in MembersOf(Contents(), id) {
          assert (id, u) in members;
          var i :| 0 <= i < |rows| && rows[i].0 == u;
          assert ids[..][i] == u;
        }
      }
    }

    /** `Create`, of whose statements the database answers `answered`. The transaction works on
        its own copy of the tables, which the commit puts in place. */
    method Create(q: Request, at: int, answered: nat) returns (r: Result)
      requires Valid()
      modifies this
      ensures Valid() && Outcome(old(Contents()), Contents(), q, answered, r)
      ensures r.Created? ==> forall u :: (r.id, u) in members ==> members[(r.id, u)].joinedAt == at
    {
      var left := answered;
      if Checked(q) {
        if left == 0 {
          return Failed;
        }
        left := left - 1;
        if HasDirectChat(Contents(), q.creator, q.ids[0]) {
          return DirectChatExists;
        }
      }
      // the opening of the transaction, the chat's row and the creator's
      if left < 3 || Stored(q.name).None? {
        return Failed;
      }
      left := left - 3;
      var id := nextId;
      nextId := nextId + 1;
      if q.creator !in users {
        return Failed;
      }
      var newChats := chats[id := Chat(q.kind, Stored(q.name).value, q.creator)];
      var newMembers := members[(id, q.creator) := Membership(Admin, at)];
      var ok;
      newMembers, left, ok := AddMembers(users, members, newMembers, id, q.creator, q.ids, at, left);
      if !ok || left == 0 {
        return Failed;
      }
      ghost var was := Contents();
      chats, members := newChats, newMembers;
      InsertingIsDone(was, Contents(), id, q);
      r := Created(id);
    }
  }

  // ---------------------------------------------------------------- when a chat is created

  /** The character with code 0 is nowhere in the name, and what exceeds the column are blanks. */
  predicate NameFits(name: Option<string>) {
    name.Some? ==> '\0' !in name.value && forall i :: 100 <= i < |name.value| ==> name.value[i] == ' '
  }

  /** A direct chat holds the creator and the one other member that the request names. */
  ghost predicate Held(was: Tables, q: Request) {
    && q.kind == Direct && |q.ids| == 1
    && exists c :: c in was.chats && was.chats[c].kind == Direct && {q.creator, q.ids[0]} <= MembersOf(was, c)
  }

  /** The places at which the request names somebody else than its creator. */
  function Others(q: Request): set<nat> {
    set i: nat | i < |q.ids| && q.ids[i] != q.creator
  }

  lemma {:induction false} InsertsCounts(creator: int, ids: seq<int>)
    ensures Inserts(creator, ids) == |set i: nat | i < |ids| && ids[i] != creator|
  {
    if ids != [] {
      var n := |ids| - 1;
      InsertsCounts(creator, ids[..n]);
      var before := set i: nat | i < n && ids[i] != creator;
      var all := set i: nat | i < |ids| && ids[i] != creator;
      assert before == set i: nat | i < |ids[..n]| && ids[..n][i] != creator;
      assert all == if ids[n] == creator then before else before + {n};
    }
  }

  lemma HeldIsFound(was: Tables, q: Request)
    ensures Held(was, q) <==> Checked(q) && HasDirectChat(was, q.creator, q.ids[0])
  {
    if Held(was, q) {
      var c :| c in was.chats && was.chats[c].kind == Direct && {q.creator, q.ids[0]} <= MembersOf(was, c);
      assert q.creator in MembersOf(was, c) && q.ids[0] in MembersOf(was, c);
    }
    if Checked(q) && HasDirectChat(was, q.creator, q.ids[0]) {
      var c :| c in was.chats && was.chats[c].kind == Direct && (c, q.creator) in was.members
        && (c, q.ids[0]) in was.members;
      assert {q.creator, q.ids[0]} <= MembersOf(was, c);
    }
  }

  /** A request is refused as existing exactly when it names one member, and a direct chat holds
      that member and the creator; it succeeds exactly when it is not, its name fits, all its users
      exist and every statement was answered. */
  lemma CreatedExactly(was: Tables, now: Tables, q: Request, answered: nat, r: Result)
    requires Outcome(was, now, q, answered, r)
    ensures r == DirectChatExists <==> answered >= 1 && Held(was, q)
    ensures r.Created? <==>
        && !Held(was, q) && NameFits(q.name)
        && q.creator in was.users && (forall i :: 0 <= i < |q.ids| ==> q.ids[i] in was.users)
        && answered >= |Others(q)| + if q.kind == Direct && |q.ids| == 1 then 5 else 4
  {
    HeldIsFound(was, q);
    InsertsCounts(q.creator, q.ids);
    assert {q.creator} + Elements(q.ids) <= was.users
      <==> q.creator in was.users && forall i :: 0 <= i < |q.ids| ==> q.ids[i] in was.users;
  }

  /** The row of a created chat: its kind and creator, and the name as given, but for blanks beyond
      the hundredth character. */
  lemma CreatedRow(was: Tables, now: Tables, q: Request, answered: nat, r: Result)
    requires Outcome(was, now, q, answered, r) && r.Created?
    ensures r.id in now.chats && r.id !in was.chats
    ensures var row := now.chats[r.id];
      && row.kind == q.kind && row.createdBy == q.creator
      && (q.name.None? ==> row.name.None?)
      && (q.name.Some? ==>
            && row.name.Some? && |row.name.value| == (if |q.name.value| < 100 then |q.name.value| else 100)
            && row.name.value <= q.name.value
            && forall i :: |row.name.value| <= i < |q.name.value| ==> q.name.value[i] == ' ')
    ensures forall c :: c in was.chats ==> c in now.chats && now.chats[c] == was.chats[c]
  {
  }

  /** Two users whom no direct chat holds both get one, in whatever chats either of them is. */
  lemma NewDirectChat(was: Tables, now: Tables, a: int, b: int, answered: nat, r: Result)
    requires a != b && {a, b} <= was.users && answered >= 6
    requires forall c :: c in was.chats && was.chats[c].kind == Direct ==> !({a, b} <= MembersOf(was, c))
    requires Outcome(was, now, Request(a, Direct, None, [b]), answered, r)
    ensures r.Created? && now.chats[r.id].kind == Direct && MembersOf(now, r.id) == {a, b}
  {
    var q := Request(a, Direct, None, [b]);
    CreatedExactly(was, now, q, answered, r);
    assert Others(q) == {0};
    assert Elements([b]) == {b};
  }

  // ---------------------------------------------------------------- direct chats

  /** Once a direct chat has been created, asking for it again is refused, from either side, however
      the request is named. */
  lemma DirectChatOnce(was: Tables, now: Tables, later: Tables, q: Request, again: Request, answered: nat, more: nat,
                       r: Result, s: Result)
    requires q.kind == again.kind == Direct && |q.ids| == |again.ids| == 1
    requires (again.creator, again.ids) == (q.creator, q.ids) || (again.creator, again.ids) == (q.ids[0], [q.creator])
    requires Outcome(was, now, q, answered, r) && r.Created?
    requires Outcome(now, later, again, more, s) && more >= 1
    ensures s == DirectChatExists && later == now
  {
    var a, b := q.creator, q.ids[0];
    assert b in q.ids;
    assert a in MembersOf(now, r.id) && b in MembersOf(now, r.id);
    assert (r.id, a) in now.members && (r.id, b) in now.members;
  }

  /** Asking for a direct chat with oneself is refused exactly when one is in any direct chat. */
  lemma SelfChat(was: Tables, now: Tables, u: int, name: Option<string>, answered: nat, r: Result)
    requires Outcome(was, now, Request(u, Direct, name, [u]), answered, r) && answered >= 1
    ensures r == DirectChatExists <==>
        exists c :: c in was.chats && was.chats[c].kind == Direct && u in MembersOf(was, c)
  {
    if c :| c in was.chats && was.chats[c].kind == Direct && u in MembersOf(was, c) {
      assert (c, u) in was.members;
    }
  }

  /** The refusal can be avoided by naming the other member twice: then a second direct chat with
      the same two members is created next to the first. */
  lemma SecondDirectChat(was: Tables, now: Tables, a: int, b: int, answered: nat, r: Result)
    requires {a, b} <= was.users && a != b && answered >= 6 && HasDirectChat(was, a, b)
    requires Outcome(was, now, Request(a, Direct, None, [b, b]), answered, r)
    ensures r.Created? && r.id !in was.chats && r.id in now.chats && now.chats[r.id].kind == Direct
    ensures MembersOf(now, r.id) == {a, b}
  {
    assert [b, b][..1] == [b] && [b][..0] == [];
    assert Inserts(a, [b, b]) == Inserts(a, [b]) + 1 == 2;
    assert Elements([b, b]) == {b};
  }
}
