/** Filtering and sorting by a two-part key: what WHERE and ORDER BY with two columns do. */
module Ordering {

  type Key = (int, int)

  predicate Less(a: Key, b: Key) {
    a.0 < b.0 || (a.0 == b.0 && a.1 < b.1)
  }

  function Filter<T>(s: seq<T>, p: T -> bool): seq<T> {
    if s == [] then [] else (if p(s[0]) then [s[0]] else []) + Filter(s[1..], p)
  }

  function InsertBy<T>(s: seq<T>, x: T, key: T -> Key): seq<T> {
    if s == [] then [x]
    else if Less(key(x), key(s[0])) then [x] + s
    else [s[0]] + InsertBy(s[1..], x, key)
  }

  function SortBy<T>(s: seq<T>, key: T -> Key): seq<T> {
    if s == [] then [] else InsertBy(SortBy(s[1..], key), s[0], key)
  }

  function Take<T>(s: seq<T>, n: nat): seq<T> {
    if |s| <= n then s else s[..n]
  }

  ghost predicate DistinctKeys<T(!new)>(s: seq<T>, key: T -> Key) {
    forall i, j :: 0 <= i < j < |s| ==> key(s[i]) != key(s[j])
  }

  ghost predicate Ascending<T(!new)>(s: seq<T>, key: T -> Key) {
    forall i, j :: 0 <= i < j < |s| ==> Less(key(s[i]), key(s[j]))
  }

  lemma {:induction false} FilterElements<T>(s: seq<T>, p: T -> bool, x: T)
    ensures x in Filter(s, p) <==> x in s && p(x)
  {
    if s != [] {
      FilterElements(s[1..], p, x);
      assert x in s <==> x == s[0] || x in s[1..];
    }
  }

  lemma {:induction false} FilterDistinct<T(!new)>(s: seq<T>, p: T -> bool, key: T -> Key)
    requires DistinctKeys(s, key)
    ensures DistinctKeys(Filter(s, p), key)
  {
    if s != [] {
      var f := Filter(s[1..], p);
      FilterDistinct(s[1..], p, key);
      forall i | 0 <= i < |f| ensures key(f[i]) != key(s[0]) {
        FilterElements(s[1..], p, f[i]);
        var k :| 0 <= k < |s[1..]| && s[1..][k] == f[i];
        assert s[k + 1] == f[i];
      }
    }
  }

  lemma {:induction false} FilterAscending<T(!new)>(s: seq<T>, p: T -> bool, key: T -> Key)
    requires Ascending(s, key)
    ensures Ascending(Filter(s, p), key)
  {
    if s != [] {
      var f := Filter(s[1..], p);
      FilterAscending(s[1..], p, key);
      forall i | 0 <= i < |f| ensures Less(key(s[0]), key(f[i])) {
        FilterElements(s[1..], p, f[i]);
        var k :| 0 <= k < |s[1..]| && s[1..][k] == f[i];
        assert s[k + 1] == f[i];
      }
    }
  }

  lemma {:induction false} FilterConcat<T>(a: seq<T>, b: seq<T>, p: T -> bool)
    ensures Filter(a + b, p) == Filter(a, p) + Filter(b, p)
  {
    if a == [] {
      assert a + b == b;
    } else {
      FilterConcat(a[1..], b, p);
      assert (a + b)[0] == a[0] && (a + b)[1..] == a[1..] + b;
      var head := if p(a[0]) then [a[0]] else [];
      assert head + (Filter(a[1..], p) + Filter(b, p)) == (head + Filter(a[1..], p)) + Filter(b, p);
    }
  }

  lemma {:induction false} InsertElements<T>(s: seq<T>, x: T, key: T -> Key)
    ensures multiset(InsertBy(s, x, key)) == multiset(s) + multiset{x}
  {
    if s != [] && !Less(key(x), key(s[0])) {
      InsertElements(s[1..], x, key);
      assert s == [s[0]] + s[1..];
    }
  }

  lemma {:induction false} SortElements<T>(s: seq<T>, key: T -> Key)
    ensures multiset(SortBy(s, key)) == multiset(s)
  {
    if s != [] {
      SortElements(s[1..], key);
      InsertElements(SortBy(s[1..], key), s[0], key);
      assert s == [s[0]] + s[1..];
    }
  }

  lemma SortHas<T>(s: seq<T>, key: T -> Key, x: T)
    ensures x in SortBy(s, key) <==> x in s
    ensures |SortBy(s, key)| == |s|
  {
    SortElements(s, key);
    assert x in s <==> x in multiset(s);
    assert x in SortBy(s, key) <==> x in multiset(SortBy(s, key));
    assert |multiset(s)| == |s| && |multiset(SortBy(s, key))| == |SortBy(s, key)|;
  }

  lemma {:induction false} InsertAscending<T(!new)>(s: seq<T>, x: T, key: T -> Key)
    requires Ascending(s, key) && forall i :: 0 <= i < |s| ==> key(s[i]) != key(x)
    ensures Ascending(InsertBy(s, x, key), key)
  {
    if s != [] && !Less(key(x), key(s[0])) {
      var r := InsertBy(s[1..], x, key);
      InsertAscending(s[1..], x, key);
      InsertElements(s[1..], x, key);
      forall i | 0 <= i < |r| ensures Less(key(s[0]), key(r[i])) {
        assert r[i] in multiset(s[1..]) + multiset{x};
        if r[i] != x {
          var k :| 0 <= k < |s[1..]| && s[1..][k] == r[i];
          assert s[k + 1] == r[i];
        }
      }
    }
  }

  lemma {:induction false} SortAscending<T(!new)>(s: seq<T>, key: T -> Key)
    requires DistinctKeys(s, key)
    ensures Ascending(SortBy(s, key), key)
  {
    if s != [] {
      SortAscending(s[1..], key);
      var r := SortBy(s[1..], key);
      forall i | 0 <= i < |r| ensures key(r[i]) != key(s[0]) {
        SortHas(s[1..], key, r[i]);
        var k :| 0 <= k < |s[1..]| && s[1..][k] == r[i];
        assert s[k + 1] == r[i];
      }
      InsertAscending(r, s[0], key);
    }
  }

  /** A strictly ascending sequence is determined by its elements. */
  lemma {:induction false} AscendingUnique<T(!new)>(a: seq<T>, b: seq<T>, key: T -> Key)
    requires Ascending(a, key) && Ascending(b, key)
    requires forall x :: x in a <==> x in b
    ensures a == b
  {
    assert b != [] ==> b[0] in b;
    if a != [] {
      assert a[0] in b;
      assert b[0] in a;
      var i :| 0 <= i < |b| && b[i] == a[0];
      var j :| 0 <= j < |a| && a[j] == b[0];
      assert i == 0 && j == 0;
      forall x ensures x in a[1..] <==> x in b[1..] {
        if x in a[1..] { Tail(a, b, key, x); }
        if x in b[1..] { Tail(b, a, key, x); }
      }
      AscendingUnique(a[1..], b[1..], key);
    }
  }

  lemma Tail<T(!new)>(a: seq<T>, b: seq<T>, key: T -> Key, x: T)
    requires Ascending(a, key) && a != [] && b != [] && a[0] == b[0] && x in a[1..]
    requires forall y :: y in a <==> y in b
    ensures x in b[1..]
  {
    var k :| 0 <= k < |a[1..]| && a[1..][k] == x;
    assert a[k + 1] == x && x in a && Less(key(a[0]), key(x));
    var m :| 0 <= m < |b| && b[m] == x;
    assert m != 0;
    assert b[1..][m - 1] == x;
  }
}
