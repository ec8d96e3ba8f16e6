/**
 Stable sorting by key, as Python's `sorted(values, key=...)`, and the fact every canonical
 collection relies on: with distinct keys, only the set of elements matters.
 */
module Sorting {
  import opened Lex

  function Insert<T>(x: T, s: seq<T>, key: T -> Key): seq<T> {
    if s == [] then [x]
    else if Le(key(x), key(s[0])) then [x] + s
    else [s[0]] + Insert(x, s[1..], key)
  }

  function SortBy<T>(xs: seq<T>, key: T -> Key): seq<T> {
    if xs == [] then [] else Insert(xs[0], SortBy(xs[1..], key), key)
  }

  ghost predicate Ascending<T>(s: seq<T>, key: T -> Key) {
    forall i, j :: 0 <= i < j < |s| ==> Lt(key(s[i]), key(s[j]))
  }

  predicate UniqueKeys<T>(s: seq<T>, key: T -> Key) {
    forall i, j :: 0 <= i < j < |s| ==> key(s[i]) != key(s[j])
  }

  ghost predicate SameElements<T(!new)>(s: seq<T>, t: seq<T>) {
    forall x :: x in s <==> x in t
  }

  lemma {:induction false} InsertElements<T(!new)>(x: T, s: seq<T>, key: T -> Key)
    ensures |Insert(x, s, key)| == |s| + 1
    ensures forall y :: y in Insert(x, s, key) <==> y == x || y in s
  {
    if s != [] && !Le(key(x), key(s[0])) {
      InsertElements(x, s[1..], key);
      assert s == [s[0]] + s[1..];
    }
  }

  lemma {:induction false} SortElements<T(!new)>(xs: seq<T>, key: T -> Key)
    ensures |SortBy(xs, key)| == |xs|
    ensures SameElements(SortBy(xs, key), xs)
  {
    if xs != [] {
      SortElements(xs[1..], key);
      InsertElements(xs[0], SortBy(xs[1..], key), key);
      assert xs == [xs[0]] + xs[1..];
    }
  }

  /** `x` may join `s` without repeating a key. */
  ghost predicate NewKey<T>(x: T, s: seq<T>, key: T -> Key) {
    forall i :: 0 <= i < |s| ==> key(s[i]) != key(x)
  }

  lemma UniqueCons<T>(x: T, s: seq<T>, key: T -> Key)
    ensures UniqueKeys([x] + s, key) <==> NewKey(x, s, key) && UniqueKeys(s, key)
  {
    var t := [x] + s;
    assert forall i {:trigger s[i]} :: 0 <= i < |s| ==> t[i + 1] == s[i];
    if UniqueKeys(t, key) {
      forall i, j | 0 <= i < j < |s| ensures key(s[i]) != key(s[j]) {
        assert key(t[i + 1]) != key(t[j + 1]);
      }
      forall i | 0 <= i < |s| ensures key(s[i]) != key(x) {
        assert key(t[0]) != key(t[i + 1]);
      }
    }
  }

  lemma {:induction false} InsertUnique<T(!new)>(x: T, s: seq<T>, key: T -> Key, other: T -> Key)
    ensures UniqueKeys(Insert(x, s, key), other) <==> NewKey(x, s, other) && UniqueKeys(s, other)
  {
    if s == [] {
    } else if Le(key(x), key(s[0])) {
      UniqueCons(x, s, other);
    } else {
      var rest := s[1..];
      assert s == [s[0]] + rest;
      InsertUnique(x, rest, key, other);
      UniqueCons(s[0], rest, other);
      UniqueCons(s[0], Insert(x, rest, key), other);
      InsertElements(x, rest, key);
      NewKeyIn(s[0], rest, other);
      NewKeyIn(s[0], Insert(x, rest, key), other);
      NewKeyIn(x, s, other);
      NewKeyIn(x, rest, other);
    }
  }

  lemma NewKeyIn<T(!new)>(x: T, s: seq<T>, key: T -> Key)
    ensures NewKey(x, s, key) <==> forall y :: y in s ==> key(y) != key(x)
  {
    assert forall i :: 0 <= i < |s| ==> s[i] in s;
  }

  /** Sorting neither adds nor removes repeated keys, under any key. */
  lemma {:induction false} SortUnique<T(!new)>(xs: seq<T>, key: T -> Key, other: T -> Key)
    ensures UniqueKeys(SortBy(xs, key), other) <==> UniqueKeys(xs, other)
  {
    if xs != [] {
      var rest := xs[1..];
      assert xs == [xs[0]] + rest;
      SortUnique(rest, key, other);
      InsertUnique(xs[0], SortBy(rest, key), key, other);
      SortElements(rest, key);
      NewKeyIn(xs[0], rest, other);
      NewKeyIn(xs[0], SortBy(rest, key), other);
      UniqueCons(xs[0], rest, other);
    }
  }

  lemma {:induction false} SortMultiset<T>(xs: seq<T>, key: T -> Key)
    ensures multiset(SortBy(xs, key)) == multiset(xs)
  {
    if xs != [] {
      SortMultiset(xs[1..], key);
      InsertMultiset(xs[0], SortBy(xs[1..], key), key);
      assert xs == [xs[0]] + xs[1..];
    }
  }

  lemma {:induction false} InsertMultiset<T>(x: T, s: seq<T>, key: T -> Key)
    ensures multiset(Insert(x, s, key)) == multiset([x]) + multiset(s)
  {
    if s != [] && !Le(key(x), key(s[0])) {
      InsertMultiset(x, s[1..], key);
      assert s == [s[0]] + s[1..];
    }
  }

  lemma MultisetElements<T(!new)>(xs: seq<T>, ys: seq<T>)
    requires multiset(xs) == multiset(ys)
    ensures SameElements(xs, ys)
  {
    forall x ensures x in xs <==> x in ys {
      assert x in xs <==> x in multiset(xs);
      assert x in ys <==> x in multiset(ys);
    }
  }

  lemma {:induction false} InsertAscending<T(!new)>(x: T, s: seq<T>, key: T -> Key)
    requires Ascending(s, key) && NewKey(x, s, key)
    ensures Ascending(Insert(x, s, key), key)
  {
    if s == [] {
    } else if Le(key(x), key(s[0])) {
      forall j | 0 < j < |s| ensures Lt(key(x), key(s[j])) {
        LtTransitive(key(x), key(s[0]), key(s[j]));
      }
    } else {
      var rest := s[1..];
      InsertAscending(x, rest, key);
      InsertElements(x, rest, key);
      Total(key(x), key(s[0]));
      var r := Insert(x, rest, key);
      forall j | 0 <= j < |r| ensures Lt(key(s[0]), key(r[j])) {
        assert r[j] in r;
        if r[j] != x {
          var m :| 0 <= m < |rest| && rest[m] == r[j];
        }
      }
    }
  }

  lemma {:induction false} SortAscending<T(!new)>(xs: seq<T>, key: T -> Key)
    requires UniqueKeys(xs, key)
    ensures Ascending(SortBy(xs, key), key)
  {
    if xs != [] {
      var rest := xs[1..];
      assert xs == [xs[0]] + rest;
      UniqueCons(xs[0], rest, key);
      SortAscending(rest, key);
      SortElements(rest, key);
      NewKeyIn(xs[0], rest, key);
      NewKeyIn(xs[0], SortBy(rest, key), key);
      InsertAscending(xs[0], SortBy(rest, key), key);
    }
  }

  lemma AscendingTail<T>(s: seq<T>, key: T -> Key)
    requires Ascending(s, key) && s != []
    ensures Ascending(s[1..], key) && forall i :: 1 <= i < |s| ==> s[i] != s[0]
  {
    forall i | 1 <= i < |s| ensures s[i] != s[0] {
      assert Lt(key(s[0]), key(s[i]));
    }
  }

  /** An ascending sequence is determined by its elements. */
  lemma {:induction false} AscendingDetermined<T(!new)>(s: seq<T>, t: seq<T>, key: T -> Key)
    requires Ascending(s, key) && Ascending(t, key) && SameElements(s, t)
    ensures s == t
  {
    assert s != [] ==> s[0] in t;
    assert t != [] ==> t[0] in s;
    if s != [] {
      AscendingTail(s, key);
      AscendingTail(t, key);
      var i :| 0 <= i < |t| && t[i] == s[0];
      var j :| 0 <= j < |s| && s[j] == t[0];
      if i > 0 && j > 0 {
        Antisymmetric(key(s[0]), key(t[0]));
      }
      assert s[0] == t[0];
      assert s == [s[0]] + s[1..] && t == [t[0]] + t[1..];
      forall x ensures x in s[1..] <==> x in t[1..] {
        assert x in s[1..] <==> x in s && x != s[0];
        assert x in t[1..] <==> x in t && x != t[0];
      }
      AscendingDetermined(s[1..], t[1..], key);
    }
  }

  lemma AscendingIsUnique<T>(s: seq<T>, key: T -> Key)
    requires Ascending(s, key)
    ensures UniqueKeys(s, key)
  {
    forall i, j | 0 <= i < j < |s| ensures key(s[i]) != key(s[j]) {
      assert Lt(key(s[i]), key(s[j]));
    }
  }

  /** Sorting canonicalises: collections with the same elements and distinct keys sort alike. */
  lemma SortDetermined<T(!new)>(xs: seq<T>, ys: seq<T>, key: T -> Key)
    requires UniqueKeys(xs, key) && UniqueKeys(ys, key) && SameElements(xs, ys)
    ensures SortBy(xs, key) == SortBy(ys, key)
  {
    SortAscending(xs, key);
    SortAscending(ys, key);
    SortElements(xs, key);
    SortElements(ys, key);
    AscendingDetermined(SortBy(xs, key), SortBy(ys, key), key);
  }

  lemma SortOfAscending<T(!new)>(s: seq<T>, key: T -> Key)
    requires Ascending(s, key)
    ensures SortBy(s, key) == s
  {
    AscendingIsUnique(s, key);
    SortAscending(s, key);
    SortElements(s, key);
    AscendingDetermined(SortBy(s, key), s, key);
  }

  // ---------- Counting keys ----------

  function KeySet<T>(s: seq<T>, key: T -> Key): set<Key> {
    if s == [] then {} else {key(s[0])} + KeySet(s[1..], key)
  }

  lemma {:induction false} KeySetElements<T(!new)>(s: seq<T>, key: T -> Key)
    ensures forall x :: x in s ==> key(x) in KeySet(s, key)
    ensures forall k :: k in KeySet(s, key) ==> exists x :: x in s && key(x) == k
  {
    if s != [] {
      KeySetElements(s[1..], key);
      assert s == [s[0]] + s[1..];
      assert s[0] in s;
    }
  }

  /** Keys are distinct exactly when there are as many of them as elements. */
  lemma {:induction false} KeySetSize<T(!new)>(s: seq<T>, key: T -> Key)
    ensures |KeySet(s, key)| <= |s|
    ensures |KeySet(s, key)| == |s| <==> UniqueKeys(s, key)
  {
    if s != [] {
      var rest := s[1..];
      assert s == [s[0]] + rest;
      KeySetSize(rest, key);
      UniqueCons(s[0], rest, key);
      KeySetElements(rest, key);
      NewKeyIn(s[0], rest, key);
      if key(s[0]) in KeySet(rest, key) {
        assert KeySet(s, key) == KeySet(rest, key);
      } else {
        assert |KeySet(s, key)| == 1 + |KeySet(rest, key)|;
      }
    }
  }

  lemma SameKeysUnique<T(!new)>(xs: seq<T>, ys: seq<T>, key: T -> Key)
    requires |xs| == |ys| && UniqueKeys(xs, key)
    requires forall x :: x in xs ==> exists y :: y in ys && key(y) == key(x)
    ensures UniqueKeys(ys, key)
  {
    KeySetElements(xs, key);
    KeySetElements(ys, key);
    KeySetSize(xs, key);
    KeySetSize(ys, key);
    assert KeySet(xs, key) <= KeySet(ys, key);
    SubsetSize(KeySet(xs, key), KeySet(ys, key));
  }

  lemma SubsetSize<T>(a: set<T>, b: set<T>)
    requires a <= b
    ensures |a| <= |b|
  {
    assert b == a + (b - a);
  }
}
