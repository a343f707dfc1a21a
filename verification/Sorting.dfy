/** Python's stable sort by a key: ascending by the key, equal keys in their original order. */
module Sorting {

  function InsertBy<T>(x: T, s: seq<T>, key: T -> real): seq<T> {
    if s == [] || key(x) <= key(s[0]) then [x] + s else [s[0]] + InsertBy(x, s[1..], key)
  }

  /** sorted(s, key=key). With reverse=True the source's sort is this one on the negated key. */
  function SortBy<T>(s: seq<T>, key: T -> real): seq<T> {
    if s == [] then [] else InsertBy(s[0], SortBy(s[1..], key), key)
  }

  ghost predicate SortedBy<T>(s: seq<T>, key: T -> real) {
    forall i, j :: 0 <= i < j < |s| ==> key(s[i]) <= key(s[j])
  }

  /** The elements with one key value, in order. */
  function WithKey<T>(s: seq<T>, key: T -> real, v: real): seq<T> {
    if s == [] then [] else (if key(s[0]) == v then [s[0]] else []) + WithKey(s[1..], key, v)
  }

  lemma {:induction false} InsertByContents<T>(x: T, s: seq<T>, key: T -> real)
    ensures multiset(InsertBy(x, s, key)) == multiset{x} + multiset(s)
    ensures |InsertBy(x, s, key)| == |s| + 1
    ensures forall i :: 0 <= i < |InsertBy(x, s, key)| ==> InsertBy(x, s, key)[i] == x || InsertBy(x, s, key)[i] in s
  {
    if s == [] || key(x) <= key(s[0]) {
    } else {
      InsertByContents(x, s[1..], key);
      assert s == [s[0]] + s[1..];
    }
  }

  lemma {:induction false} InsertBySorted<T>(x: T, s: seq<T>, key: T -> real)
    requires SortedBy(s, key)
    ensures SortedBy(InsertBy(x, s, key), key)
  {
    if s == [] || key(x) <= key(s[0]) {
    } else {
      InsertBySorted(x, s[1..], key);
      InsertByContents(x, s[1..], key);
      var r := InsertBy(x, s[1..], key);
      assert forall i :: 0 <= i < |r| ==> key(s[0]) <= key(r[i]);
    }
  }

  lemma {:induction false} InsertByStable<T>(x: T, s: seq<T>, key: T -> real, v: real)
    ensures WithKey(InsertBy(x, s, key), key, v) == (if key(x) == v then [x] else []) + WithKey(s, key, v)
  {
    if s == [] || key(x) <= key(s[0]) {
      assert ([x] + s)[1..] == s;
    } else {
      InsertByStable(x, s[1..], key, v);
      var r, rest := InsertBy(x, s[1..], key), WithKey(s[1..], key, v);
      assert InsertBy(x, s, key)[0] == s[0] && InsertBy(x, s, key)[1..] == r;
      if key(s[0]) == v {
        assert WithKey(r, key, v) == [] + rest == rest;
      } else {
        assert WithKey(s, key, v) == [] + rest == rest;
      }
    }
  }

  /** The result is sorted and holds exactly the same elements. */
  lemma {:induction false} SortBySorts<T>(s: seq<T>, key: T -> real)
    ensures SortedBy(SortBy(s, key), key)
    ensures multiset(SortBy(s, key)) == multiset(s)
    ensures |SortBy(s, key)| == |s|
  {
    if s != [] {
      SortBySorts(s[1..], key);
      InsertBySorted(s[0], SortBy(s[1..], key), key);
      InsertByContents(s[0], SortBy(s[1..], key), key);
      assert s == [s[0]] + s[1..];
    }
  }

  /** Elements with equal keys keep their order. */
  lemma {:induction false} SortByIsStable<T>(s: seq<T>, key: T -> real, v: real)
    ensures WithKey(SortBy(s, key), key, v) == WithKey(s, key, v)
  {
    if s != [] {
      SortByIsStable(s[1..], key, v);
      InsertByStable(s[0], SortBy(s[1..], key), key, v);
    }
  }

  lemma SameMembers<T>(s: seq<T>, t: seq<T>, x: T)
    requires multiset(s) == multiset(t)
    ensures x in s <==> x in t
  {
    assert x in s <==> x in multiset(s);
    assert x in t <==> x in multiset(t);
  }
}
