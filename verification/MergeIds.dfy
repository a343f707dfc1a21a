/** The deterministic id of a merge: a UUID of the sorted conversation ids joined with colons (jobs/dedup.py). */
module MergeIds {
  import opened Sequences
  import opened Text

  function Insert(x: string, s: seq<string>): seq<string> {
    if s == [] || Leq(x, s[0]) then [x] + s else [s[0]] + Insert(x, s[1..])
  }

  function Sorted(s: seq<string>): seq<string> {
    if s == [] then [] else Insert(s[0], Sorted(s[1..]))
  }

  function MergeKey(convIds: seq<string>): string {
    Join(Sorted(convIds), ":")
  }

  // ---- The order of the ids does not matter ----

  lemma {:induction false} LeqOrders(a: string, b: string, c: string)
    ensures Leq(a, b) || Leq(b, a)
    ensures Leq(a, b) && Leq(b, a) ==> a == b
    ensures Leq(a, b) && Leq(b, c) ==> Leq(a, c)
  {
    if a != "" && b != "" {
      LeqOrders(a[1..], b[1..], if c == "" then "" else c[1..]);
      assert a == [a[0]] + a[1..] && b == [b[0]] + b[1..];
    }
  }

  ghost predicate IsSorted(s: seq<string>) {
    forall i, j :: 0 <= i < j < |s| ==> Leq(s[i], s[j])
  }

  lemma {:induction false} InsertContents(x: string, s: seq<string>)
    ensures multiset(Insert(x, s)) == multiset{x} + multiset(s)
    ensures forall y :: y in Insert(x, s) ==> y == x || y in s
  {
    if s != [] && !Leq(x, s[0]) {
      InsertContents(x, s[1..]);
      assert s == [s[0]] + s[1..];
    }
  }

  lemma {:induction false} InsertSorted(x: string, s: seq<string>)
    requires IsSorted(s)
    ensures IsSorted(Insert(x, s))
  {
    if s == [] {
    } else if Leq(x, s[0]) {
      forall i | 0 <= i < |s| ensures Leq(x, s[i]) {
        LeqOrders(x, s[0], s[i]);
      }
    } else {
      InsertSorted(x, s[1..]);
      InsertContents(x, s[1..]);
      var r := Insert(x, s[1..]);
      forall i | 0 <= i < |r| ensures Leq(s[0], r[i]) {
        LeqOrders(s[0], x, x);
        assert r[i] in r;
      }
    }
  }

  lemma {:induction false} SortedSorts(s: seq<string>)
    ensures IsSorted(Sorted(s)) && multiset(Sorted(s)) == multiset(s)
  {
    if s != [] {
      SortedSorts(s[1..]);
      InsertSorted(s[0], Sorted(s[1..]));
      InsertContents(s[0], Sorted(s[1..]));
      assert s == [s[0]] + s[1..];
    }
  }

  lemma LeastFirst(s: seq<string>, x: string)
    requires IsSorted(s) && x in s
    ensures Leq(s[0], x)
  {
    hide Leq;
    var i :| 0 <= i < |s| && s[i] == x;
    if i == 0 {
      LeqOrders(x, x, x);
    }
  }

  lemma TailContents(s: seq<string>)
    requires s != []
    ensures multiset(s[1..]) == multiset(s) - multiset{s[0]}
  {
    assert s == [s[0]] + s[1..];
  }

  lemma SameFirst(s: seq<string>, t: seq<string>)
    requires IsSorted(s) && IsSorted(t) && s != [] && t != [] && multiset(s) == multiset(t)
    ensures s[0] == t[0]
  {
    hide Leq, IsSorted;
    assert s[0] in multiset(t) && t[0] in multiset(s);
    LeastFirst(s, t[0]);
    LeastFirst(t, s[0]);
    LeqOrders(s[0], t[0], t[0]);
  }

  lemma {:induction false} SortedUnique(s: seq<string>, t: seq<string>)
    requires IsSorted(s) && IsSorted(t) && multiset(s) == multiset(t)
    ensures s == t
  {
    hide Leq;
    assert |s| == |multiset(s)| == |multiset(t)| == |t|;
    if s != [] {
      SameFirst(s, t);
      TailContents(s);
      TailContents(t);
      SortedUnique(s[1..], t[1..]);
      assert s == [s[0]] + s[1..] && t == [t[0]] + t[1..];
    }
  }

  /** The key depends on which conversations are merged, not on the order in which they are listed. */
  lemma KeyIgnoresOrder(a: seq<string>, b: seq<string>)
    requires multiset(a) == multiset(b)
    ensures MergeKey(a) == MergeKey(b)
  {
    SortedSorts(a);
    SortedSorts(b);
    SortedUnique(Sorted(a), Sorted(b));
  }

  // ---- Different conversations have different keys ----

  predicate ColonFree(s: string) { ':' !in s }

  const MERGED: string := "dedup:"

  /** A conversation's own id, or the id of an earlier merge. */
  predicate WellNamed(id: string) {
    || (ColonFree(id) && id != "dedup")
    || (MERGED <= id && ColonFree(id[|MERGED|..]))
  }

  ghost predicate AllWellNamed(ids: seq<string>) {
    forall i :: 0 <= i < |ids| ==> WellNamed(ids[i])
  }

  /** The part of a text before its first colon. */
  function Head(s: string): (h: string)
    ensures h <= s && ColonFree(h)
  {
    if s == "" || s[0] == ':' then "" else [s[0]] + Head(s[1..])
  }

  lemma {:induction false} HeadOf(p: string, rest: string)
    requires ColonFree(p) && (rest == "" || rest[0] == ':')
    ensures Head(p + rest) == p
  {
    if p == "" {
      assert p + rest == rest;
    } else {
      assert p[0] in p;
      assert (p + rest)[1..] == p[1..] + rest;
      HeadOf(p[1..], rest);
    }
  }

  /** What follows the first name in a key: nothing, or a colon and the remaining names. */
  function After(ids: seq<string>): string
    requires ids != []
  {
    if |ids| == 1 then "" else ":" + Join(ids[1..], ":")
  }

  lemma JoinSplits(ids: seq<string>)
    requires ids != []
    ensures Join(ids, ":") == ids[0] + After(ids)
  {
    if |ids| > 1 {
      AppendAssociative(ids[0], ":", Join(ids[1..], ":"));
    }
  }

  lemma OwnIdFirst(ids: seq<string>)
    requires ids != [] && ColonFree(ids[0])
    ensures Head(Join(ids, ":")) == ids[0]
  {
    hide Head, Join;
    JoinSplits(ids);
    HeadOf(ids[0], After(ids));
  }

  lemma MergedIdFirst(ids: seq<string>)
    requires ids != [] && MERGED <= ids[0] && ColonFree(ids[0][6..])
    ensures Head(Join(ids, ":")) == "dedup" && MERGED <= Join(ids, ":")
    ensures Head(Join(ids, ":")[6..]) == ids[0][6..]
  {
    hide Head, Join;
    JoinSplits(ids);
    var name := ids[0][6..];
    var rest := name + After(ids);
    assert Join(ids, ":") == MERGED + rest;
    assert MERGED + rest == "dedup" + (":" + rest);
    HeadOf("dedup", ":" + rest);
    HeadOf(name, After(ids));
    assert Join(ids, ":")[6..] == rest;
  }

  lemma NotBoth(id: string)
    requires MERGED <= id
    ensures !ColonFree(id)
  {
    assert id[5] == ':';
  }

  lemma SameFirstName(a: seq<string>, b: seq<string>)
    requires a != [] && b != [] && AllWellNamed(a) && AllWellNamed(b) && Join(a, ":") == Join(b, ":")
    ensures a[0] == b[0] && After(a) == After(b)
  {
    hide Join, Head, After, WellNamed;
    SameNames(a, b);
    JoinSplits(a);
    JoinSplits(b);
    assert After(a) == Join(a, ":")[|a[0]|..] == Join(b, ":")[|b[0]|..] == After(b);
  }

  lemma SameNames(a: seq<string>, b: seq<string>)
    requires a != [] && b != [] && WellNamed(a[0]) && WellNamed(b[0]) && Join(a, ":") == Join(b, ":")
    ensures a[0] == b[0]
  {
    hide Join, Head;
    if MERGED <= a[0] {
      NotBoth(a[0]);
      MergedIdFirst(a);
    } else {
      OwnIdFirst(a);
    }
    if MERGED <= b[0] {
      NotBoth(b[0]);
      MergedIdFirst(b);
    } else {
      OwnIdFirst(b);
    }
    if MERGED <= a[0] && MERGED <= b[0] {
      assert a[0] == MERGED + a[0][6..] && b[0] == MERGED + b[0][6..];
    }
  }

  lemma {:induction false} JoinInjective(a: seq<string>, b: seq<string>)
    requires a != [] && b != [] && AllWellNamed(a) && AllWellNamed(b) && Join(a, ":") == Join(b, ":")
    ensures a == b
  {
    SameFirstName(a, b);
    if |a| > 1 && |b| > 1 {
      assert After(a)[1..] == Join(a[1..], ":") && After(b)[1..] == Join(b[1..], ":");
      JoinInjective(a[1..], b[1..]);
    }
    assert a == [a[0]] + a[1..] && b == [b[0]] + b[1..];
  }

  /**
   For conversation ids without colons, and ids of earlier merges, the key names exactly the conversations merged.
   So merges of different conversations never share an id.
   */
  lemma KeyNamesConversations(a: seq<string>, b: seq<string>)
    requires a != [] && b != [] && AllWellNamed(a) && AllWellNamed(b)
    ensures MergeKey(a) == MergeKey(b) <==> multiset(a) == multiset(b)
  {
    if MergeKey(a) == MergeKey(b) {
      SortedSorts(a);
      SortedSorts(b);
      SortedNamed(a);
      SortedNamed(b);
      JoinInjective(Sorted(a), Sorted(b));
    } else if multiset(a) == multiset(b) {
      KeyIgnoresOrder(a, b);
    }
  }

  lemma SortedNamed(a: seq<string>)
    requires a != [] && AllWellNamed(a)
    ensures Sorted(a) != [] && AllWellNamed(Sorted(a))
  {
    SortedSorts(a);
    assert a[0] in multiset(a);
    forall i | 0 <= i < |Sorted(a)| ensures WellNamed(Sorted(a)[i]) {
      assert Sorted(a)[i] in multiset(Sorted(a));
      assert Sorted(a)[i] in a;
    }
  }

  /** With colons inside the ids two different groups can share a key. */
  lemma ColonsCollide()
    ensures MergeKey(["a:b", "c"]) == MergeKey(["a", "b:c"])
    ensures multiset(["a:b", "c"]) != multiset(["a", "b:c"])
  {
    SortedPair("a:b", "c");
    SortedPair("a", "b:c");
    assert "a:b" + (":" + "c") == "a" + (":" + "b:c");
    assert multiset(["a:b", "c"])["c"] == 1 && multiset(["a", "b:c"])["c"] == 0;
  }

  lemma SortedPair(a: string, b: string)
    requires Leq(a, b)
    ensures MergeKey([a, b]) == a + (":" + b)
  {
    assert [a, b][1..] == [b];
    assert Sorted([b]) == [b];
    assert Sorted([a, b]) == [a, b];
    JoinSplits([a, b]);
  }
}
