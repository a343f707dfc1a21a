/** Python's slices, and small facts about sequences that the solver does not see on its own. */
module Sequences {

  /** s[from : to] for bounds that are not negative. */
  function Slice<T>(s: seq<T>, from: nat, to: nat): seq<T>
    requires from <= to
  {
    if from >= |s| then [] else if to <= |s| then s[from..to] else s[from..]
  }

  /** s[:n], where a negative n counts from the end. */
  function FirstOnes<T>(s: seq<T>, n: int): seq<T> {
    if n >= 0 then Slice(s, 0, n) else Slice(s, 0, if |s| + n < 0 then 0 else |s| + n)
  }

  ghost predicate NoRepeats<T>(s: seq<T>) {
    forall i, j :: 0 <= i < j < |s| ==> s[i] != s[j]
  }

  lemma SplitLast<T>(s: seq<T>)
    requires s != []
    ensures s == s[..|s| - 1] + [s[|s| - 1]]
  {
  }

  lemma PrefixOfPrefix<T>(s: seq<T>, i: nat, j: nat)
    requires i <= j <= |s|
    ensures s[..j][..i] == s[..i]
  {
  }

  lemma PrefixOfAppend<T>(s: seq<T>, t: seq<T>, i: nat)
    requires i <= |s|
    ensures (s + t)[..i] == s[..i]
  {
  }

  lemma AppendAssociative<T>(s: seq<T>, t: seq<T>, u: seq<T>)
    ensures (s + t) + u == s + (t + u)
  {
  }

  lemma TwiceCounted<T>(s: seq<T>, i: nat, j: nat)
    requires i < j < |s| && s[i] == s[j]
    ensures multiset(s)[s[i]] >= 2
  {
    assert s == s[..j] + s[j..];
    assert s[..j][i] in multiset(s[..j]) && s[j..][0] in multiset(s[j..]);
  }
}
