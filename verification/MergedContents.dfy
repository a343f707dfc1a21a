/** Which points a deduplication run takes up, what it asks to be merged, and what becomes of it (jobs/dedup.py). */
module MergedContents {
  import opened Types
  import opened OrderedDict
  import opened Sorting
  import opened VectorStores
  import opened MergeIds
  import opened Deduplication
  import opened DeduplicationOutcome
  import opened DeduplicationRuns

  // ---- The points taken up ----

  /** No point left out is newer than one taken up. */
  ghost predicate NoneNewer(taken: seq<MemoryPoint>, all: seq<MemoryPoint>) {
    forall p, i :: p in multiset(all) - multiset(taken) && 0 <= i < |taken| ==> Stamp(p) <= Stamp(taken[i])
  }

  /** How many points a slice [:max] keeps of n; a negative bound leaves that many out. */
  function Bounded(n: nat, max: int): nat {
    if max >= 0 then if n <= max then n else max else if n + max >= 0 then n + max else 0
  }

  lemma RestIsOlder(sorted: seq<MemoryPoint>, n: nat)
    requires n <= |sorted| && SortedBy(sorted, NewestFirst)
    ensures forall p, i :: p in multiset(sorted[n..]) && 0 <= i < n ==> Stamp(p) <= Stamp(sorted[i])
  {
    hide Stamp;
    forall p, i | p in multiset(sorted[n..]) && 0 <= i < n ensures Stamp(p) <= Stamp(sorted[i]) {
      var j :| 0 <= j < |sorted[n..]| && sorted[n..][j] == p;
      assert NewestFirst(sorted[i]) <= NewestFirst(sorted[n + j]);
    }
  }

  lemma SplitCounts(all: seq<MemoryPoint>, sorted: seq<MemoryPoint>, n: nat)
    requires n <= |sorted| && multiset(sorted) == multiset(all)
    ensures multiset(sorted[..n]) <= multiset(all)
    ensures multiset(all) - multiset(sorted[..n]) == multiset(sorted[n..])
  {
    assert sorted == sorted[..n] + sorted[n..];
    assert multiset(sorted) == multiset(sorted[..n]) + multiset(sorted[n..]);
  }

  lemma FirstOfSorted(all: seq<MemoryPoint>, n: nat)
    requires n <= |all|
    ensures var sorted := SortBy(all, NewestFirst);
            |sorted| == |all| && multiset(sorted[..n]) <= multiset(all) && NoneNewer(sorted[..n], all)
  {
    hide SortBy, SortedBy, NewestFirst, Stamp;
    var sorted := SortBy(all, NewestFirst);
    SortBySorts(all, NewestFirst);
    SplitCounts(all, sorted, n);
    RestIsOlder(sorted, n);
  }

  /** A run takes up the user's conversation points, and of too many the newest. */
  lemma NewestTakenUp(d: Points, userId: string, max: int)
    ensures var all, taken := Loaded(d, userId, Conversation), Considered(d, userId, max);
            && |taken| == Bounded(|all|, max) && multiset(taken) <= multiset(all) && NoneNewer(taken, all)
  {
    var all := Loaded(d, userId, Conversation);
    FirstOfSorted(all, Bounded(|all|, max));
  }

  // ---- The texts to be merged ----

  /** The batch item of a group holds each member's whole text, in the group's order, marks in between. */
  lemma AllTextsAreMerged(j: Job, k: nat, i: nat) returns (front: string, back: string)
    requires k < |j.groups| && Within(j.groups[k], |j.conv|) && i < |j.groups[k]|
    ensures ItemAt(j, k).combined == front + j.conv[j.groups[k][i]].payload.text + back
    ensures i == 0 <==> front == ""
    ensures i == |j.groups[k]| - 1 <==> back == ""
    ensures i > 0 ==> |front| >= 7 && front[|front| - 7..] == "\n\n---\n\n"
    ensures i < |j.groups[k]| - 1 ==> |back| >= 7 && back[..7] == "\n\n---\n\n"
  {
    var members := Select(j.conv, j.groups[k]);
    front, back := Text.JoinHolds(Texts(members), "\n\n---\n\n", i);
  }

  // ---- The moments ----

  /**
   A conversation's own moments go with it: after a run that merged its group, the points of the user's that named that
   conversation, its own and its moments, are gone.
   */
  lemma MomentsGoAlong(j: Job, order: seq<nat>, k: nat, i: nat, m: MemoryPoint)
    requires Clean(j) && Arrangement(order, |j.groups|) && Within(order, |j.groups|)
    requires k < |j.groups| && i in j.groups[k] && i < |j.conv| && Succeeds(j, k)
    requires m == j.conv[i] || (m in j.moments && m.payload.conversationId.Some? && m.payload.conversationId.value != ""
                                && m.payload.conversationId == j.conv[i].payload.conversationId)
    requires forall l :: 0 <= l < |j.groups| ==> m.id != MERGED + ItemAt(j, l).id
    ensures Get(Outcome(j, order), m.id) == None
  {
    hide Setting, FreshIds, Succeeds, Apart, Replaced;
    assert Owns(j.conv[i], j.moments, m.id);
    MemberFate(j, order, k, i, m.id);
    OldIsReplacedOrKept(j, order, m.id);
  }
}
