/** What a deduplication run leaves in the store (jobs/dedup.py). */
module DeduplicationOutcome {
  import opened Types
  import opened OrderedDict
  import opened Sequences
  import opened Sorting
  import opened VectorStores
  import opened Deduplication

  // ---- A sequence of merges ----

  function AllDoomed(merges: seq<Merge>): seq<string> {
    if merges == [] then [] else AllDoomed(merges[..|merges| - 1]) + merges[|merges| - 1].doomed
  }

  function Entries(merges: seq<Merge>): Points {
    seq(|merges|, k requires 0 <= k < |merges| => (merges[k].point.id, merges[k].point))
  }

  ghost predicate AllOwned(d: Points, userId: string, ids: seq<string>) {
    forall id :: id in ids ==> UsersOwn(d, userId, id)
  }

  /** No merged point takes an id that is in the store or that another merged point has. */
  ghost predicate FreshPoints(d: Points, merges: seq<Merge>) {
    && (forall k :: 0 <= k < |merges| ==> !Has(d, merges[k].point.id))
    && (forall j, k :: 0 <= j < k < |merges| ==> merges[j].point.id != merges[k].point.id)
  }

  lemma {:induction false} SurvivorsAppend(d: Points, e: Points, ids: seq<string>, userId: string)
    ensures Survivors(d + e, ids, userId) == Survivors(d, ids, userId) + Survivors(e, ids, userId)
  {
    if d == [] {
      assert d + e == e;
    } else {
      assert (d + e)[1..] == d[1..] + e;
      SurvivorsAppend(d[1..], e, ids, userId);
    }
  }

  lemma {:induction false} SurvivorsCompose(d: Points, a: seq<string>, b: seq<string>, userId: string)
    ensures Survivors(Survivors(d, a, userId), b, userId) == Survivors(d, a + b, userId)
  {
    if d != [] {
      SurvivorsCompose(d[1..], a, b, userId);
      var rest := Survivors(d[1..], a, userId);
      assert ([d[0]] + rest)[1..] == rest;
    }
  }

  lemma {:induction false} UntouchedEntries(d: Points, ids: seq<string>, userId: string)
    requires forall i :: 0 <= i < |d| ==> d[i].0 !in ids
    ensures Survivors(d, ids, userId) == d
  {
    if d != [] {
      UntouchedEntries(d[1..], ids, userId);
    }
  }

  lemma {:induction false} MergesKeepOk(d: Points, merges: seq<Merge>, userId: string)
    requires PointsOk(d)
    ensures PointsOk(ApplyMerges(d, merges, userId))
  {
    if merges != [] {
      var before, m := ApplyMerges(d, merges[..|merges| - 1], userId), merges[|merges| - 1];
      MergesKeepOk(d, merges[..|merges| - 1], userId);
      AddAllOk(before, [m.point]);
      DeleteAllLeaves(AddAll(before, [m.point]), m.doomed, userId);
      SurvivorsOk(AddAll(before, [m.point]), m.doomed, userId);
    }
  }

  lemma FreshAfter(d: Points, front: seq<Merge>, m: Merge, ids: seq<string>, userId: string)
    requires FreshPoints(d, front + [m])
    ensures !Has(Survivors(d, ids, userId) + Entries(front), m.point.id)
  {
    var all := Survivors(d, ids, userId) + Entries(front);
    HasIsMembership(all, m.point.id);
    HasIsMembership(d, m.point.id);
    assert (front + [m])[|front|] == m;
    assert forall k :: 0 <= k < |front| ==> (front + [m])[k] == front[k];
    forall i | 0 <= i < |all| ensures all[i].0 != m.point.id {
      if i < |Survivors(d, ids, userId)| {
        SurvivorsAreOld(d, ids, userId, all[i]);
        var j :| 0 <= j < |d| && d[j] == all[i];
        assert Keys(d)[j] == all[i].0;
      }
    }
  }

  /** One more merge: its sources go, its merged point comes last. */
  lemma MergeStep(d: Points, front: seq<Merge>, m: Merge, ids: seq<string>, userId: string)
    requires FreshPoints(d, front + [m]) && AllOwned(d, userId, m.doomed)
    requires PointsOk(Survivors(d, ids, userId) + Entries(front))
    ensures ApplyMerge(Survivors(d, ids, userId) + Entries(front), m, userId)
         == Survivors(d, ids + m.doomed, userId) + Entries(front + [m])
  {
    var kept, added := Survivors(d, ids, userId), Entries(front + [m]);
    FreshAfter(d, front, m, ids, userId);
    AddFresh(kept + Entries(front), m.point);
    AddAllOk(kept + Entries(front), [m.point]);
    assert (kept + Entries(front)) + [(m.point.id, m.point)] == kept + added;
    DeleteAllLeaves(kept + added, m.doomed, userId);
    SurvivorsAppend(kept, added, m.doomed, userId);
    SurvivorsCompose(d, ids, m.doomed, userId);
    forall i | 0 <= i < |added| ensures added[i].0 !in m.doomed {
      assert added[i].0 == (front + [m])[i].point.id;
      assert !Has(d, (front + [m])[i].point.id);
    }
    UntouchedEntries(added, m.doomed, userId);
  }

  /** The store after all merges: the old one without what the merges delete, followed by their merged points. */
  lemma {:induction false} MergesExactly(d: Points, merges: seq<Merge>, userId: string)
    requires PointsOk(d) && FreshPoints(d, merges) && AllOwned(d, userId, AllDoomed(merges))
    ensures ApplyMerges(d, merges, userId) == Survivors(d, AllDoomed(merges), userId) + Entries(merges)
  {
    if merges == [] {
      NothingNamed(d, userId);
    } else {
      var front, m := merges[..|merges| - 1], merges[|merges| - 1];
      SplitLast(merges);
      MergesExactly(d, front, userId);
      MergesKeepOk(d, front, userId);
      MergeStep(d, front, m, AllDoomed(front), userId);
    }
  }

  lemma {:induction false} DeletedIsLength(merges: seq<Merge>)
    ensures Deleted(merges) == |AllDoomed(merges)|
  {
    if merges != [] {
      DeletedIsLength(merges[..|merges| - 1]);
    }
  }

  /**
   What a merge needs for the counters to be right. With every source named once, the merge replaces n points by one
   if and only if the merged id was not in the store; a merged id that was there overwrites the point that had it.
   */
  lemma ReplacedCountIffFresh(d: Points, m: Merge, userId: string)
    requires PointsOk(d) && AllOwned(d, userId, m.doomed) && NoRepeats(m.doomed) && m.point.id !in m.doomed
    ensures |ApplyMerge(d, m, userId)| == |d| - |m.doomed| + 1 <==> !Has(d, m.point.id)
  {
    hide NoRepeats, PointsOk;
    var added := AddAll(d, [m.point]);
    AddOne(d, m.point);
    PutProperties(d, m.point.id, m.point, m.point.id);
    AddAllOk(d, [m.point]);
    DeleteAllLeaves(added, m.doomed, userId);
    forall id | id in m.doomed ensures UsersOwn(added, userId, id) {
      PutProperties(d, m.point.id, m.point, id);
    }
    RemovedCount(added, m.doomed, userId);
  }

  // ---- A run that reuses ids ----

  /** How many of the merged ids the store already had. */
  function Held(d: Points, merges: seq<Merge>): nat {
    if merges == [] then 0
    else Held(d, merges[..|merges| - 1]) + if Has(d, merges[|merges| - 1].point.id) then 1 else 0
  }

  ghost predicate IdsDiffer(merges: seq<Merge>) {
    forall j, k :: 0 <= j < k < |merges| ==> merges[j].point.id != merges[k].point.id
  }

  ghost predicate NoneNamed(merges: seq<Merge>, ids: seq<string>) {
    forall k :: 0 <= k < |merges| ==> merges[k].point.id !in ids
  }

  /** The merged ids differ from each other, and no merge deletes one of them. */
  ghost predicate Separate(merges: seq<Merge>) {
    IdsDiffer(merges) && NoneNamed(merges, AllDoomed(merges))
  }

  lemma DifferFront(front: seq<Merge>, m: Merge)
    requires IdsDiffer(front + [m])
    ensures IdsDiffer(front) && forall k :: 0 <= k < |front| ==> front[k].point.id != m.point.id
  {
    var all := front + [m];
    forall k | 0 <= k < |front| ensures front[k].point.id != m.point.id {
      assert all[k] == front[k] && all[|front|] == m;
    }
    forall j, k | 0 <= j < k < |front| ensures front[j].point.id != front[k].point.id {
      assert all[j] == front[j] && all[k] == front[k];
    }
  }

  lemma NamedFront(front: seq<Merge>, m: Merge, ids: seq<string>, more: seq<string>)
    requires NoneNamed(front + [m], ids + more)
    ensures NoneNamed(front, ids) && NoneNamed(front, more) && m.point.id !in ids && m.point.id !in more
  {
    var all := front + [m];
    assert all[|front|] == m;
    forall k | 0 <= k < |front| ensures front[k].point.id !in ids && front[k].point.id !in more {
      assert all[k] == front[k];
    }
  }

  lemma SeparateFront(front: seq<Merge>, m: Merge)
    requires Separate(front + [m])
    ensures Separate(front) && m.point.id !in m.doomed && m.point.id !in AllDoomed(front)
    ensures NoneNamed(front, m.doomed) && forall k :: 0 <= k < |front| ==> front[k].point.id != m.point.id
  {
    hide IdsDiffer, NoneNamed;
    assert (front + [m])[..|front|] == front;
    DifferFront(front, m);
    NamedFront(front, m, AllDoomed(front), m.doomed);
  }

  /** An id that the merges neither write nor delete holds what it held. */
  lemma {:induction false} MergesLeave(d: Points, merges: seq<Merge>, userId: string, id: string)
    requires PointsOk(d) && id !in AllDoomed(merges) && forall k :: 0 <= k < |merges| ==> merges[k].point.id != id
    ensures Get(ApplyMerges(d, merges, userId), id) == Get(d, id)
  {
    if merges != [] {
      hide PointsOk;
      var front, m := merges[..|merges| - 1], merges[|merges| - 1];
      var before := ApplyMerges(d, front, userId);
      MergesLeave(d, front, userId, id);
      MergesKeepOk(d, front, userId);
      AddOne(before, m.point);
      PutProperties(before, m.point.id, m.point, id);
      AddAllOk(before, [m.point]);
      DeleteAllLeaves(AddAll(before, [m.point]), m.doomed, userId);
      SurvivorsGet(AddAll(before, [m.point]), m.doomed, userId, id);
    }
  }

  lemma OneMergeCount(before: Points, m: Merge, userId: string)
    requires PointsOk(before) && AllThere(before, m.doomed, userId) && m.point.id !in m.doomed
    ensures |ApplyMerge(before, m, userId)| == |before| - |m.doomed| + if Has(before, m.point.id) then 0 else 1
  {
    hide PointsOk, NoRepeats;
    var added := AddAll(before, [m.point]);
    AddOne(before, m.point);
    PutProperties(before, m.point.id, m.point, m.point.id);
    AddAllOk(before, [m.point]);
    DeleteAllLeaves(added, m.doomed, userId);
    forall i | 0 <= i < |m.doomed| ensures UsersOwn(added, userId, m.doomed[i]) {
      PutProperties(before, m.point.id, m.point, m.doomed[i]);
    }
    RemovedCount(added, m.doomed, userId);
  }

  lemma ThereParts(d: Points, a: seq<string>, b: seq<string>, userId: string)
    requires AllThere(d, a + b, userId)
    ensures AllThere(d, a, userId) && AllThere(d, b, userId) && forall x :: x in b ==> x !in a
  {
    var all := a + b;
    assert forall i :: 0 <= i < |a| ==> all[i] == a[i];
    assert forall i :: 0 <= i < |b| ==> all[|a| + i] == b[i];
  }

  /**
   A run's size: the points deleted go, and each merged point adds one unless its id was in the store before the run.
   */
  lemma {:induction false} RunCount(d: Points, merges: seq<Merge>, userId: string)
    requires PointsOk(d) && Separate(merges) && AllThere(d, AllDoomed(merges), userId)
    ensures |ApplyMerges(d, merges, userId)| == |d| - Deleted(merges) + |merges| - Held(d, merges)
  {
    if merges != [] {
      hide PointsOk, Separate, AllThere, NoneNamed;
      var front, m := merges[..|merges| - 1], merges[|merges| - 1];
      SplitLast(merges);
      SeparateFront(front, m);
      ThereParts(d, AllDoomed(front), m.doomed, userId);
      RunCount(d, front, userId);
      MergesKeepOk(d, front, userId);
      MergesLeave(d, front, userId, m.point.id);
      StillThere(d, front, m.doomed, userId);
      OneMergeCount(ApplyMerges(d, front, userId), m, userId);
    }
  }

  lemma StillThere(d: Points, front: seq<Merge>, ids: seq<string>, userId: string)
    requires PointsOk(d) && AllThere(d, ids, userId) && forall x :: x in ids ==> x !in AllDoomed(front)
    requires NoneNamed(front, ids)
    ensures AllThere(ApplyMerges(d, front, userId), ids, userId)
  {
    hide PointsOk;
    forall i | 0 <= i < |ids| ensures UsersOwn(ApplyMerges(d, front, userId), userId, ids[i]) {
      MergesLeave(d, front, userId, ids[i]);
    }
  }

  lemma {:induction false} NoneHeldIff(d: Points, merges: seq<Merge>)
    ensures Held(d, merges) == 0 <==> forall k :: 0 <= k < |merges| ==> !Has(d, merges[k].point.id)
  {
    if merges != [] {
      var front := merges[..|merges| - 1];
      NoneHeldIff(d, front);
      assert forall k :: 0 <= k < |front| ==> front[k] == merges[k];
    }
  }

  /**
   A whole run replaces what it deletes by one point a merge if and only if none of the merged ids was in the store.
   */
  lemma RunReplacesIffFresh(d: Points, merges: seq<Merge>, userId: string)
    requires PointsOk(d) && Separate(merges) && AllThere(d, AllDoomed(merges), userId)
    ensures |ApplyMerges(d, merges, userId)| == |d| - Deleted(merges) + |merges|
            <==> forall k :: 0 <= k < |merges| ==> !Has(d, merges[k].point.id)
  {
    hide PointsOk, Separate, AllThere, Has;
    RunCount(d, merges, userId);
    NoneHeldIff(d, merges);
  }

  // ---- Whose point is it ----

  ghost predicate DistinctIds(s: seq<MemoryPoint>) {
    forall i, j :: 0 <= i < j < |s| ==> s[i].id != s[j].id
  }

  /** Points of one kind that the user has in the store, none twice. */
  ghost predicate StoredAs(s: seq<MemoryPoint>, d: Points, userId: string, kind: Kind) {
    && DistinctIds(s)
    && forall i :: 0 <= i < |s| ==> Get(d, s[i].id) == Some(s[i]) && Wanted(s[i], userId, Some(kind))
  }

  lemma LoadedStored(d: Points, userId: string, kind: Kind)
    requires PointsOk(d)
    ensures StoredAs(Loaded(d, userId, kind), d, userId, kind)
  {
    var s := Loaded(d, userId, kind);
    forall i | 0 <= i < |s| ensures Get(d, s[i].id) == Some(s[i]) && Wanted(s[i], userId, Some(kind)) {
      TraversalIsExact(d, userId, Some(kind), s[i], 0.0);
    }
    forall i, j | 0 <= i < j < |s| ensures s[i].id != s[j].id {
      TraversalIsExact(d, userId, Some(kind), s[i], 0.0);
      if s[i].id == s[j].id {
        TwiceCounted(s, i, j);
      }
    }
  }

  lemma ResortedStored(s: seq<MemoryPoint>, t: seq<MemoryPoint>, d: Points, userId: string, kind: Kind)
    requires StoredAs(s, d, userId, kind) && multiset(s) == multiset(t)
    ensures StoredAs(t, d, userId, kind)
  {
    forall i | 0 <= i < |t| ensures t[i] in s && multiset(t)[t[i]] == 1 {
      assert t[i] in multiset(t);
      OnceOnly(s, t[i]);
    }
    forall i, j | 0 <= i < j < |t| ensures t[i].id != t[j].id {
      if t[i].id == t[j].id {
        assert t[i] in s && t[j] in s;
        TwiceCounted(t, i, j);
      }
    }
  }

  lemma {:induction false} OnceOnly(s: seq<MemoryPoint>, p: MemoryPoint)
    requires DistinctIds(s)
    ensures multiset(s)[p] <= 1
  {
    if s != [] {
      OnceOnly(s[1..], p);
      assert s == [s[0]] + s[1..];
      assert forall j :: 0 <= j < |s[1..]| ==> s[1..][j] == s[j + 1];
    }
  }

  lemma ConsideredStored(d: Points, userId: string, max: int)
    requires PointsOk(d)
    ensures StoredAs(Considered(d, userId, max), d, userId, Conversation)
  {
    var all := Loaded(d, userId, Conversation);
    LoadedStored(d, userId, Conversation);
    if |all| > max {
      SortBySorts(all, NewestFirst);
      ResortedStored(all, SortBy(all, NewestFirst), d, userId, Conversation);
    }
  }

  /** No two of the points stand for the same conversation. */
  ghost predicate DistinctConversations(conv: seq<MemoryPoint>) {
    forall i, j :: 0 <= i < j < |conv| ==> ConvId(conv[i]) != ConvId(conv[j])
  }

  ghost predicate HasMoment(moments: seq<MemoryPoint>, cid: string, id: string) {
    exists m :: m in moments && m.id == id && IsMomentOf(m, cid)
  }

  /** The point itself or one of its moment siblings. */
  ghost predicate Owns(p: MemoryPoint, moments: seq<MemoryPoint>, id: string) {
    p.id == id || HasMoment(moments, ConvId(p), id)
  }

  lemma {:induction false} MomentIdsAre(moments: seq<MemoryPoint>, cid: string, id: string)
    ensures id in MomentIds(moments, cid) <==> HasMoment(moments, cid, id)
  {
    if moments != [] {
      var front, last := moments[..|moments| - 1], moments[|moments| - 1];
      SplitLast(moments);
      MomentIdsAre(front, cid, id);
      assert forall m :: m in moments <==> m in front || m == last;
    }
  }

  lemma {:induction false} MomentIdsOnce(moments: seq<MemoryPoint>, cid: string)
    requires DistinctIds(moments)
    ensures NoRepeats(MomentIds(moments, cid))
  {
    if moments != [] {
      var front, last := moments[..|moments| - 1], moments[|moments| - 1];
      MomentIdsOnce(front, cid);
      MomentIdsAre(front, cid, last.id);
      if IsMomentOf(last, cid) {
        NoRepeatsLast(MomentIds(front, cid) + [last.id]);
        assert (MomentIds(front, cid) + [last.id])[..|MomentIds(front, cid)|] == MomentIds(front, cid);
      }
    }
  }

  lemma OneConversation(moments: seq<MemoryPoint>, a: string, b: string, id: string)
    requires DistinctIds(moments) && HasMoment(moments, a, id) && HasMoment(moments, b, id)
    ensures a == b
  {
  }

  lemma {:induction false} SiblingsAre(moments: seq<MemoryPoint>, convIds: seq<string>, id: string)
    ensures id in SiblingsOf(moments, convIds) <==> exists k :: 0 <= k < |convIds| && HasMoment(moments, convIds[k], id)
  {
    hide HasMoment;
    if convIds != [] {
      var front, last := convIds[..|convIds| - 1], convIds[|convIds| - 1];
      SiblingsAre(moments, front, id);
      MomentIdsAre(moments, last, id);
      assert forall k :: 0 <= k < |front| ==> front[k] == convIds[k];
    }
  }

  lemma AppendOnce(a: seq<string>, b: seq<string>)
    requires NoRepeats(a) && NoRepeats(b) && forall x :: x in a ==> x !in b
    ensures NoRepeats(a + b)
  {
    var s := a + b;
    forall i, j | 0 <= i < j < |s| ensures s[i] != s[j] {
      if i < |a| <= j {
        assert s[i] in a && s[j] in b;
      }
    }
  }

  lemma {:induction false} SiblingsOnce(moments: seq<MemoryPoint>, convIds: seq<string>)
    requires DistinctIds(moments) && NoRepeats(convIds)
    ensures NoRepeats(SiblingsOf(moments, convIds))
  {
    if convIds != [] {
      var front, last := convIds[..|convIds| - 1], convIds[|convIds| - 1];
      SiblingsOnce(moments, front);
      MomentIdsOnce(moments, last);
      forall x | x in SiblingsOf(moments, front) ensures x !in MomentIds(moments, last) {
        SiblingsAre(moments, front, x);
        MomentIdsAre(moments, last, x);
        var k :| 0 <= k < |front| && HasMoment(moments, front[k], x);
        var cid := front[k];
        assert convIds[k] == cid;
        if HasMoment(moments, last, x) {
          OneConversation(moments, cid, last, x);
        }
      }
      AppendOnce(SiblingsOf(moments, front), MomentIds(moments, last));
    }
  }

  // ---- What one group deletes ----

  ghost predicate Ascending(group: seq<nat>) {
    forall i, j :: 0 <= i < j < |group| ==> group[i] < group[j]
  }

  /** The points and the moment siblings of a group's members. */
  ghost predicate OwnedByGroup(conv: seq<MemoryPoint>, moments: seq<MemoryPoint>, group: seq<nat>, id: string)
    requires Within(group, |conv|)
  {
    exists k :: 0 <= k < |group| && Owns(conv[group[k]], moments, id)
  }

  lemma DoomedAre(conv: seq<MemoryPoint>, moments: seq<MemoryPoint>, group: seq<nat>, uuid: string -> string,
      id: string)
    requires Within(group, |conv|)
    ensures id in Doomed(moments, ItemOf(Select(conv, group), uuid)) <==> OwnedByGroup(conv, moments, group, id)
  {
    var item := ItemOf(Select(conv, group), uuid);
    SiblingsAre(moments, item.convIds, id);
    if id in item.sources {
      var k :| 0 <= k < |group| && item.sources[k] == id;
      assert Owns(conv[group[k]], moments, id);
    }
    if k :| 0 <= k < |group| && HasMoment(moments, item.convIds[k], id) {
      assert Owns(conv[group[k]], moments, id);
    }
    if k :| 0 <= k < |group| && Owns(conv[group[k]], moments, id) {
      assert item.sources[k] == conv[group[k]].id && item.convIds[k] == ConvId(conv[group[k]]);
    }
  }

  ghost predicate Setting(conv: seq<MemoryPoint>, moments: seq<MemoryPoint>, d: Points, userId: string) {
    && StoredAs(conv, d, userId, Conversation)
    && StoredAs(moments, d, userId, Moment)
    && DistinctConversations(conv)
  }

  lemma MomentStored(conv: seq<MemoryPoint>, moments: seq<MemoryPoint>, d: Points, userId: string, cid: string,
      id: string)
    requires Setting(conv, moments, d, userId) && HasMoment(moments, cid, id)
    ensures UsersOwn(d, userId, id) && Get(d, id).value.payload.kind == Moment
  {
  }

  lemma NoMoment(conv: seq<MemoryPoint>, moments: seq<MemoryPoint>, d: Points, userId: string, i: nat)
    requires Setting(conv, moments, d, userId) && i < |conv|
    ensures forall cid :: !HasMoment(moments, cid, conv[i].id)
  {
  }

  /** Every id is owned by at most one of the points. */
  lemma OwnerUnique(conv: seq<MemoryPoint>, moments: seq<MemoryPoint>, d: Points, userId: string, i: nat, j: nat,
      id: string)
    requires Setting(conv, moments, d, userId) && i < |conv| && j < |conv|
    requires Owns(conv[i], moments, id) && Owns(conv[j], moments, id)
    ensures i == j
  {
    if HasMoment(moments, ConvId(conv[i]), id) {
      MomentStored(conv, moments, d, userId, ConvId(conv[i]), id);
    }
    if HasMoment(moments, ConvId(conv[j]), id) {
      MomentStored(conv, moments, d, userId, ConvId(conv[j]), id);
    }
    if HasMoment(moments, ConvId(conv[i]), id) && HasMoment(moments, ConvId(conv[j]), id) {
      OneConversation(moments, ConvId(conv[i]), ConvId(conv[j]), id);
    }
  }

  lemma OwnedStored(conv: seq<MemoryPoint>, moments: seq<MemoryPoint>, d: Points, userId: string, i: nat, id: string)
    requires Setting(conv, moments, d, userId) && i < |conv| && Owns(conv[i], moments, id)
    ensures UsersOwn(d, userId, id)
  {
    if HasMoment(moments, ConvId(conv[i]), id) {
      MomentStored(conv, moments, d, userId, ConvId(conv[i]), id);
    }
  }

  lemma DoomedOnce(conv: seq<MemoryPoint>, moments: seq<MemoryPoint>, d: Points, userId: string, group: seq<nat>,
      uuid: string -> string)
    requires Setting(conv, moments, d, userId) && Within(group, |conv|) && Ascending(group)
    ensures NoRepeats(Doomed(moments, ItemOf(Select(conv, group), uuid)))
  {
    var item := ItemOf(Select(conv, group), uuid);
    assert NoRepeats(item.sources);
    assert NoRepeats(item.convIds);
    SiblingsOnce(moments, item.convIds);
    forall x | x in item.sources ensures x !in SiblingsOf(moments, item.convIds) {
      SiblingsAre(moments, item.convIds, x);
      var k :| 0 <= k < |group| && item.sources[k] == x;
      NoMoment(conv, moments, d, userId, group[k]);
    }
    AppendOnce(item.sources, SiblingsOf(moments, item.convIds));
  }
}
