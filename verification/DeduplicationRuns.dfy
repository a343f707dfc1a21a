/** The result of a whole deduplication run for one user (jobs/dedup.py). */
module DeduplicationRuns {
  import opened Types
  import opened OrderedDict
  import opened Sequences
  import opened VectorStores
  import opened UnionFind
  import opened MergeIds
  import opened Deduplication
  import opened DeduplicationOutcome

  /** A run: the store before it, the points it loaded, the groups it found, and what its environment answers. */
  datatype Job = Job(
    before: Points,
    userId: string,
    conv: seq<MemoryPoint>,
    moments: seq<MemoryPoint>,
    groups: seq<seq<nat>>,
    env: Environment)

  function JobOf(d: Points, userId: string, max: int, groups: seq<seq<nat>>, env: Environment): Job {
    Job(d, userId, Considered(d, userId, max), Loaded(d, userId, Moment), groups, env)
  }

  function ItemAt(j: Job, k: nat): BatchItem
    requires k < |j.groups|
  {
    ItemOf(Select(j.conv, j.groups[k]), j.env.uuid)
  }

  /** Merging and embedding the group both succeeded. */
  predicate Succeeds(j: Job, k: nat)
    requires k < |j.groups|
  {
    var item := ItemAt(j, k);
    j.env.merged(item).Some? && j.env.embedded(item.id, j.env.merged(item).value).Some?
  }

  function PointOf(j: Job, k: nat): MemoryPoint
    requires k < |j.groups| && Succeeds(j, k)
  {
    var item := ItemAt(j, k);
    var text := j.env.merged(item).value;
    MergedPoint(j.userId, j.conv, item, text, j.env.embedded(item.id, text).value, j.env)
  }

  function MergesAt(j: Job, k: nat): seq<Merge>
    requires k < |j.groups|
  {
    if Succeeds(j, k) then [Merge(PointOf(j, k), Doomed(j.moments, ItemAt(j, k)))] else []
  }

  function Along(j: Job, order: seq<nat>): seq<Merge>
    requires Within(order, |j.groups|)
  {
    if order == [] then [] else Along(j, order[..|order| - 1]) + MergesAt(j, order[|order| - 1])
  }

  /** No merged id is in use, and no two groups share one. */
  ghost predicate FreshIds(j: Job) {
    (forall k :: 0 <= k < |j.groups| ==> !Has(j.before, MERGED + ItemAt(j, k).id)) && IdsApart(j)
  }

  /** No two groups share a merged id. */
  ghost predicate IdsApart(j: Job) {
    forall i, k :: 0 <= i < k < |j.groups| ==> ItemAt(j, i).id != ItemAt(j, k).id
  }

  ghost predicate ProperGroups(groups: seq<seq<nat>>, n: nat) {
    && (forall k :: 0 <= k < |groups| ==> Within(groups[k], n) && Ascending(groups[k]))
    && Apart(groups)
  }

  ghost predicate Tidy(j: Job) {
    && PointsOk(j.before)
    && Setting(j.conv, j.moments, j.before, j.userId)
    && ProperGroups(j.groups, |j.conv|)
  }

  ghost predicate Clean(j: Job) {
    Tidy(j) && FreshIds(j)
  }

  lemma ComponentsProper(groups: seq<seq<nat>>, n: nat, edges: seq<Edge>)
    requires AreComponents(groups, n, edges)
    ensures ProperGroups(groups, n)
  {
    forall k | 0 <= k < |groups| ensures Within(groups[k], n) && Ascending(groups[k]) {
      var g := groups[k];
      assert g in groups && g[0] in g;
      assert IsComponent(g, n, edges, g[0]);
      forall i | 0 <= i < |g| ensures g[i] < n {
        assert g[i] in g;
      }
    }
  }

  // ---- The merges of the run, in the order the batch answers ----

  lemma {:induction false} CollectedKeys(items: seq<BatchItem>, order: seq<nat>, merged: BatchItem -> Option<string>,
      id: string)
    requires Within(order, |items|)
    ensures Has(Collected(items, order, merged), id) ==> exists i :: 0 <= i < |order| && items[order[i]].id == id
  {
    if order != [] {
      var front, item := order[..|order| - 1], items[order[|order| - 1]];
      CollectedKeys(items, front, merged, id);
      var before := Collected(items, front, merged);
      if merged(item).Some? {
        PutProperties<string, (string, BatchItem)>(before, item.id, (merged(item).value, item), id);
      }
      assert forall i :: 0 <= i < |front| ==> front[i] == order[i];
    }
  }

  lemma KeyUnused(j: Job, order: seq<nat>, k: nat)
    requires IdsApart(j) && Within(order, |j.groups|) && k < |j.groups| && k !in order
    ensures !Has(Collected(Items(j.conv, j.groups, j.env.uuid), order, j.env.merged), ItemAt(j, k).id)
  {
    var items := Items(j.conv, j.groups, j.env.uuid);
    CollectedKeys(items, order, j.env.merged, ItemAt(j, k).id);
    forall i | 0 <= i < |order| ensures items[order[i]].id != ItemAt(j, k).id {
      assert order[i] in order;
      assert items[order[i]] == ItemAt(j, order[i]);
    }
  }

  lemma {:induction false} MergesInOrder(j: Job, order: seq<nat>)
    requires IdsApart(j) && Within(order, |j.groups|) && NoRepeats(order)
    ensures Merges(j.userId, j.conv, j.moments, j.env,
              Collected(Items(j.conv, j.groups, j.env.uuid), order, j.env.merged))
         == Along(j, order)
  {
    if order != [] {
      var front, k := order[..|order| - 1], order[|order| - 1];
      MergesInOrder(j, front);
      KeyUnused(j, front, k);
      var items := Items(j.conv, j.groups, j.env.uuid);
      var before := Collected(items, front, j.env.merged);
      assert items[k] == ItemAt(j, k);
      var text := j.env.merged(items[k]);
      if text.Some? {
        var e := (items[k].id, (text.value, items[k]));
        PutAbsent<string, (string, BatchItem)>(before, e.0, e.1);
        assert (before + [e])[..|before|] == before;
      }
    }
  }

  lemma AlongStep(j: Job, order: seq<nat>)
    requires order != [] && Within(order, |j.groups|)
    ensures var front, k := order[..|order| - 1], order[|order| - 1];
            && AllDoomed(Along(j, order)) ==
                 if Succeeds(j, k) then AllDoomed(Along(j, front)) + Doomed(j.moments, ItemAt(j, k))
                     else AllDoomed(Along(j, front))
  {
    hide Succeeds, AllDoomed;
    var front, k := order[..|order| - 1], order[|order| - 1];
    if Succeeds(j, k) {
      assert Along(j, order) == Along(j, front) + [MergesAt(j, k)[0]];
      DoomedWith(Along(j, front), MergesAt(j, k)[0]);
    } else {
      assert Along(j, order) == Along(j, front);
    }
  }

  lemma DoomedWith(merges: seq<Merge>, m: Merge)
    ensures AllDoomed(merges + [m]) == AllDoomed(merges) + m.doomed
  {
    assert (merges + [m])[..|merges|] == merges;
  }

  lemma {:induction false} AlongPoints(j: Job, order: seq<nat>, m: Merge)
    requires Within(order, |j.groups|)
    ensures m in Along(j, order) <==> exists i :: 0 <= i < |order| && m in MergesAt(j, order[i])
  {
    hide MergesAt;
    if order != [] {
      var front := order[..|order| - 1];
      AlongPoints(j, front, m);
      assert forall i :: 0 <= i < |front| ==> front[i] == order[i];
    }
  }

  lemma ItemIdsDiffer(j: Job, i: nat, k: nat)
    requires IdsApart(j) && i < |j.groups| && k < |j.groups| && i != k
    ensures ItemAt(j, i).id != ItemAt(j, k).id
  {
    hide ItemAt;
  }

  lemma IdUnused(j: Job, order: seq<nat>, k: nat, m: Merge)
    requires IdsApart(j) && Within(order, |j.groups|) && k < |j.groups| && k !in order && m in Along(j, order)
    ensures m.point.id != MERGED + ItemAt(j, k).id
  {
    hide Along, ItemAt, Succeeds, IdsApart;
    AlongPoints(j, order, m);
    var l :| 0 <= l < |order| && m in MergesAt(j, order[l]);
    assert order[l] in order;
    ItemIdsDiffer(j, order[l], k);
    PrefixesDiffer(ItemAt(j, order[l]).id, ItemAt(j, k).id);
  }

  lemma {:induction false} AlongFresh(j: Job, order: seq<nat>)
    requires FreshIds(j) && Within(order, |j.groups|) && NoRepeats(order)
    ensures FreshPoints(j.before, Along(j, order))
  {
    hide ItemAt, Succeeds;
    if order != [] {
      var front, k := order[..|order| - 1], order[|order| - 1];
      AlongFresh(j, front);
      if Succeeds(j, k) {
        forall i | 0 <= i < |Along(j, front)| ensures Along(j, front)[i].point.id != MergesAt(j, k)[0].point.id {
          IdUnused(j, front, k, Along(j, front)[i]);
        }
      }
    }
  }

  lemma {:induction false} AlongDiffers(j: Job, order: seq<nat>)
    requires IdsApart(j) && Within(order, |j.groups|) && NoRepeats(order)
    ensures IdsDiffer(Along(j, order))
  {
    hide ItemAt, Succeeds;
    if order != [] {
      var front, k := order[..|order| - 1], order[|order| - 1];
      AlongDiffers(j, front);
      if Succeeds(j, k) {
        forall i | 0 <= i < |Along(j, front)| ensures Along(j, front)[i].point.id != MergesAt(j, k)[0].point.id {
          IdUnused(j, front, k, Along(j, front)[i]);
        }
      }
    }
  }

  lemma PrefixesDiffer(a: string, b: string)
    requires a != b
    ensures MERGED + a != MERGED + b
  {
    assert (MERGED + a)[6..] == a && (MERGED + b)[6..] == b;
  }

  /** A group that was merged successfully owned the id. */
  ghost predicate Replaced(j: Job, order: seq<nat>, id: string)
    requires Within(order, |j.groups|) && ProperGroups(j.groups, |j.conv|)
  {
    exists i :: 0 <= i < |order| && ReplacedBy(j, order[i], id)
  }

  ghost predicate ReplacedBy(j: Job, k: nat, id: string)
    requires k < |j.groups| && Within(j.groups[k], |j.conv|)
  {
    Succeeds(j, k) && OwnedByGroup(j.conv, j.moments, j.groups[k], id)
  }

  lemma ReplacedLast(j: Job, order: seq<nat>, id: string)
    requires order != [] && Within(order, |j.groups|) && ProperGroups(j.groups, |j.conv|)
    ensures Replaced(j, order, id) <==> Replaced(j, order[..|order| - 1], id) || ReplacedBy(j, order[|order| - 1], id)
  {
    hide ReplacedBy, Apart;
    var front := order[..|order| - 1];
    assert forall i :: 0 <= i < |front| ==> front[i] == order[i];
  }

  /** The ids the merges delete are those that the successful groups own. */
  lemma {:induction false} AlongDoomed(j: Job, order: seq<nat>, id: string)
    requires Within(order, |j.groups|) && ProperGroups(j.groups, |j.conv|)
    ensures id in AllDoomed(Along(j, order)) <==> Replaced(j, order, id)
  {
    hide ReplacedBy, ProperGroups, MergesAt;
    if order == [] {
    } else {
      hide Replaced, Along, AllDoomed;
      AlongDoomed(j, order[..|order| - 1], id);
      DoomedLast(j, order, id);
      ReplacedLast(j, order, id);
    }
  }

  lemma DoomedLast(j: Job, order: seq<nat>, id: string)
    requires order != [] && Within(order, |j.groups|) && ProperGroups(j.groups, |j.conv|)
    ensures var front, k := order[..|order| - 1], order[|order| - 1];
            id in AllDoomed(Along(j, order)) <==> id in AllDoomed(Along(j, front)) || ReplacedBy(j, k, id)
  {
    hide Succeeds, OwnedByGroup, ItemAt, Apart, AllDoomed, Along, Doomed;
    AlongStep(j, order);
    DoomedAt(j, order[|order| - 1], id);
  }

  lemma DoomedAt(j: Job, k: nat, id: string)
    requires k < |j.groups| && Within(j.groups[k], |j.conv|)
    ensures id in Doomed(j.moments, ItemAt(j, k)) <==> OwnedByGroup(j.conv, j.moments, j.groups[k], id)
  {
    DoomedAre(j.conv, j.moments, j.groups[k], j.env.uuid, id);
  }

  lemma OneGroup(j: Job, a: nat, b: nat, id: string)
    requires Tidy(j) && a < |j.groups| && b < |j.groups|
    requires OwnedByGroup(j.conv, j.moments, j.groups[a], id) && OwnedByGroup(j.conv, j.moments, j.groups[b], id)
    ensures a == b
  {
    hide FreshIds, Setting, Owns;
    var k :| 0 <= k < |j.groups[a]| && Owns(j.conv[j.groups[a][k]], j.moments, id);
    var l :| 0 <= l < |j.groups[b]| && Owns(j.conv[j.groups[b][l]], j.moments, id);
    OwnerUnique(j.conv, j.moments, j.before, j.userId, j.groups[a][k], j.groups[b][l], id);
    assert j.groups[a][k] in j.groups[a] && j.groups[a][k] in j.groups[b];
  }

  lemma DoomedApart(j: Job, order: seq<nat>, k: nat, id: string)
    requires Tidy(j) && Within(order, |j.groups|) && k < |j.groups| && k !in order && id in AllDoomed(Along(j, order))
    ensures id !in Doomed(j.moments, ItemAt(j, k))
  {
    hide FreshIds, Setting, Succeeds, OwnedByGroup, Apart, Along, AllDoomed, ItemAt, Doomed;
    AlongDoomed(j, order, id);
    DoomedAt(j, k, id);
    var i :| 0 <= i < |order| && ReplacedBy(j, order[i], id);
    assert order[i] in order;
    if OwnedByGroup(j.conv, j.moments, j.groups[k], id) {
      OneGroup(j, order[i], k, id);
    }
  }

  lemma {:induction false} AlongOnce(j: Job, order: seq<nat>)
    requires Tidy(j) && Within(order, |j.groups|) && NoRepeats(order)
    ensures NoRepeats(AllDoomed(Along(j, order)))
  {
    hide FreshIds, Setting, Succeeds, OwnedByGroup, Apart, ItemAt, Doomed;
    if order != [] {
      var front, k := order[..|order| - 1], order[|order| - 1];
      AlongOnce(j, front);
      AlongStep(j, order);
      DoomedOnce(j.conv, j.moments, j.before, j.userId, j.groups[k], j.env.uuid);
      assert NoRepeats(Doomed(j.moments, ItemAt(j, k))) by { ItemIs(j, k); }
      forall x | x in AllDoomed(Along(j, front)) ensures x !in Doomed(j.moments, ItemAt(j, k)) {
        DoomedApart(j, front, k, x);
      }
      AppendOnce(AllDoomed(Along(j, front)), Doomed(j.moments, ItemAt(j, k)));
    }
  }

  lemma ItemIs(j: Job, k: nat)
    requires k < |j.groups|
    ensures ItemAt(j, k) == ItemOf(Select(j.conv, j.groups[k]), j.env.uuid)
  {
  }

  lemma ReplacedStored(j: Job, order: seq<nat>, id: string)
    requires Tidy(j) && Within(order, |j.groups|) && Replaced(j, order, id)
    ensures UsersOwn(j.before, j.userId, id)
  {
    hide FreshIds, Setting, Succeeds, Owns, Apart;
    var i :| 0 <= i < |order| && ReplacedBy(j, order[i], id);
    var g := j.groups[order[i]];
    var k :| 0 <= k < |g| && Owns(j.conv[g[k]], j.moments, id);
    OwnedStored(j.conv, j.moments, j.before, j.userId, g[k], id);
  }

  // ---- The run ----

  function Outcome(j: Job, order: seq<nat>): Points
    requires Within(order, |j.groups|)
  {
    ApplyMerges(j.before, Along(j, order), j.userId)
  }

  /** The old points that no merge replaced, in their order, then one merged point per success, and exact counters. */
  lemma OutcomeIsExact(j: Job, order: seq<nat>)
    requires Clean(j) && Within(order, |j.groups|) && NoRepeats(order)
    ensures var merges := Along(j, order);
            && Outcome(j, order) == Survivors(j.before, AllDoomed(merges), j.userId) + Entries(merges)
            && Deleted(merges) == |j.before| - |Survivors(j.before, AllDoomed(merges), j.userId)|
            && |Outcome(j, order)| == |j.before| - Deleted(merges) + |merges|
  {
    hide Setting, Replaced, FreshIds, Along;
    var merges := Along(j, order);
    AlongFresh(j, order);
    AlongOnce(j, order);
    forall id | id in AllDoomed(merges) ensures UsersOwn(j.before, j.userId, id) {
      AlongDoomed(j, order, id);
      ReplacedStored(j, order, id);
    }
    MergesExactly(j.before, merges, j.userId);
    DeletedIsLength(merges);
    RemovedCount(j.before, AllDoomed(merges), j.userId);
  }

  lemma {:induction false} GetConcat(d: Points, e: Points, id: string)
    ensures Get(d + e, id) == if Has(d, id) then Get(d, id) else Get(e, id)
  {
    if d == [] {
      assert d + e == e;
    } else {
      assert (d + e)[1..] == d[1..] + e;
      GetConcat(d[1..], e, id);
    }
  }

  lemma EntriesGet(d: Points, merges: seq<Merge>, i: nat)
    requires FreshPoints(d, merges) && i < |merges|
    ensures Get(Entries(merges), merges[i].point.id) == Some(merges[i].point)
  {
    GetAt(Entries(merges), i);
  }

  lemma EntriesMiss(merges: seq<Merge>, id: string)
    requires forall i :: 0 <= i < |merges| ==> merges[i].point.id != id
    ensures Get(Entries(merges), id) == None
  {
    HasIsMembership(Entries(merges), id);
  }

  /** What each id holds after the run: every successful group's merged point is there. */
  lemma MergedIsThere(j: Job, order: seq<nat>, k: nat)
    requires Clean(j) && Within(order, |j.groups|) && NoRepeats(order) && k in order && k < |j.groups| && Succeeds(j, k)
    ensures Get(Outcome(j, order), PointOf(j, k).id) == Some(PointOf(j, k))
  {
    hide Setting, Replaced, Along, ProperGroups, PointsOk;
    var merges := Along(j, order);
    OutcomeIsExact(j, order);
    AlongFresh(j, order);
    AlongPoints(j, order, MergesAt(j, k)[0]);
    var i :| 0 <= i < |merges| && merges[i] == MergesAt(j, k)[0];
    EntriesGet(j.before, merges, i);
    var kept := Survivors(j.before, AllDoomed(merges), j.userId);
    GetConcat(kept, Entries(merges), PointOf(j, k).id);
    SurvivorsGet(j.before, AllDoomed(merges), j.userId, PointOf(j, k).id);
  }

  /** ... and every other id is empty if a successful group owned it, and holds what it held before otherwise. */
  lemma OldIsReplacedOrKept(j: Job, order: seq<nat>, id: string)
    requires Clean(j) && Within(order, |j.groups|) && NoRepeats(order)
    requires forall k :: 0 <= k < |j.groups| ==> id != MERGED + ItemAt(j, k).id
    ensures Get(Outcome(j, order), id) == if Replaced(j, order, id) then None else Get(j.before, id)
  {
    hide Setting, Replaced, FreshIds, Along, ProperGroups, PointsOk;
    var merges := Along(j, order);
    OutcomeIsExact(j, order);
    forall i | 0 <= i < |merges| ensures merges[i].point.id != id {
      AlongPoints(j, order, merges[i]);
      var l :| 0 <= l < |order| && merges[i] in MergesAt(j, order[l]);
      assert merges[i].point.id == MERGED + ItemAt(j, order[l]).id;
    }
    EntriesMiss(merges, id);
    forall x | x in AllDoomed(merges) ensures UsersOwn(j.before, j.userId, x) {
      AlongDoomed(j, order, x);
      ReplacedStored(j, order, x);
    }
    SurvivorsGet(j.before, AllDoomed(merges), j.userId, id);
    GetConcat(Survivors(j.before, AllDoomed(merges), j.userId), Entries(merges), id);
    AlongDoomed(j, order, id);
  }

  /** In whatever order the batch answers, the run's merges are those of its successful groups in that order. */
  lemma RunIsOutcome(d: Points, userId: string, max: int, groups: seq<seq<nat>>, env: Environment)
    requires Arrangement(env.arrival(|groups|), |groups|) && IdsApart(JobOf(d, userId, max, groups, env))
    ensures Within(env.arrival(|groups|), |groups|)
    ensures RunMerges(d, userId, max, groups, env) == Along(JobOf(d, userId, max, groups, env), env.arrival(|groups|))
  {
    ArrivesWithin(env.arrival(|groups|), |groups|);
    MergesInOrder(JobOf(d, userId, max, groups, env), env.arrival(|groups|));
  }

  /** A run's job is clean once its conversations are distinct and its merged ids are fresh. */
  lemma RunIsClean(d: Points, userId: string, max: int, groups: seq<seq<nat>>, env: Environment, edges: seq<Edge>)
    requires PointsOk(d) && AreComponents(groups, |Considered(d, userId, max)|, edges)
    requires DistinctConversations(Considered(d, userId, max)) && FreshIds(JobOf(d, userId, max, groups, env))
    ensures Clean(JobOf(d, userId, max, groups, env))
  {
    hide AreComponents, ProperGroups, FreshIds;
    ConsideredStored(d, userId, max);
    LoadedStored(d, userId, Moment);
    ComponentsProper(groups, |Considered(d, userId, max)|, edges);
  }

  // ---- Who is replaced ----

  /** A group's points and moment siblings go if and only if the group was merged and embedded. */
  lemma MemberFate(j: Job, order: seq<nat>, k: nat, i: nat, id: string)
    requires Tidy(j) && Arrangement(order, |j.groups|) && Within(order, |j.groups|) && k < |j.groups|
    requires i in j.groups[k] && i < |j.conv| && Owns(j.conv[i], j.moments, id)
    ensures Replaced(j, order, id) <==> Succeeds(j, k)
  {
    hide Setting, FreshIds, Succeeds, Apart, Owns;
    assert k in order;
    var l :| 0 <= l < |order| && order[l] == k;
    var m :| 0 <= m < |j.groups[k]| && j.groups[k][m] == i;
    assert OwnedByGroup(j.conv, j.moments, j.groups[k], id);
    if Replaced(j, order, id) {
      var n :| 0 <= n < |order| && ReplacedBy(j, order[n], id);
      OneGroup(j, order[n], k, id);
    }
  }

  /** A point in no group stays, and so do its moment siblings. */
  lemma SingletonStays(j: Job, order: seq<nat>, i: nat, id: string)
    requires Tidy(j) && Within(order, |j.groups|)
    requires i < |j.conv| && (forall k :: 0 <= k < |j.groups| ==> i !in j.groups[k]) && Owns(j.conv[i], j.moments, id)
    ensures !Replaced(j, order, id)
  {
    hide Setting, FreshIds, Succeeds, Apart, Owns;
    if Replaced(j, order, id) {
      var n :| 0 <= n < |order| && ReplacedBy(j, order[n], id);
      var g := j.groups[order[n]];
      var l :| 0 <= l < |g| && Owns(j.conv[g[l]], j.moments, id);
      OwnerUnique(j.conv, j.moments, j.before, j.userId, g[l], i, id);
    }
  }

  /** Nothing of another user's is replaced. */
  lemma OtherUsersStay(j: Job, order: seq<nat>, p: MemoryPoint)
    requires Clean(j) && Within(order, |j.groups|) && NoRepeats(order)
    requires Get(j.before, p.id) == Some(p) && p.payload.userId != j.userId
    ensures Get(Outcome(j, order), p.id) == Some(p)
  {
    hide Setting, Replaced, Succeeds, ProperGroups, PointsOk;
    assert Has(j.before, p.id);
    OldIsReplacedOrKept(j, order, p.id);
    if Replaced(j, order, p.id) {
      ReplacedStored(j, order, p.id);
    }
  }

  // ---- The merged points ----

  lemma {:induction false} OldestIs(points: seq<MemoryPoint>, clock: string -> real, now: real)
    requires points != []
    ensures forall i :: 0 <= i < |points| ==> Oldest(points, clock, now) <= StampOr(points[i], clock)
    ensures exists i :: 0 <= i < |points| && Oldest(points, clock, now) == StampOr(points[i], clock)
  {
    if |points| == 1 {
      assert Oldest(points, clock, now) == StampOr(points[0], clock);
    } else {
      OldestIs(points[1..], clock, now);
      var k :| 0 <= k < |points[1..]| && Oldest(points[1..], clock, now) == StampOr(points[1..][k], clock);
      assert points[1..][k] == points[k + 1];
      assert forall i :: 1 <= i < |points| ==> points[i] == points[1..][i - 1];
      assert StampOr(points[0], clock) == Oldest(points, clock, now)
          || StampOr(points[k + 1], clock) == Oldest(points, clock, now);
    }
  }

  lemma {:induction false} SourcesAre(conv: seq<MemoryPoint>, ids: seq<string>, p: MemoryPoint)
    ensures p in SourcePoints(conv, ids) <==> p in conv && p.id in ids
  {
    if conv != [] {
      SourcesAre(conv[1..], ids, p);
      assert p in conv <==> p == conv[0] || p in conv[1..];
    }
  }

  /** The point's time, or for a point without one what the clock showed when it was looked up. */
  predicate DatedAt(p: MemoryPoint, clock: string -> real, ts: real) {
    p.payload.ts == Some(ts) || (p.payload.ts == None && clock(p.id) == ts)
  }

  /** None of the points is older, and one is as old. */
  ghost predicate IsOldest(points: seq<MemoryPoint>, clock: string -> real, ts: real) {
    && (forall i, t :: 0 <= i < |points| && DatedAt(points[i], clock, t) ==> ts <= t)
    && (exists i :: 0 <= i < |points| && DatedAt(points[i], clock, ts))
  }

  /**
   A merged point belongs to the user, lists exactly its group's conversations, and is as old as the oldest of them.
   Its text is the answer to the group's batch item, and its vector that text's embedding.
   */
  lemma MergedPointOfGroup(j: Job, k: nat)
    requires Tidy(j) && k < |j.groups| && j.groups[k] != [] && Succeeds(j, k)
    ensures var p := PointOf(j, k);
            && p.payload.userId == j.userId && p.payload.kind == Conversation && p.payload.conversationId == None
            && j.env.merged(ItemAt(j, k)) == Some(p.payload.text)
            && j.env.embedded(ItemAt(j, k).id, p.payload.text) == Some(p.vector)
            && p.payload.sourceConversationIds == ConvIds(Select(j.conv, j.groups[k]))
            && p.payload.ts.Some? && IsOldest(Select(j.conv, j.groups[k]), j.env.clock, p.payload.ts.value)
  {
    hide FreshIds, Succeeds, Apart;
    AnsweredSo(j, k);
    var members := Select(j.conv, j.groups[k]);
    var sources := SourcePoints(j.conv, ItemAt(j, k).sources);
    forall p ensures p in sources <==> p in members {
      SourcesAre(j.conv, ItemAt(j, k).sources, p);
      SameById(j, k, p);
    }
    OldestOfMembers(sources, members, j.env.clock, j.env.now);
  }

  lemma OldestOfMembers(sources: seq<MemoryPoint>, members: seq<MemoryPoint>, clock: string -> real, now: real)
    requires members != [] && forall p :: p in sources <==> p in members
    ensures IsOldest(members, clock, Oldest(sources, clock, now))
  {
    hide Oldest;
    assert members[0] in sources;
    OldestIs(sources, clock, now);
    var i :| 0 <= i < |sources| && Oldest(sources, clock, now) == StampOr(sources[i], clock);
    assert sources[i] in members;
    forall l | 0 <= l < |members| ensures Oldest(sources, clock, now) <= StampOr(members[l], clock) {
      assert members[l] in sources;
    }
  }

  lemma AnsweredSo(j: Job, k: nat)
    requires k < |j.groups| && Succeeds(j, k)
    ensures j.env.merged(ItemAt(j, k)) == Some(PointOf(j, k).payload.text)
    ensures j.env.embedded(ItemAt(j, k).id, PointOf(j, k).payload.text) == Some(PointOf(j, k).vector)
  {
    hide ItemAt;
  }

  lemma SameById(j: Job, k: nat, p: MemoryPoint)
    requires Tidy(j) && k < |j.groups|
    ensures p in j.conv && p.id in ItemAt(j, k).sources <==> p in Select(j.conv, j.groups[k])
  {
    hide FreshIds, Apart;
    var members := Select(j.conv, j.groups[k]);
    if p in members {
      var m :| 0 <= m < |members| && members[m] == p;
      assert ItemAt(j, k).sources[m] == p.id;
    }
    if p in j.conv && p.id in ItemAt(j, k).sources {
      var m :| 0 <= m < |members| && members[m].id == p.id;
      assert members[m] == j.conv[j.groups[k][m]];
    }
  }

  // ---- When the merged ids are fresh ----

  ghost predicate InjectiveUuid(uuid: string -> string) {
    forall a, b :: uuid(a) == uuid(b) ==> a == b
  }

  /** Groups of distinct, well-named conversations never share a batch id. */
  lemma BatchIdsDiffer(j: Job, i: nat, k: nat)
    requires DistinctConversations(j.conv) && ProperGroups(j.groups, |j.conv|) && InjectiveUuid(j.env.uuid)
    requires forall n :: 0 <= n < |j.conv| ==> WellNamed(ConvId(j.conv[n]))
    requires i < k < |j.groups| && j.groups[i] != [] && j.groups[k] != []
    ensures ItemAt(j, i).id != ItemAt(j, k).id
  {
    hide WellNamed;
    var a, b := ConvIds(Select(j.conv, j.groups[i])), ConvIds(Select(j.conv, j.groups[k]));
    assert AllWellNamed(a) && AllWellNamed(b);
    KeyNamesConversations(a, b);
    forall m | 0 <= m < |b| ensures b[m] != a[0] {
      assert j.groups[i][0] in j.groups[i] && j.groups[k][m] in j.groups[k];
    }
    assert a[0] in multiset(a) && a[0] !in multiset(b);
  }

  /** Two runs, or two groups of one run, use the same merged id if and only if they merge the same conversations. */
  lemma MergedIdReusedIff(j: Job, k: nat, j': Job, k': nat)
    requires j.env.uuid == j'.env.uuid && InjectiveUuid(j.env.uuid) && k < |j.groups| && k' < |j'.groups|
    requires j.groups[k] != [] && AllWellNamed(ConvIds(Select(j.conv, j.groups[k])))
    requires j'.groups[k'] != [] && AllWellNamed(ConvIds(Select(j'.conv, j'.groups[k'])))
    ensures MERGED + ItemAt(j, k).id == MERGED + ItemAt(j', k').id
            <==> multiset(ConvIds(Select(j.conv, j.groups[k]))) == multiset(ConvIds(Select(j'.conv, j'.groups[k'])))
  {
    hide AllWellNamed;
    KeyNamesConversations(ConvIds(Select(j.conv, j.groups[k])), ConvIds(Select(j'.conv, j'.groups[k'])));
    if ItemAt(j, k).id != ItemAt(j', k').id {
      PrefixesDiffer(ItemAt(j, k).id, ItemAt(j', k').id);
    }
  }
}
