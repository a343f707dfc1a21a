/** Merging one user's near-duplicate conversation points (jobs/dedup.py). */
module Deduplication {
  import opened Types
  import opened OrderedDict
  import opened Sequences
  import opened Sorting
  import opened VectorStores
  import opened Retry
  import opened UnionFind
  import opened MergeIds

  datatype DeduplicationResult = DeduplicationResult(clustersFound: nat, clustersMerged: nat, pointsDeleted: nat)

  /** One group sent to be merged. */
  datatype BatchItem = BatchItem(id: string, combined: string, convIds: seq<string>, sources: seq<string>)

  /** One group whose summary was merged and embedded: the point to add and the ids to delete. */
  datatype Merge = Merge(point: MemoryPoint, doomed: seq<string>)

  /**
   What the job depends on: the similarity test of two points, the UUID of a merge key, how merging and embedding
   turn out, the order in which the batch answers the first `n` items, how the attempts to add the point and to delete
   the sources of the n-th merge go, and the clock: when each point's time was looked up, and otherwise.
   */
  datatype Environment = Environment(
    similar: (MemoryPoint, MemoryPoint) -> bool,
    uuid: string -> string,
    merged: BatchItem -> Option<string>,
    embedded: (string, string) -> Option<seq<real>>,
    arrival: nat -> seq<nat>,
    adding: nat -> nat -> Attempt,
    deleting: nat -> nat -> Attempt,
    clock: string -> real,
    now: real)

  ghost predicate Arrangement(order: seq<nat>, n: nat) {
    && NoRepeats(order)
    && forall k: nat :: k in order <==> k < n
  }

  // ---- The points considered ----

  function NewestFirst(p: MemoryPoint): real { -Stamp(p) }

  function Newest(points: seq<MemoryPoint>, max: int): seq<MemoryPoint> {
    if |points| > max then FirstOnes(SortBy(points, NewestFirst), max) else points
  }

  function Loaded(d: Points, userId: string, kind: Kind): seq<MemoryPoint> {
    SortBy(Matching(d, userId, Some(kind)), Stamp)
  }

  function Considered(d: Points, userId: string, max: int): seq<MemoryPoint> {
    Newest(Loaded(d, userId, Conversation), max)
  }

  function ConvId(p: MemoryPoint): string {
    if p.payload.conversationId.Some? then p.payload.conversationId.value else p.id
  }

  predicate IsMomentOf(p: MemoryPoint, cid: string) {
    cid != "" && p.payload.conversationId == Some(cid)
  }

  function MomentIds(moments: seq<MemoryPoint>, cid: string): seq<string> {
    if moments == [] then []
    else
      var last := moments[|moments| - 1];
      MomentIds(moments[..|moments| - 1], cid) + if IsMomentOf(last, cid) then [last.id] else []
  }

  function Lookup(index: map<string, seq<string>>, cid: string): seq<string> {
    if cid in index then index[cid] else []
  }

  ghost predicate Indexes(index: map<string, seq<string>>, moments: seq<MemoryPoint>) {
    forall cid :: Lookup(index, cid) == MomentIds(moments, cid)
  }

  // ---- Edges and groups ----

  function RowEdges(conv: seq<MemoryPoint>, similar: (MemoryPoint, MemoryPoint) -> bool, i: nat, n: nat): seq<Edge>
    requires i < n <= |conv|
  {
    if n == i + 1 then []
    else RowEdges(conv, similar, i, n - 1) + if similar(conv[i], conv[n - 1]) then [(i, n - 1)] else []
  }

  /** The pairs i < j of similar points among the first m rows, row by row. */
  function Edges(conv: seq<MemoryPoint>, similar: (MemoryPoint, MemoryPoint) -> bool, m: nat): seq<Edge>
    requires m <= |conv|
  {
    if m == 0 then [] else Edges(conv, similar, m - 1) + RowEdges(conv, similar, m - 1, |conv|)
  }

  lemma {:induction false} RowEdgesAre(conv: seq<MemoryPoint>, similar: (MemoryPoint, MemoryPoint) -> bool, i: nat,
      n: nat, e: Edge)
    requires i < n <= |conv|
    ensures e in RowEdges(conv, similar, i, n) <==> e.0 == i && i < e.1 < n && similar(conv[i], conv[e.1])
  {
    if n > i + 1 {
      RowEdgesAre(conv, similar, i, n - 1, e);
    }
  }

  /** The edges are the pairs of two different, similar points, each once. */
  lemma {:induction false} EdgesAre(conv: seq<MemoryPoint>, similar: (MemoryPoint, MemoryPoint) -> bool, m: nat,
      e: Edge)
    requires m <= |conv|
    ensures e in Edges(conv, similar, m) <==> e.0 < m && e.0 < e.1 < |conv| && similar(conv[e.0], conv[e.1])
  {
    hide RowEdges;
    if m > 0 {
      EdgesAre(conv, similar, m - 1, e);
      RowEdgesAre(conv, similar, m - 1, |conv|, e);
    }
  }

  /** The groups are exactly the connected components of at least two elements, none of them twice. */
  ghost predicate AreComponents(groups: seq<seq<nat>>, n: nat, edges: seq<Edge>) {
    && (forall g, a :: g in groups && a in g ==> |g| >= 2 && IsComponent(g, n, edges, a))
    && (forall g :: g in groups ==> |g| >= 2)
    && (forall a: nat, b: nat :: a < n && b < n && a != b && Connected(edges, a, b) ==> InOneGroup(groups, a, b))
    && Apart(groups)
  }

  ghost predicate InOneGroup(groups: seq<seq<nat>>, a: nat, b: nat) {
    exists g :: g in groups && a in g && b in g
  }

  ghost predicate Apart(groups: seq<seq<nat>>) {
    forall i, j, x :: 0 <= i < j < |groups| && x in groups[i] ==> x !in groups[j]
  }

  method SimilarPairs(conv: seq<MemoryPoint>, similar: (MemoryPoint, MemoryPoint) -> bool) returns (edges: seq<Edge>)
    ensures edges == Edges(conv, similar, |conv|)
    ensures forall e :: e in edges ==> e.0 < |conv| && e.1 < |conv|
  {
    edges := [];
    for i := 0 to |conv|
      invariant edges == Edges(conv, similar, i)
    {
      ghost var before := edges;
      for j := i + 1 to |conv|
        invariant edges == before + RowEdges(conv, similar, i, j)
      {
        if similar(conv[i], conv[j]) {
          AppendAssociative(before, RowEdges(conv, similar, i, j), [(i, j)]);
          edges := edges + [(i, j)];
        }
      }
    }
    forall e | e in edges ensures e.0 < |conv| && e.1 < |conv| {
      EdgesAre(conv, similar, |conv|, e);
    }
  }

  method FindGroups(n: nat, edges: seq<Edge>) returns (groups: seq<seq<nat>>)
    requires forall e :: e in edges ==> e.0 < n && e.1 < n
    ensures AreComponents(groups, n, edges)
  {
    var parent, rank := UnionAll(n, edges);
    ghost var roots := RootsOf(parent[..], rank);
    var clusters := BuildClusters(parent, rank);
    groups := MergeGroups(clusters);
    GroupsAreComponents(roots, edges);
  }

  lemma GroupsAreComponents(roots: seq<nat>, edges: seq<Edge>)
    requires RootsDecide(roots, edges)
    ensures AreComponents(MergeGroups(ClusterBy(roots)), |roots|, edges)
  {
    var groups := MergeGroups(ClusterBy(roots));
    forall g, a | g in groups && a in g ensures |g| >= 2 && IsComponent(g, |roots|, edges, a) {
      GroupIsComponent(roots, edges, g, a);
    }
    forall g | g in groups ensures |g| >= 2 {
      MergeGroupsAre(ClusterBy(roots), g);
    }
    forall a: nat, b: nat | a < |roots| && b < |roots| && a != b && Connected(edges, a, b)
        ensures InOneGroup(groups, a, b) {
      var g := ComponentIsGroup(roots, edges, a, b);
    }
    ClustersListRoots(roots);
    forall i, j, x | 0 <= i < j < |groups| && x in groups[i] ensures x !in groups[j] {
      GroupsDisjoint(ClusterBy(roots), roots, i, j, x);
    }
  }

  // ---- The batch ----

  function Texts(points: seq<MemoryPoint>): seq<string> {
    seq(|points|, i requires 0 <= i < |points| => points[i].payload.text)
  }

  ghost predicate Within(group: seq<nat>, n: nat) {
    forall k :: 0 <= k < |group| ==> group[k] < n
  }

  function Select(conv: seq<MemoryPoint>, group: seq<nat>): (points: seq<MemoryPoint>)
    ensures |points| == |group|
    ensures forall k :: 0 <= k < |group| && group[k] < |conv| ==> points[k] == conv[group[k]]
  {
    seq(|group|, k requires 0 <= k < |group| => if group[k] < |conv| then conv[group[k]] else Nobody())
  }

  /** Stands in for an index that no group has. */
  function Nobody(): MemoryPoint {
    MemoryPoint("", [], Payload("", "", Conversation, None, None, []))
  }

  function Ids(points: seq<MemoryPoint>): (ids: seq<string>)
    ensures |ids| == |points| && forall i :: 0 <= i < |points| ==> ids[i] == points[i].id
  {
    seq(|points|, i requires 0 <= i < |points| => points[i].id)
  }

  function ConvIds(points: seq<MemoryPoint>): (ids: seq<string>)
    ensures |ids| == |points| && forall i :: 0 <= i < |points| ==> ids[i] == ConvId(points[i])
  {
    seq(|points|, i requires 0 <= i < |points| => ConvId(points[i]))
  }

  function ItemOf(points: seq<MemoryPoint>, uuid: string -> string): BatchItem {
    BatchItem(uuid(MergeKey(ConvIds(points))), Text.Join(Texts(points), "\n\n---\n\n"), ConvIds(points), Ids(points))
  }

  type Merged = Dict<string, (string, BatchItem)>

  /** The successful merges by batch id, in the order in which they arrived. */
  function Collected(items: seq<BatchItem>, order: seq<nat>, merged: BatchItem -> Option<string>): Merged
    requires Within(order, |items|)
  {
    if order == [] then []
    else
      var before, item := Collected(items, order[..|order| - 1], merged), items[order[|order| - 1]];
      if merged(item).Some? then Put<string, (string, BatchItem)>(before, item.id, (merged(item).value, item))
      else before
  }

  function SiblingsOf(moments: seq<MemoryPoint>, convIds: seq<string>): seq<string> {
    if convIds == [] then []
    else SiblingsOf(moments, convIds[..|convIds| - 1]) + MomentIds(moments, convIds[|convIds| - 1])
  }

  function SourcePoints(conv: seq<MemoryPoint>, ids: seq<string>): seq<MemoryPoint> {
    if conv == [] then [] else (if conv[0].id in ids then [conv[0]] else []) + SourcePoints(conv[1..], ids)
  }

  function StampOr(p: MemoryPoint, clock: string -> real): real {
    if p.payload.ts.Some? then p.payload.ts.value else clock(p.id)
  }

  /** min() of the stamps, and the present for no points. */
  function Oldest(points: seq<MemoryPoint>, clock: string -> real, now: real): real {
    if points == [] then now
    else if |points| == 1 then StampOr(points[0], clock)
    else
      var rest := Oldest(points[1..], clock, now);
      if StampOr(points[0], clock) <= rest then StampOr(points[0], clock) else rest
  }

  function MergedPoint(userId: string, conv: seq<MemoryPoint>, item: BatchItem, text: string, vector: seq<real>,
      env: Environment)
    : MemoryPoint
  {
    MemoryPoint(MERGED + item.id, vector,
      Payload(userId, text, Conversation, Some(Oldest(SourcePoints(conv, item.sources), env.clock, env.now)), None,
          item.convIds))
  }

  function Doomed(moments: seq<MemoryPoint>, item: BatchItem): seq<string> {
    item.sources + SiblingsOf(moments, item.convIds)
  }

  /** The merge of one item, if both merging and embedding it succeeded. */
  function MergeOf(userId: string, conv: seq<MemoryPoint>, moments: seq<MemoryPoint>, env: Environment, item: BatchItem,
      text: string): seq<Merge>
  {
    match env.embedded(item.id, text)
    case None => []
    case Some(vector) => [Merge(MergedPoint(userId, conv, item, text, vector, env), Doomed(moments, item))]
  }

  function Merges(userId: string, conv: seq<MemoryPoint>, moments: seq<MemoryPoint>, env: Environment,
      texts: Merged): seq<Merge> {
    if texts == [] then []
    else
      var last := texts[|texts| - 1].1;
      Merges(userId, conv, moments, env, texts[..|texts| - 1]) + MergeOf(userId, conv, moments, env, last.1, last.0)
  }

  function ApplyMerge(d: Points, m: Merge, userId: string): Points {
    DeleteAll(AddAll(d, [m.point]), m.doomed, userId)
  }

  function ApplyMerges(d: Points, merges: seq<Merge>, userId: string): Points {
    if merges == [] then d else ApplyMerge(ApplyMerges(d, merges[..|merges| - 1], userId), merges[|merges| - 1], userId)
  }

  /** One merge with retried writes: the store, and whether both writes got through. */
  function MergeTried(d: Points, m: Merge, userId: string, maxRetries: int, add: nat -> Attempt, delete: nat -> Attempt)
    : (Points, bool)
  {
    var (added, first, _) := Attempts(d, AddPoints([m.point]), maxRetries, add, 0);
    if first != Written then (added, false)
    else
      var (left, second, _) := Attempts(added, DeletePoints(m.doomed, userId), maxRetries, delete, 0);
      (left, second == Written)
  }

  /** The merges in turn, up to the first that raises: the store, how many were completed, and whether all were. */
  function MergesTried(d: Points, merges: seq<Merge>, userId: string, maxRetries: int, env: Environment)
    : (Points, nat, bool)
  {
    if merges == [] then (d, 0, true)
    else
      var (before, done, ok) := MergesTried(d, merges[..|merges| - 1], userId, maxRetries, env);
      if !ok then (before, done, false)
      else
        var (left, whole) := MergeTried(before, merges[|merges| - 1], userId, maxRetries, env.adding(done),
            env.deleting(done));
        (left, if whole then done + 1 else done, whole)
  }

  lemma {:induction false} NoneAfterARaise(d: Points, front: seq<Merge>, back: seq<Merge>, userId: string,
      maxRetries: int, env: Environment)
    requires !MergesTried(d, front, userId, maxRetries, env).2
    ensures MergesTried(d, front + back, userId, maxRetries, env) == MergesTried(d, front, userId, maxRetries, env)
  {
    if back == [] {
      assert front + back == front;
    } else {
      assert (front + back)[..|front + back| - 1] == front + back[..|back| - 1];
      NoneAfterARaise(d, front, back[..|back| - 1], userId, maxRetries, env);
    }
  }

  lemma {:induction false} MergesPrefix(userId: string, conv: seq<MemoryPoint>, moments: seq<MemoryPoint>,
      env: Environment, texts: Merged, n: nat)
    requires n <= |texts|
    ensures Merges(userId, conv, moments, env, texts[..n]) <= Merges(userId, conv, moments, env, texts)
  {
    if n == |texts| {
      assert texts[..n] == texts;
    } else {
      PrefixOfPrefix(texts, n, |texts| - 1);
      MergesPrefix(userId, conv, moments, env, texts[..|texts| - 1], n);
    }
  }

  function Deleted(merges: seq<Merge>): nat {
    if merges == [] then 0 else Deleted(merges[..|merges| - 1]) + |merges[|merges| - 1].doomed|
  }

  function Items(conv: seq<MemoryPoint>, groups: seq<seq<nat>>, uuid: string -> string): (items: seq<BatchItem>)
    ensures |items| == |groups|
    ensures forall k :: 0 <= k < |groups| ==> items[k] == ItemOf(Select(conv, groups[k]), uuid)
  {
    seq(|groups|, k requires 0 <= k < |groups| => ItemOf(Select(conv, groups[k]), uuid))
  }

  lemma MergesNext(userId: string, conv: seq<MemoryPoint>, moments: seq<MemoryPoint>, env: Environment, texts: Merged,
      n: nat)
    requires n < |texts|
    ensures Merges(userId, conv, moments, env, texts[..n + 1])
         == Merges(userId, conv, moments, env, texts[..n])
             + MergeOf(userId, conv, moments, env, texts[n].1.1, texts[n].1.0)
  {
    PrefixOfPrefix(texts, n, n + 1);
  }

  lemma TriedNext(d: Points, merges: seq<Merge>, m: Merge, userId: string, maxRetries: int, env: Environment)
    requires MergesTried(d, merges, userId, maxRetries, env).2
    ensures var (before, done, _) := MergesTried(d, merges, userId, maxRetries, env);
            var (left, ok) := MergeTried(before, m, userId, maxRetries, env.adding(done), env.deleting(done));
            MergesTried(d, merges + [m], userId, maxRetries, env) == (left, if ok then done + 1 else done, ok)
    ensures Deleted(merges + [m]) == Deleted(merges) + |m.doomed|
  {
    assert (merges + [m])[..|merges|] == merges;
  }

  lemma NothingTried(d: Points, userId: string, conv: seq<MemoryPoint>, moments: seq<MemoryPoint>, env: Environment,
      maxRetries: int)
    ensures Merges(userId, conv, moments, env, []) == [] && Deleted([]) == 0
    ensures MergesTried(d, [], userId, maxRetries, env) == (d, 0, true)
  {
  }

  /** A raising merge is the end of the run. */
  lemma RaiseEnds(d: Points, userId: string, conv: seq<MemoryPoint>, moments: seq<MemoryPoint>, env: Environment,
      texts: Merged, n: nat, maxRetries: int)
    requires n <= |texts| && !MergesTried(d, Merges(userId, conv, moments, env, texts[..n]), userId, maxRetries, env).2
    ensures MergesTried(d, Merges(userId, conv, moments, env, texts), userId, maxRetries, env)
         == MergesTried(d, Merges(userId, conv, moments, env, texts[..n]), userId, maxRetries, env)
  {
    var merges, all := Merges(userId, conv, moments, env, texts[..n]), Merges(userId, conv, moments, env, texts);
    MergesPrefix(userId, conv, moments, env, texts, n);
    assert all == merges + all[|merges|..];
    NoneAfterARaise(d, merges, all[|merges|..], userId, maxRetries, env);
  }

  /** All merges of a run, in order. */
  ghost function RunMerges(d: Points, userId: string, max: int, groups: seq<seq<nat>>, env: Environment): seq<Merge>
    requires Arrangement(env.arrival(|groups|), |groups|)
  {
    var conv := Considered(d, userId, max);
    var items := Items(conv, groups, env.uuid);
    ArrivesWithin(env.arrival(|groups|), |groups|);
    Merges(userId, conv, Loaded(d, userId, Moment), env, Collected(items, env.arrival(|groups|), env.merged))
  }

  lemma ArrivesWithin(order: seq<nat>, n: nat)
    requires Arrangement(order, n)
    ensures Within(order, n)
  {
    forall k | 0 <= k < |order| ensures order[k] < n {
      assert order[k] in order;
    }
  }

  // ---- The job ----

  class EpisodicDeduplicator {
    const store: InMemoryVectorStore
    const maxPoints: int
    const maxRetries: int

    constructor (store: InMemoryVectorStore, maxPoints: int, maxRetries: int)
      ensures this.store == store && this.maxPoints == maxPoints && this.maxRetries == maxRetries
    {
      this.store := store;
      this.maxPoints := maxPoints;
      this.maxRetries := maxRetries;
    }

    method LoadPoints(userId: string) returns (conv: seq<MemoryPoint>, moments: seq<MemoryPoint>)
      ensures conv == Considered(store.points, userId, maxPoints)
      ensures moments == Loaded(store.points, userId, Moment)
    {
      conv := LoadAllUserPoints(store, userId, Some(Conversation), 256);
      moments := LoadAllUserPoints(store, userId, Some(Moment), 256);
      if |conv| > maxPoints {
        conv := SortBy(conv, NewestFirst);
        conv := FirstOnes(conv, maxPoints);
      }
    }

    /** conversation id -> the ids of its moment points */
    static method IndexMoments(moments: seq<MemoryPoint>) returns (index: map<string, seq<string>>)
      ensures Indexes(index, moments)
    {
      index := map[];
      for n := 0 to |moments|
        invariant Indexes(index, moments[..n])
      {
        var cid := moments[n].payload.conversationId;
        PrefixOfPrefix(moments, n, n + 1);
        if cid.Some? && cid.value != "" {
          index := index[cid.value := Lookup(index, cid.value) + [moments[n].id]];
        }
      }
      assert moments[..|moments|] == moments;
    }

    static method CollectTexts(items: seq<BatchItem>, order: seq<nat>, merged: BatchItem -> Option<string>)
        returns (texts: Merged)
      requires Within(order, |items|)
      ensures texts == Collected(items, order, merged)
    {
      texts := [];
      for n := 0 to |order|
        invariant texts == Collected(items, order[..n], merged)
      {
        PrefixOfPrefix(order, n, n + 1);
        var item := items[order[n]];
        var text := merged(item);
        if text.Some? {
          texts := Put<string, (string, BatchItem)>(texts, item.id, (text.value, item));
        }
      }
      assert order[..|order|] == order;
    }

    method ApplyOne(userId: string, m: Merge, add: nat -> Attempt, delete: nat -> Attempt) returns (ok: bool)
      modifies store
      ensures (store.points, ok) == MergeTried(old(store.points), m, userId, maxRetries, add, delete)
    {
      hide Attempts;
      var first, _ := StoreWrite(store, AddPoints([m.point]), maxRetries, add);
      if first != Written {
        return false;
      }
      var second, _ := StoreWrite(store, DeletePoints(m.doomed, userId), maxRetries, delete);
      ok := second == Written;
    }

    /** Adds each merged point and then deletes what it was merged from; None if a write raised. */
    method ReplaceSources(userId: string, conv: seq<MemoryPoint>, moments: seq<MemoryPoint>, env: Environment,
        texts: Merged, found: nat)
      returns (result: Option<DeduplicationResult>)
      modifies store
      ensures var merges := Merges(userId, conv, moments, env, texts);
              var (left, _, ok) := MergesTried(old(store.points), merges, userId, maxRetries, env);
              && store.points == left
              && result == if ok then Some(DeduplicationResult(found, |merges|, Deleted(merges))) else None
    {
      hide Merges, MergesTried, MergeTried, Deleted, Indexes, Oldest, SourcePoints;
      var counted := DeduplicationResult(found, 0, 0);
      var index := IndexMoments(moments);
      ghost var merges := [];
      NothingTried(store.points, userId, conv, moments, env, maxRetries);
      for n := 0 to |texts|
        invariant merges == Merges(userId, conv, moments, env, texts[..n])
        invariant (store.points, |merges|, true) == MergesTried(old(store.points), merges, userId, maxRetries, env)
        invariant counted == DeduplicationResult(found, |merges|, Deleted(merges))
      {
        MergesNext(userId, conv, moments, env, texts, n);
        var (text, item) := texts[n].1;
        var vector := env.embedded(item.id, text);
        if vector.Some? {
          var sources := SourcePoints(conv, item.sources);
          var point := MemoryPoint(MERGED + item.id, vector.value,
            Payload(userId, text, Conversation, Some(Oldest(sources, env.clock, env.now)), None, item.convIds));
          var doomed := CollectDoomed(index, moments, item);
          TriedNext(old(store.points), merges, Merge(point, doomed), userId, maxRetries, env);
          merges := merges + [Merge(point, doomed)];
          var ok := ApplyOne(userId, Merge(point, doomed), env.adding(counted.clustersMerged),
              env.deleting(counted.clustersMerged));
          if !ok {
            RaiseEnds(old(store.points), userId, conv, moments, env, texts, n + 1, maxRetries);
            return None;
          }
          counted := counted.(clustersMerged := counted.clustersMerged + 1,
              pointsDeleted := counted.pointsDeleted + |doomed|);
        }
      }
      assert texts[..|texts|] == texts;
      result := Some(counted);
    }

    static method CollectDoomed(index: map<string, seq<string>>, ghost moments: seq<MemoryPoint>, item: BatchItem)
      returns (doomed: seq<string>)
      requires Indexes(index, moments)
      ensures doomed == Doomed(moments, item)
    {
      doomed := item.sources;
      for n := 0 to |item.convIds|
        invariant doomed == item.sources + SiblingsOf(moments, item.convIds[..n])
      {
        PrefixOfPrefix(item.convIds, n, n + 1);
        var cid := item.convIds[n];
        AppendAssociative(item.sources, SiblingsOf(moments, item.convIds[..n]), MomentIds(moments, cid));
        doomed := doomed + Lookup(index, cid);
      }
      assert item.convIds[..|item.convIds|] == item.convIds;
    }

    /**
     `groups` are the merge groups found, as lists of positions among the points considered; None if a write raised.
     */
    method RunForUser(userId: string, env: Environment)
        returns (result: Option<DeduplicationResult>, ghost groups: seq<seq<nat>>)
      requires forall n: nat :: Arrangement(env.arrival(n), n)
      modifies store
      ensures var conv := Considered(old(store.points), userId, maxPoints);
              AreComponents(groups, |conv|, Edges(conv, env.similar, |conv|))
      ensures var merges := RunMerges(old(store.points), userId, maxPoints, groups, env);
              var (left, _, ok) := MergesTried(old(store.points), merges, userId, maxRetries, env);
              && store.points == left
              && result == if ok then Some(DeduplicationResult(|groups|, |merges|, Deleted(merges))) else None
    {
      var conv, moments := LoadPoints(userId);
      groups := [];
      assert Arrangement(env.arrival(0), 0);
      if |conv| < 2 {
        result := Some(DeduplicationResult(0, 0, 0));
        NothingArrives(env.arrival(0));
        return;
      }
      var edges := SimilarPairs(conv, env.similar);
      var found := FindGroups(|conv|, edges);
      groups := found;
      assert Arrangement(env.arrival(|groups|), |groups|);
      ArrivesWithin(env.arrival(|groups|), |groups|);
      if found == [] {
        result := Some(DeduplicationResult(0, 0, 0));
        NothingArrives(env.arrival(0));
        return;
      }
      var items := Items(conv, found, env.uuid);
      var texts := CollectTexts(items, env.arrival(|items|), env.merged);
      result := ReplaceSources(userId, conv, moments, env, texts, |found|);
    }
  }

  lemma ArrivalMeansItems(order: seq<nat>, n: nat)
    requires Arrangement(order, n) && order != []
    ensures n > 0
  {
    assert order[0] in order;
  }

  lemma NothingArrives(order: seq<nat>)
    requires Arrangement(order, 0)
    ensures order == []
  {
    hide Arrangement;
    if order != [] {
      ArrivalMeansItems(order, 0);
    }
  }
}
