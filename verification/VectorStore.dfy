/** The in-memory vector store (stores/memory_vectors.py) and the paged traversal over it (jobs/_base.py). */
module VectorStores {
  import opened Types
  import opened OrderedDict
  import opened Sequences
  import opened Sorting

  type Points = Dict<string, MemoryPoint>

  /** Distinct ids, and every point is stored under its own. */
  ghost predicate PointsOk(d: Points) {
    Distinct(d) && forall i :: 0 <= i < |d| ==> d[i].0 == d[i].1.id
  }

  /** An upsert of each point in turn. */
  function AddAll(d: Points, points: seq<MemoryPoint>): Points {
    if points == [] then d
    else Put(AddAll(d, points[..|points| - 1]), points[|points| - 1].id, points[|points| - 1])
  }

  function DeleteOne(d: Points, id: string, userId: string): Points {
    match Get(d, id)
    case None => d
    case Some(p) => if p.payload.userId == userId then Remove(d, id) else d
  }

  function DeleteAll(d: Points, ids: seq<string>, userId: string): Points {
    if ids == [] then d else DeleteOne(DeleteAll(d, ids[..|ids| - 1], userId), ids[|ids| - 1], userId)
  }

  predicate Wanted(p: MemoryPoint, userId: string, kind: Option<Kind>) {
    p.payload.userId == userId && (kind.None? || p.payload.kind == kind.value)
  }

  /** The user's points of that kind, in the store's order. */
  function Matching(d: Points, userId: string, kind: Option<Kind>): seq<MemoryPoint> {
    if d == [] then []
    else (if Wanted(d[0].1, userId, kind) then [d[0].1] else []) + Matching(d[1..], userId, kind)
  }

  function Stamp(p: MemoryPoint): real { if p.payload.ts.Some? then p.payload.ts.value else 0.0 }

  /** One page, and the cursor of the next unless the page is short. */
  function Page(d: Points, userId: string, kind: Option<Kind>, cursor: Option<nat>, limit: nat): (seq<MemoryPoint>,
      Option<nat>) {
    var candidates := SortBy(Matching(d, userId, kind), Stamp);
    var offset := if cursor.Some? then cursor.value else 0;
    var page := Slice(candidates, offset, offset + limit);
    (page, if |page| == limit then Some(offset + limit) else None)
  }

  /** The hits scoring at least `minScore`; a point whose vector is zero has no score. */
  function Scored(points: seq<MemoryPoint>, score: MemoryPoint -> Option<real>, minScore: real): seq<MemoryHit> {
    if points == [] then []
    else (if score(points[0]).Some? && score(points[0]).value >= minScore
          then [MemoryHit(points[0], score(points[0]).value)] else [])
         + Scored(points[1..], score, minScore)
  }

  /** `score` stands for the cosine with the query; it scores nothing when the query vector is zero. */
  function SearchHits(d: Points, userId: string, score: MemoryPoint -> Option<real>, k: int,
      minScore: real): seq<MemoryHit> {
    if k <= 0 then []
    else
      var hits := SortBy(Scored(Matching(d, userId, None), score, minScore), BestFirst);
      if |hits| <= k then hits else hits[..k]
  }

  class InMemoryVectorStore {
    var points: Points

    constructor ()
      ensures points == []
    {
      points := [];
    }

    method Add(batch: seq<MemoryPoint>)
      modifies this
      ensures points == AddAll(old(points), batch)
    {
      for n := 0 to |batch|
        invariant points == AddAll(old(points), batch[..n])
      {
        PrefixOfPrefix(batch, n, n + 1);
        points := Put(points, batch[n].id, batch[n]);
      }
      assert batch[..|batch|] == batch;
    }

    method Delete(ids: seq<string>, userId: string)
      modifies this
      ensures points == DeleteAll(old(points), ids, userId)
    {
      for n := 0 to |ids|
        invariant points == DeleteAll(old(points), ids[..n], userId)
      {
        PrefixOfPrefix(ids, n, n + 1);
        var p := Get(points, ids[n]);
        if p.Some? && p.value.payload.userId == userId {
          points := Remove(points, ids[n]);
        }
      }
      assert ids[..|ids|] == ids;
    }

    method ListPoints(userId: string, kind: Option<Kind>, cursor: Option<nat>, limit: nat)
      returns (page: seq<MemoryPoint>, next: Option<nat>)
      ensures (page, next) == Page(points, userId, kind, cursor, limit)
    {
      var candidates := Matching(points, userId, kind);
      candidates := SortBy(candidates, Stamp);
      var offset := if cursor.Some? then cursor.value else 0;
      page := Slice(candidates, offset, offset + limit);
      next := if |page| == limit then Some(offset + limit) else None;
    }

    method Search(userId: string, score: MemoryPoint -> Option<real>, k: int, minScore: real)
        returns (hits: seq<MemoryHit>)
      ensures hits == SearchHits(points, userId, score, k, minScore)
    {
      var candidates := Matching(points, userId, None);
      if candidates == [] || k <= 0 {
        return [];
      }
      hits := Scored(candidates, score, minScore);
      hits := SortBy(hits, BestFirst);
      if |hits| > k {
        hits := hits[..k];
      }
    }
  }

  /** Follows the cursors to the end; the unread points shrink with every full page. */
  method LoadAllUserPoints(store: InMemoryVectorStore, userId: string, kind: Option<Kind>, pageSize: nat)
    returns (all: seq<MemoryPoint>)
    requires pageSize >= 1
    ensures all == SortBy(Matching(store.points, userId, kind), Stamp)
  {
    ghost var candidates := SortBy(Matching(store.points, userId, kind), Stamp);
    all := [];
    var cursor: Option<nat> := None;
    ghost var read := 0;
    while true
      invariant read == (if cursor.Some? then cursor.value else 0) && read <= |candidates|
      invariant all == candidates[..read]
      decreases |candidates| - read
    {
      var page, next := store.ListPoints(userId, kind, cursor, pageSize);
      all := all + page;
      if next.None? {
        assert candidates[..read] + candidates[read..] == candidates;
        break;
      }
      assert candidates[..read] + candidates[read..read + pageSize] == candidates[..read + pageSize];
      cursor := next;
      read := read + pageSize;
    }
  }

  /** The user's points of that kind, as a set of points. */
  lemma {:induction false} MatchingExactly(d: Points, userId: string, kind: Option<Kind>, p: MemoryPoint)
    requires PointsOk(d)
    ensures p in Matching(d, userId, kind) <==> Get(d, p.id) == Some(p) && Wanted(p, userId, kind)
    ensures multiset(Matching(d, userId, kind))[p] <= 1
  {
    if d != [] {
      MatchingExactly(d[1..], userId, kind, p);
      HasIsMembership(d[1..], p.id);
      var rest := Matching(d[1..], userId, kind);
      if d[0].1 == p {
        assert !Has(d[1..], p.id);
        assert p !in multiset(rest);
      }
      assert multiset(Matching(d, userId, kind)) ==
             (if Wanted(d[0].1, userId, kind) then multiset{d[0].1} else multiset{}) + multiset(rest);
    }
  }

  /**
   The traversal's result: exactly the user's points of that kind, each once, ascending by time, points of one time in
   the store's order. It holds for every page size, so also when the count is a multiple of it.
   */
  lemma TraversalIsExact(d: Points, userId: string, kind: Option<Kind>, p: MemoryPoint, t: real)
    requires PointsOk(d)
    ensures var all := SortBy(Matching(d, userId, kind), Stamp);
            && (p in all <==> Get(d, p.id) == Some(p) && Wanted(p, userId, kind))
            && multiset(all)[p] <= 1
            && SortedBy(all, Stamp)
            && WithKey(all, Stamp, t) == WithKey(Matching(d, userId, kind), Stamp, t)
  {
    var found := Matching(d, userId, kind);
    MatchingExactly(d, userId, kind, p);
    SortBySorts(found, Stamp);
    SortByIsStable(found, Stamp, t);
    SameMembers(SortBy(found, Stamp), found, p);
  }

  // ---- Upserts and deletions ----

  lemma {:induction false} AddAllOk(d: Points, points: seq<MemoryPoint>)
    requires PointsOk(d)
    ensures PointsOk(AddAll(d, points))
  {
    if points != [] {
      var front, p := points[..|points| - 1], points[|points| - 1];
      AddAllOk(d, front);
      PutOk(AddAll(d, front), p);
    }
  }

  lemma PutOk(d: Points, p: MemoryPoint)
    requires PointsOk(d)
    ensures PointsOk(Put(d, p.id, p))
  {
    PutDistinct(d, p.id, p);
    var d' := Put(d, p.id, p);
    forall i | 0 <= i < |d'| ensures d'[i].0 == d'[i].1.id {
      GetAt(d', i);
      PutProperties(d, p.id, p, d'[i].0);
      if d'[i].0 != p.id {
        HasIsMembership(d, d'[i].0);
      }
    }
  }

  /** The last of the points that carries this id. */
  function LastWith(points: seq<MemoryPoint>, id: string): Option<MemoryPoint> {
    if points == [] then None
    else if points[|points| - 1].id == id then Some(points[|points| - 1])
    else LastWith(points[..|points| - 1], id)
  }

  /** After the upserts an id holds the last point given for it, and what it held before if none was. */
  lemma {:induction false} AddAllGet(d: Points, points: seq<MemoryPoint>, id: string)
    ensures Get(AddAll(d, points), id) == if LastWith(points, id).Some? then LastWith(points, id) else Get(d, id)
    ensures LastWith(points, id).Some? ==> LastWith(points, id).value in points && LastWith(points, id).value.id == id
    ensures LastWith(points, id).None? ==> forall p :: p in points ==> p.id != id
  {
    if points != [] {
      var front, p := points[..|points| - 1], points[|points| - 1];
      SplitLast(points);
      AddAllGet(d, front, id);
      PutProperties(AddAll(d, front), p.id, p, id);
    }
  }

  lemma {:induction false} AddAllKnown(d: Points, points: seq<MemoryPoint>)
    requires forall p :: p in points ==> Has(d, p.id)
    ensures Keys(AddAll(d, points)) == Keys(d)
  {
    if points != [] {
      var front, p := points[..|points| - 1], points[|points| - 1];
      AddAllKnown(d, front);
      var d' := AddAll(d, front);
      HasIsMembership(d, p.id);
      HasIsMembership(d', p.id);
      PutProperties(d', p.id, p, p.id);
    }
  }

  lemma {:induction false} AddAllAppend(d: Points, a: seq<MemoryPoint>, b: seq<MemoryPoint>)
    ensures AddAll(d, a + b) == AddAll(AddAll(d, a), b)
  {
    if b == [] {
      assert a + b == a;
    } else {
      assert (a + b)[..|a + b| - 1] == a + b[..|b| - 1];
      AddAllAppend(d, a, b[..|b| - 1]);
    }
  }

  /** Upserting the same points again changes nothing, not even the order. */
  lemma AddAllAgain(d: Points, points: seq<MemoryPoint>)
    requires PointsOk(d)
    ensures AddAll(AddAll(d, points), points) == AddAll(d, points)
  {
    var once := AddAll(d, points);
    var twice := AddAll(once, points);
    AddAllOk(d, points);
    forall p | p in points ensures Has(once, p.id) {
      AddAllGet(d, points, p.id);
    }
    AddAllKnown(once, points);
    forall k | k in Keys(once) ensures Get(once, k) == Get(twice, k) {
      AddAllGet(d, points, k);
      AddAllGet(once, points, k);
    }
    SameDict(once, twice);
  }

  lemma AddOne(d: Points, p: MemoryPoint)
    ensures AddAll(d, [p]) == Put(d, p.id, p)
  {
    assert [p][..0] == [];
    assert AddAll(d, []) == d;
  }

  lemma AddFresh(d: Points, p: MemoryPoint)
    requires !Has(d, p.id)
    ensures AddAll(d, [p]) == d + [(p.id, p)]
  {
    AddOne(d, p);
    PutAbsent(d, p.id, p);
  }

  /** The points that a deletion leaves. */
  function Survivors(d: Points, ids: seq<string>, userId: string): Points {
    if d == [] then []
    else if d[0].0 in ids && d[0].1.payload.userId == userId then Survivors(d[1..], ids, userId)
    else [d[0]] + Survivors(d[1..], ids, userId)
  }

  lemma {:induction false} SurvivorsAreOld(d: Points, ids: seq<string>, userId: string, e: (string, MemoryPoint))
    ensures e in Survivors(d, ids, userId) <==> e in d && !(e.0 in ids && e.1.payload.userId == userId)
  {
    if d != [] {
      SurvivorsAreOld(d[1..], ids, userId, e);
      assert e in d <==> e == d[0] || e in d[1..];
    }
  }

  lemma {:induction false} SurvivorsOk(d: Points, ids: seq<string>, userId: string)
    requires PointsOk(d)
    ensures PointsOk(Survivors(d, ids, userId))
  {
    if d != [] {
      SurvivorsOk(d[1..], ids, userId);
      var rest := Survivors(d[1..], ids, userId);
      forall i | 0 <= i < |rest| ensures rest[i].0 != d[0].0 {
        SurvivorsAreOld(d[1..], ids, userId, rest[i]);
      }
    }
  }

  lemma {:induction false} SurvivorsStep(d: Points, ids: seq<string>, id: string, userId: string)
    requires PointsOk(d)
    ensures DeleteOne(Survivors(d, ids, userId), id, userId) == Survivors(d, ids + [id], userId)
  {
    if d != [] {
      SurvivorsStep(d[1..], ids, id, userId);
      var rest := Survivors(d[1..], ids, userId);
      if d[0].0 == id {
        AbsentLater(d, ids, userId);
        SurvivorsSame(d[1..], ids, id, userId);
      }
      assert ([d[0]] + rest)[1..] == rest;
    }
  }

  lemma AbsentLater(d: Points, ids: seq<string>, userId: string)
    requires PointsOk(d) && d != []
    ensures !Has(Survivors(d[1..], ids, userId), d[0].0)
  {
    var rest := Survivors(d[1..], ids, userId);
    HasIsMembership(rest, d[0].0);
    if Has(rest, d[0].0) {
      SurvivorsAreOld(d[1..], ids, userId, (d[0].0, Get(rest, d[0].0).value));
    }
  }

  lemma {:induction false} SurvivorsSame(d: Points, ids: seq<string>, id: string, userId: string)
    requires forall i :: 0 <= i < |d| ==> d[i].0 != id
    ensures Survivors(d, ids + [id], userId) == Survivors(d, ids, userId)
  {
    if d != [] {
      SurvivorsSame(d[1..], ids, id, userId);
    }
  }

  /** A deletion leaves exactly the points that were not named or belong to someone else, in their order. */
  lemma {:induction false} DeleteAllLeaves(d: Points, ids: seq<string>, userId: string)
    requires PointsOk(d)
    ensures DeleteAll(d, ids, userId) == Survivors(d, ids, userId)
  {
    if ids == [] {
      NothingNamed(d, userId);
    } else {
      SplitLast(ids);
      DeleteAllLeaves(d, ids[..|ids| - 1], userId);
      SurvivorsStep(d, ids[..|ids| - 1], ids[|ids| - 1], userId);
    }
  }

  lemma {:induction false} NothingNamed(d: Points, userId: string)
    ensures Survivors(d, [], userId) == d
  {
    if d != [] {
      NothingNamed(d[1..], userId);
    }
  }

  lemma {:induction false} SurvivorsTwice(d: Points, a: seq<string>, b: seq<string>, userId: string)
    requires forall id :: id in a ==> id in b
    ensures Survivors(Survivors(d, a, userId), b, userId) == Survivors(d, b, userId)
  {
    if d != [] {
      SurvivorsTwice(d[1..], a, b, userId);
      var rest := Survivors(d[1..], a, userId);
      assert ([d[0]] + rest)[1..] == rest;
    }
  }

  predicate UsersOwn(d: Points, userId: string, id: string) {
    Get(d, id).Some? && Get(d, id).value.payload.userId == userId
  }

  lemma StoredIsMember(d: Points, e: (string, MemoryPoint))
    requires Distinct(d)
    ensures e in d <==> Get(d, e.0) == Some(e.1)
  {
    HasIsMembership(d, e.0);
    if e in d {
      var i :| 0 <= i < |d| && d[i] == e;
      GetAt(d, i);
    }
  }

  /** What each id holds after a deletion. */
  lemma SurvivorsGet(d: Points, ids: seq<string>, userId: string, id: string)
    requires PointsOk(d)
    ensures Get(Survivors(d, ids, userId), id) == if id in ids && UsersOwn(d, userId, id) then None else Get(d, id)
  {
    var rest := Survivors(d, ids, userId);
    SurvivorsOk(d, ids, userId);
    if Get(d, id).Some? {
      StoredIsMember(d, (id, Get(d, id).value));
      SurvivorsAreOld(d, ids, userId, (id, Get(d, id).value));
      StoredIsMember(rest, (id, Get(d, id).value));
    }
    if Get(rest, id).Some? {
      StoredIsMember(rest, (id, Get(rest, id).value));
      SurvivorsAreOld(d, ids, userId, (id, Get(rest, id).value));
      StoredIsMember(d, (id, Get(rest, id).value));
    }
  }

  lemma NoRepeatsLast(ids: seq<string>)
    requires ids != []
    ensures NoRepeats(ids) <==> NoRepeats(ids[..|ids| - 1]) && ids[|ids| - 1] !in ids[..|ids| - 1]
  {
    var front := ids[..|ids| - 1];
    if NoRepeats(front) && ids[|ids| - 1] !in front {
      forall i, j | 0 <= i < j < |ids| ensures ids[i] != ids[j] {
        assert ids[i] == front[i];
      }
    }
    if NoRepeats(ids) {
      assert forall i :: 0 <= i < |front| ==> front[i] == ids[i];
    }
  }

  /** Every named id holds a point of the user's, and none is named twice. */
  ghost predicate AllThere(d: Points, ids: seq<string>, userId: string) {
    NoRepeats(ids) && forall i :: 0 <= i < |ids| ==> UsersOwn(d, userId, ids[i])
  }

  lemma AllThereLast(d: Points, ids: seq<string>, userId: string)
    requires ids != []
    ensures var front, id := ids[..|ids| - 1], ids[|ids| - 1];
            AllThere(d, ids, userId) <==> AllThere(d, front, userId) && id !in front && UsersOwn(d, userId, id)
  {
    hide NoRepeats;
    NoRepeatsLast(ids);
    var front := ids[..|ids| - 1];
    assert forall i :: 0 <= i < |front| ==> front[i] == ids[i];
  }

  /** Naming n ids deletes at most n points, and exactly n if and only if all are there and none is named twice. */
  lemma {:induction false} RemovedCount(d: Points, ids: seq<string>, userId: string)
    requires PointsOk(d)
    ensures |d| - |Survivors(d, ids, userId)| <= |ids|
    ensures |d| - |Survivors(d, ids, userId)| == |ids| <==> AllThere(d, ids, userId)
  {
    if ids == [] {
      NothingNamed(d, userId);
    } else {
      hide PointsOk, AllThere;
      var front, id := ids[..|ids| - 1], ids[|ids| - 1];
      SplitLast(ids);
      RemovedCount(d, front, userId);
      AllThereLast(d, ids, userId);
      SurvivorsStep(d, front, id, userId);
      SurvivorsOk(d, front, userId);
      SurvivorsGet(d, front, userId, id);
      RemovedOne(Survivors(d, front, userId), id, userId);
    }
  }

  lemma RemovedOne(d: Points, id: string, userId: string)
    requires PointsOk(d)
    ensures |DeleteOne(d, id, userId)| == if UsersOwn(d, userId, id) then |d| - 1 else |d|
  {
    RemoveProperties(d, id, id);
  }
}
