/**
 Deduplication runs whose writes may raise (jobs/dedup.py, retry.py): where they stop, and that they lose no
 conversation.
 */
module DeduplicationFailures {
  import opened Types
  import opened OrderedDict
  import opened Sequences
  import opened VectorStores
  import opened Retry
  import opened MergeIds
  import opened Deduplication
  import opened DeduplicationOutcome
  import opened DeduplicationRuns

  // ---- One write ----

  lemma PartOfOne(d: Points, p: MemoryPoint, n: nat)
    ensures Apply(Part(AddPoints([p]), n), d) == if n == 0 then d else AddAll(d, [p])
  {
    assert [p][..0] == [];
  }

  /** Adding one point, however its attempts go, leaves it added or leaves the store alone. */
  lemma {:induction false} AddTried(d: Points, p: MemoryPoint, maxRetries: int, attempts: nat -> Attempt, n: nat)
    requires PointsOk(d)
    ensures var (left, result, _) := Attempts(d, AddPoints([p]), maxRetries, attempts, n);
            (result == Written ==> left == AddAll(d, [p])) && (left == d || left == AddAll(d, [p]))
    decreases maxRetries - n
  {
    hide PointsOk, AddAll, Part;
    if n <= maxRetries && attempts(n).Fails? {
      PartOfOne(d, p, attempts(n).applied);
      AddAllOk(d, [p]);
      AddAllAgain(d, [p]);
      AddTried(Apply(Part(AddPoints([p]), attempts(n).applied), d), p, maxRetries, attempts, n + 1);
    }
  }

  /** Some of these ids were deleted, as far as they were the user's, and nothing else happened. */
  ghost predicate Shrunk(d: Points, left: Points, ids: seq<string>, userId: string) {
    forall id :: ShrunkAt(d, left, ids, userId, id)
  }

  ghost predicate ShrunkAt(d: Points, left: Points, ids: seq<string>, userId: string, id: string) {
    Get(left, id) == Get(d, id) || (id in ids && UsersOwn(d, userId, id) && Get(left, id) == None)
  }

  lemma PartShrinks(d: Points, ids: seq<string>, userId: string, n: nat)
    requires PointsOk(d)
    ensures Shrunk(d, Apply(Part(DeletePoints(ids, userId), n), d), ids, userId)
  {
    var part := if n < |ids| then ids[..n] else ids;
    assert forall id :: id in part ==> id in ids;
    DeleteAllLeaves(d, part, userId);
    forall id ensures ShrunkAt(d, Apply(Part(DeletePoints(ids, userId), n), d), ids, userId, id) {
      SurvivorsGet(d, part, userId, id);
    }
  }

  lemma ShrunkTwice(d: Points, mid: Points, left: Points, ids: seq<string>, userId: string)
    requires Shrunk(d, mid, ids, userId) && Shrunk(mid, left, ids, userId)
    ensures Shrunk(d, left, ids, userId)
  {
    forall id ensures ShrunkAt(d, left, ids, userId, id) {
      assert ShrunkAt(d, mid, ids, userId, id) && ShrunkAt(mid, left, ids, userId, id);
    }
  }

  lemma {:induction false} DeleteTried(d: Points, ids: seq<string>, userId: string, maxRetries: int,
      attempts: nat -> Attempt, n: nat)
    requires PointsOk(d)
    ensures Shrunk(d, Attempts(d, DeletePoints(ids, userId), maxRetries, attempts, n).0, ids, userId)
    decreases maxRetries - n
  {
    hide PointsOk, Apply, Part;
    var w := DeletePoints(ids, userId);
    if n <= maxRetries {
      if attempts(n).Fails? {
        var applied := attempts(n).applied;
        var mid := Apply(Part(w, applied), d);
        PartShrinks(d, ids, userId, applied);
        ApplyOk(Part(w, applied), d);
        DeleteTried(mid, ids, userId, maxRetries, attempts, n + 1);
        ShrunkTwice(d, mid, Attempts(mid, w, maxRetries, attempts, n + 1).0, ids, userId);
      } else {
        PartShrinks(d, ids, userId, |ids|);
        WholePart(w, |ids|);
      }
    }
  }

  lemma WholePart(w: Write, n: nat)
    requires w.DeletePoints? && n >= |w.ids|
    ensures Part(w, n) == w
  {
  }

  // ---- One merge ----

  /** A merge that was cut short: nothing, or its point added and some of its sources deleted. */
  ghost predicate CutShort(d: Points, m: Merge, userId: string, left: Points) {
    left == d || Shrunk(AddAll(d, [m.point]), left, m.doomed, userId)
  }

  lemma MergeTriedIs(d: Points, m: Merge, userId: string, maxRetries: int, add: nat -> Attempt, delete: nat -> Attempt)
    requires PointsOk(d)
    ensures var (left, ok) := MergeTried(d, m, userId, maxRetries, add, delete);
            (ok ==> left == ApplyMerge(d, m, userId)) && CutShort(d, m, userId, left)
  {
    hide PointsOk, Attempts;
    AddTried(d, m.point, maxRetries, add, 0);
    var added := AddAll(d, [m.point]);
    AddAllOk(d, [m.point]);
    DeleteTried(added, m.doomed, userId, maxRetries, delete, 0);
    RetryIsTransparent(added, DeletePoints(m.doomed, userId), maxRetries, delete, 0);
    NotShrunk(added, m.doomed, userId);
  }

  lemma NotShrunk(d: Points, ids: seq<string>, userId: string)
    ensures Shrunk(d, d, ids, userId)
  {
  }

  // ---- A run ----

  /**
   A run whose writes all get through is the run without failures. One that raises has completed the merges before the
   one that raised, cut that one short, and begun no other.
   */
  lemma {:induction false} RaisedRunStops(d: Points, merges: seq<Merge>, userId: string, maxRetries: int,
      env: Environment)
    requires PointsOk(d)
    ensures var (left, done, ok) := MergesTried(d, merges, userId, maxRetries, env);
            && (ok ==> done == |merges| && left == ApplyMerges(d, merges, userId))
            && (!ok ==> done < |merges| && CutShort(ApplyMerges(d, merges[..done], userId), merges[done], userId, left))
  {
    if merges != [] {
      hide PointsOk, MergeTried, CutShort;
      var front, m := merges[..|merges| - 1], merges[|merges| - 1];
      RaisedRunStops(d, front, userId, maxRetries, env);
      var (before, done, ok) := MergesTried(d, front, userId, maxRetries, env);
      if ok {
        MergesKeepOk(d, front, userId);
        MergeTriedIs(before, m, userId, maxRetries, env.adding(done), env.deleting(done));
      } else {
        PrefixOfPrefix(merges, done, |merges| - 1);
      }
    }
  }

  ghost predicate NamedLater(merges: seq<Merge>, k: nat)
    requires k < |merges|
  {
    exists l :: k <= l < |merges| && merges[k].point.id in merges[l].doomed
  }

  lemma NamedLaterLast(front: seq<Merge>, m: Merge, k: nat)
    requires k < |front|
    ensures NamedLater(front + [m], k) <==> NamedLater(front, k) || front[k].point.id in m.doomed
  {
    var all := front + [m];
    assert all[k] == front[k] && all[|front|] == m && forall l :: 0 <= l < |front| ==> all[l] == front[l];
  }

  /** Merge k deletes this id, and its merged point is stored. */
  ghost predicate CoversAt(left: Points, merges: seq<Merge>, k: nat, id: string)
    requires k < |merges|
  {
    id in merges[k].doomed && Get(left, merges[k].point.id) == Some(merges[k].point)
  }

  /** Merge k deletes this id, and it or a later merge deletes its merged point again. */
  ghost predicate UndoneAt(merges: seq<Merge>, k: nat, id: string)
    requires k < |merges|
  {
    id in merges[k].doomed && NamedLater(merges, k)
  }

  /** A merged point stands for this id, or one that did was deleted again. */
  ghost predicate Covered(left: Points, merges: seq<Merge>, id: string) {
    exists k :: 0 <= k < |merges| && (CoversAt(left, merges, k, id) || UndoneAt(merges, k, id))
  }

  lemma CoveredStays(front: seq<Merge>, m: Merge, userId: string, before: Points, left: Points, id: string)
    requires IdsDiffer(front + [m]) && CutShort(before, m, userId, left) && Covered(before, front, id)
    ensures Covered(left, front + [m], id)
  {
    var k :| 0 <= k < |front| && (CoversAt(before, front, k, id) || UndoneAt(front, k, id));
    var all, kept := front + [m], front[k].point.id;
    DifferFront(front, m);
    NamedLaterLast(front, m, k);
    assert all[k] == front[k];
    if !NamedLater(all, k) && left != before {
      AddOne(before, m.point);
      PutProperties(before, m.point.id, m.point, kept);
      assert ShrunkAt(AddAll(before, [m.point]), left, m.doomed, userId, kept);
    }
    assert CoversAt(left, all, k, id) || UndoneAt(all, k, id);
  }

  lemma CoveredNow(front: seq<Merge>, m: Merge, userId: string, before: Points, left: Points, id: string)
    requires CutShort(before, m, userId, left) && id != m.point.id
    ensures Get(left, id) == Get(before, id) || Covered(left, front + [m], id)
  {
    var all, n := front + [m], |front|;
    assert all[n] == m;
    if left != before && Get(left, id) != Get(before, id) {
      AddOne(before, m.point);
      PutProperties(before, m.point.id, m.point, id);
      PutProperties(before, m.point.id, m.point, m.point.id);
      var added := AddAll(before, [m.point]);
      assert ShrunkAt(added, left, m.doomed, userId, id) && ShrunkAt(added, left, m.doomed, userId, m.point.id);
      assert m.point.id in m.doomed ==> NamedLater(all, n);
      assert CoversAt(left, all, n, id) || UndoneAt(all, n, id);
    }
  }

  /**
   Wherever a run raises, every id that it does not merge to holds what it held, or a merged point stands for it: no
   source is deleted before the point that replaces it is there, and that point stays unless the run itself deletes it
   again.
   */
  lemma {:induction false} NoSourceLost(d: Points, merges: seq<Merge>, userId: string, maxRetries: int,
      env: Environment, id: string)
    requires PointsOk(d) && IdsDiffer(merges) && forall k :: 0 <= k < |merges| ==> merges[k].point.id != id
    ensures var left := MergesTried(d, merges, userId, maxRetries, env).0;
            Get(left, id) == Get(d, id) || Covered(left, merges, id)
  {
    if merges != [] {
      hide PointsOk, IdsDiffer, CutShort, Covered, MergeTried;
      var front, m := merges[..|merges| - 1], merges[|merges| - 1];
      SplitLast(merges);
      DifferFront(front, m);
      NoSourceLost(d, front, userId, maxRetries, env, id);
      var (before, done, ok) := MergesTried(d, front, userId, maxRetries, env);
      RaisedRunStops(d, front, userId, maxRetries, env);
      MergesKeepOk(d, front, userId);
      if ok {
        MergeTriedIs(before, m, userId, maxRetries, env.adding(done), env.deleting(done));
      }
      var left := MergesTried(d, merges, userId, maxRetries, env).0;
      StaysCut(before, m, userId, left);
      CoveredNow(front, m, userId, before, left, id);
      if Covered(before, front, id) {
        CoveredStays(front, m, userId, before, left, id);
      }
    }
  }

  lemma StaysCut(before: Points, m: Merge, userId: string, left: Points)
    ensures left == before ==> CutShort(before, m, userId, left)
  {
  }

  lemma MergeGet(before: Points, m: Merge, userId: string, id: string)
    requires PointsOk(before)
    ensures var held := if id == m.point.id then Some(m.point) else Get(before, id);
            Get(ApplyMerge(before, m, userId), id) ==
              if id in m.doomed && held.Some? && held.value.payload.userId == userId then None else held
  {
    hide PointsOk;
    var added := AddAll(before, [m.point]);
    AddOne(before, m.point);
    PutProperties(before, m.point.id, m.point, id);
    AddAllOk(before, [m.point]);
    DeleteAllLeaves(added, m.doomed, userId);
    SurvivorsGet(added, m.doomed, userId, id);
  }

  /**
   The condition is exact: with differing ids, a merged point outlasts its run if and only if neither its own merge nor
   a later one names it. A later one does when an earlier run had stored the same merge and another group now holds it.
   */
  lemma {:induction false} MergedLastsIff(d: Points, merges: seq<Merge>, userId: string, k: nat)
    requires PointsOk(d) && k < |merges| && merges[k].point.payload.userId == userId
    requires forall l :: 0 <= l < |merges| && l != k ==> merges[l].point.id != merges[k].point.id
    ensures Get(ApplyMerges(d, merges, userId), merges[k].point.id) == Some(merges[k].point)
            <==> !NamedLater(merges, k)
    ensures Get(ApplyMerges(d, merges, userId), merges[k].point.id) in {None, Some(merges[k].point)}
  {
    hide PointsOk, ApplyMerge;
    var front, m, id := merges[..|merges| - 1], merges[|merges| - 1], merges[k].point.id;
    MergesKeepOk(d, front, userId);
    MergeGet(ApplyMerges(d, front, userId), m, userId, id);
    if k < |front| {
      SplitLast(merges);
      assert front[k] == merges[k] && forall l :: 0 <= l < |front| ==> front[l] == merges[l];
      MergedLastsIff(d, front, userId, k);
      NamedLaterLast(front, m, k);
    }
  }

  // ---- The run of a job ----

  lemma {:induction false} DoomedByAll(merges: seq<Merge>, l: nat, id: string)
    requires l < |merges| && id in merges[l].doomed
    ensures id in AllDoomed(merges)
  {
    if l < |merges| - 1 {
      DoomedByAll(merges[..|merges| - 1], l, id);
    }
  }

  /** Merging the group succeeded and its merged point is stored. */
  ghost predicate StandsFor(j: Job, k: nat, left: Points, id: string)
    requires k < |j.groups|
  {
    && Within(j.groups[k], |j.conv|) && ReplacedBy(j, k, id)
    && Get(left, PointOf(j, k).id) == Some(PointOf(j, k))
  }

  /** The group's merge succeeded, and a merge of the run deletes its merged point again. */
  ghost predicate UndoneIn(j: Job, order: seq<nat>, k: nat, id: string)
    requires k < |j.groups| && Within(order, |j.groups|)
  {
    && Within(j.groups[k], |j.conv|) && ReplacedBy(j, k, id)
    && exists l :: 0 <= l < |Along(j, order)| && PointOf(j, k).id in Along(j, order)[l].doomed
  }

  lemma CoveredByGroup(j: Job, order: seq<nat>, left: Points, id: string)
    requires ProperGroups(j.groups, |j.conv|) && Within(order, |j.groups|) && Covered(left, Along(j, order), id)
    ensures exists k :: 0 <= k < |j.groups| && (StandsFor(j, k, left, id) || UndoneIn(j, order, k, id))
  {
    hide Along, OwnedByGroup, Apart, ItemAt, Doomed, PointOf, DeduplicationRuns.Succeeds;
    var merges := Along(j, order);
    var i :| 0 <= i < |merges| && (CoversAt(left, merges, i, id) || UndoneAt(merges, i, id));
    AlongPoints(j, order, merges[i]);
    var l :| 0 <= l < |order| && merges[i] in MergesAt(j, order[l]);
    var k := order[l];
    assert k in order;
    DoomedAt(j, k, id);
    assert StandsFor(j, k, left, id) || UndoneIn(j, order, k, id);
  }

  /**
   What becomes of a stored point in a run that may raise anywhere and may reuse merged ids: it is there as it was; or
   the merged point of the group that held it is; or the run reuses its id for a group's merged point; or it reuses the
   id of the group's merged point, and another group deletes that again.
   */
  lemma FateOfPoint(j: Job, order: seq<nat>, maxRetries: int, id: string)
    requires PointsOk(j.before) && ProperGroups(j.groups, |j.conv|) && IdsApart(j)
    requires Within(order, |j.groups|) && NoRepeats(order)
    ensures var left := MergesTried(j.before, Along(j, order), j.userId, maxRetries, j.env).0;
            || Get(left, id) == Get(j.before, id)
            || (exists k :: 0 <= k < |j.groups| && (StandsFor(j, k, left, id) || UndoneIn(j, order, k, id)))
            || (exists k :: 0 <= k < |j.groups| && id == MERGED + ItemAt(j, k).id)
  {
    hide ProperGroups, PointsOk, IdsApart, Along, MergesTried, IdsDiffer, Covered, StandsFor, UndoneIn;
    var merges := Along(j, order);
    AlongDiffers(j, order);
    var left := MergesTried(j.before, merges, j.userId, maxRetries, j.env).0;
    if forall k :: 0 <= k < |merges| ==> merges[k].point.id != id {
      NoSourceLost(j.before, merges, j.userId, maxRetries, j.env, id);
      if Covered(left, merges, id) {
        CoveredByGroup(j, order, left, id);
      }
    } else {
      var i :| 0 <= i < |merges| && merges[i].point.id == id;
      AlongPoints(j, order, merges[i]);
      var l :| 0 <= l < |order| && merges[i] in MergesAt(j, order[l]);
      assert merges[i].point.id == MERGED + ItemAt(j, order[l]).id;
    }
  }

  lemma DoomedAreOwned(j: Job, order: seq<nat>)
    requires Clean(j) && Within(order, |j.groups|)
    ensures AllOwned(j.before, j.userId, AllDoomed(Along(j, order)))
  {
    hide FreshIds, Along, Replaced, Clean, Tidy, ProperGroups;
    CleanGroups(j);
    forall x | x in AllDoomed(Along(j, order)) ensures UsersOwn(j.before, j.userId, x) {
      AlongDoomed(j, order, x);
      ReplacedStored(j, order, x);
    }
  }

  lemma CleanGroups(j: Job)
    requires Clean(j)
    ensures Tidy(j) && ProperGroups(j.groups, |j.conv|) && FreshIds(j) && PointsOk(j.before)
  {
  }

  /**
   So a run that raises anywhere, with fresh merged ids, loses no conversation: whatever was in the store is there as it
   was, or the merged point of the group that held it is.
   */
  lemma NoConversationLost(j: Job, order: seq<nat>, maxRetries: int, id: string)
    requires Clean(j) && Within(order, |j.groups|) && NoRepeats(order) && Has(j.before, id)
    ensures var left := MergesTried(j.before, Along(j, order), j.userId, maxRetries, j.env).0;
            Get(left, id) == Get(j.before, id) || exists k :: 0 <= k < |j.groups| && StandsFor(j, k, left, id)
  {
    hide Clean, Tidy, ProperGroups, PointsOk, FreshIds, MergesTried, StandsFor, UndoneIn, Has;
    CleanGroups(j);
    FateOfPoint(j, order, maxRetries, id);
    NotReused(j, id);
    forall k | 0 <= k < |j.groups| ensures !UndoneIn(j, order, k, id) {
      NotUndone(j, order, k, id);
    }
  }

  lemma NotReused(j: Job, id: string)
    requires FreshIds(j) && Has(j.before, id)
    ensures forall k :: 0 <= k < |j.groups| ==> id != MERGED + ItemAt(j, k).id
    ensures IdsApart(j)
  {
  }

  lemma NotUndone(j: Job, order: seq<nat>, k: nat, id: string)
    requires Clean(j) && Within(order, |j.groups|) && k < |j.groups|
    ensures !UndoneIn(j, order, k, id)
  {
    hide Clean, Tidy, ProperGroups, PointsOk, Along, AllDoomed, DeduplicationRuns.Succeeds, OwnedByGroup, ItemAt;
    CleanGroups(j);
    DoomedAreOwned(j, order);
    if UndoneIn(j, order, k, id) {
      var l :| 0 <= l < |Along(j, order)| && PointOf(j, k).id in Along(j, order)[l].doomed;
      DoomedByAll(Along(j, order), l, PointOf(j, k).id);
    }
  }
}
