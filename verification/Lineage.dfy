/**
 Which conversations the text of a merged point stems from (jobs/dedup.py), over runs that mix finalizations, forgets
 and deduplication runs (memory/episodic.py). A merged point lists the ids of the points it was merged from; when one of
 those was itself merged, the list names that merge, and no longer the conversations behind it.
 */
module Lineage {
  import opened Types
  import opened OrderedDict
  import opened Sequences
  import opened VectorStores
  import opened Retry
  import opened MergeIds
  import opened Deduplication
  import opened DeduplicationOutcome
  import opened DeduplicationFailures
  import opened EpisodicMemories
  import opened MemoryRuns

  /** The conversations behind each merged point, by its id. */
  type Origins = map<string, set<string>>

  function Stems(origins: Origins, p: MemoryPoint): set<string> {
    if p.payload.conversationId.Some? then {p.payload.conversationId.value}
    else if p.id in origins then origins[p.id] else {}
  }

  /** The conversations behind the conversation points among these ids, which are those whose texts were merged. */
  function Behind(d: Points, origins: Origins, ids: seq<string>): set<string> {
    if ids == [] then {}
    else
      var found := Get(d, ids[|ids| - 1]);
      Behind(d, origins, ids[..|ids| - 1]) +
      if found.Some? && found.value.payload.kind == Conversation then Stems(origins, found.value) else {}
  }

  /**
   A run that began in `d` and left `left`: each merged point it put there stems from what its sources stemmed from.
   */
  function Traced(d: Points, origins: Origins, merges: seq<Merge>, left: Points): Origins {
    if merges == [] then origins
    else
      var before, m := Traced(d, origins, merges[..|merges| - 1], left), merges[|merges| - 1];
      if Get(left, m.point.id) == Some(m.point) then before[m.point.id := Behind(d, origins, m.doomed)] else before
  }

  ghost function OriginsAfter(jobs: seq<Job>, maxMoments: int, maxRetries: int): Origins
    requires Orderly(jobs)
  {
    if jobs == [] then map[]
    else
      var front, job := jobs[..|jobs| - 1], jobs[|jobs| - 1];
      var origins, d := OriginsAfter(front, maxMoments, maxRetries), StoreAfter(front, maxMoments, maxRetries);
      match job
      case Memory(event) => origins
      case Deduplicated(userId, max, groups, env) =>
        Traced(d, origins, RunMerges(d, userId, max, groups, env), StoreAfter(jobs, maxMoments, maxRetries))
  }

  // ---- What a run's merges are made from ----

  /** A merge of this group of the points considered. */
  ghost predicate MadeFrom(m: Merge, conv: seq<MemoryPoint>, moments: seq<MemoryPoint>, uuid: string -> string,
      group: seq<nat>) {
    var item := ItemOf(Select(conv, group), uuid);
    && m.point.id == MERGED + item.id && m.doomed == Doomed(moments, item)
    && m.point.payload.sourceConversationIds == item.convIds && m.point.payload.conversationId == None
  }

  ghost predicate Made(m: Merge, conv: seq<MemoryPoint>, moments: seq<MemoryPoint>, uuid: string -> string,
      groups: seq<seq<nat>>) {
    exists k :: 0 <= k < |groups| && MadeFrom(m, conv, moments, uuid, groups[k])
  }

  ghost predicate ItemsOf(texts: Merged, items: seq<BatchItem>) {
    forall i :: 0 <= i < |texts| ==> texts[i].1.1 in items
  }

  lemma {:induction false} CollectedItems(items: seq<BatchItem>, order: seq<nat>, merged: BatchItem -> Option<string>)
    requires Within(order, |items|)
    ensures ItemsOf(Collected(items, order, merged), items)
  {
    if order != [] {
      var item := items[order[|order| - 1]];
      CollectedItems(items, order[..|order| - 1], merged);
      var before := Collected(items, order[..|order| - 1], merged);
      if merged(item).Some? {
        PutItems(before, item.id, (merged(item).value, item), items);
      }
    }
  }

  lemma {:induction false} PutItems(texts: Merged, id: string, e: (string, BatchItem), items: seq<BatchItem>)
    requires ItemsOf(texts, items) && e.1 in items
    ensures ItemsOf(Put<string, (string, BatchItem)>(texts, id, e), items)
  {
    if texts != [] {
      assert forall i :: 0 <= i < |texts[1..]| ==> texts[1..][i] == texts[i + 1];
      PutItems(texts[1..], id, e, items);
    }
  }

  lemma {:induction false} MergesMade(userId: string, conv: seq<MemoryPoint>, moments: seq<MemoryPoint>,
      env: Environment, texts: Merged, groups: seq<seq<nat>>, m: Merge)
    requires ItemsOf(texts, Items(conv, groups, env.uuid)) && m in Merges(userId, conv, moments, env, texts)
    ensures Made(m, conv, moments, env.uuid, groups)
  {
    hide ItemOf, Doomed;
    var front, last := texts[..|texts| - 1], texts[|texts| - 1].1;
    if m in Merges(userId, conv, moments, env, front) {
      MergesMade(userId, conv, moments, env, front, groups, m);
    } else {
      var items := Items(conv, groups, env.uuid);
      assert texts[|texts| - 1].1.1 in items;
      var k :| 0 <= k < |items| && items[k] == last.1;
      assert MadeFrom(m, conv, moments, env.uuid, groups[k]);
    }
  }

  lemma RunMergesMade(d: Points, userId: string, max: int, groups: seq<seq<nat>>, env: Environment, m: Merge)
    requires Arrangement(env.arrival(|groups|), |groups|) && m in RunMerges(d, userId, max, groups, env)
    ensures Made(m, Considered(d, userId, max), Loaded(d, userId, Moment), env.uuid, groups)
  {
    hide Merges, Collected, Made;
    ArrivesWithin(env.arrival(|groups|), |groups|);
    var conv := Considered(d, userId, max);
    var items := Items(conv, groups, env.uuid);
    var texts := Collected(items, env.arrival(|groups|), env.merged);
    CollectedItems(items, env.arrival(|groups|), env.merged);
    MergesMade(userId, conv, Loaded(d, userId, Moment), env, texts, groups, m);
  }

  // ---- What a merge stems from ----

  lemma {:induction false} BehindHas(d: Points, origins: Origins, ids: seq<string>, cid: string)
    ensures cid in Behind(d, origins, ids) <==>
              exists i :: 0 <= i < |ids| && StemsAt(d, origins, ids[i], cid)
  {
    if ids != [] {
      BehindHas(d, origins, ids[..|ids| - 1], cid);
      assert forall i :: 0 <= i < |ids| - 1 ==> ids[..|ids| - 1][i] == ids[i];
    }
  }

  predicate StemsAt(d: Points, origins: Origins, id: string, cid: string) {
    Get(d, id).Some? && Get(d, id).value.payload.kind == Conversation && cid in Stems(origins, Get(d, id).value)
  }

  /**
   A merge of stored conversation points stems from every conversation that one of its members stems from; it lists the
   member's own id instead when that was itself merged.
   */
  lemma MergeStems(d: Points, origins: Origins, m: Merge, conv: seq<MemoryPoint>, moments: seq<MemoryPoint>,
      uuid: string -> string, group: seq<nat>, i: nat, userId: string)
    requires StoredAs(conv, d, userId, Conversation) && Within(group, |conv|) && MadeFrom(m, conv, moments, uuid, group)
    requires i < |group|
    ensures Stems(origins, conv[group[i]]) <= Behind(d, origins, m.doomed)
    ensures m.point.payload.sourceConversationIds[i] == ConvId(conv[group[i]])
  {
    hide Stems, StoredAs;
    var p, item := conv[group[i]], ItemOf(Select(conv, group), uuid);
    assert m.doomed[i] == item.sources[i] == p.id;
    StoredAt(conv, d, userId, group[i]);
    forall cid | cid in Stems(origins, p) ensures cid in Behind(d, origins, m.doomed) {
      BehindHas(d, origins, m.doomed, cid);
      assert StemsAt(d, origins, m.doomed[i], cid);
    }
  }

  lemma StoredAt(s: seq<MemoryPoint>, d: Points, userId: string, i: nat)
    requires StoredAs(s, d, userId, Conversation) && i < |s|
    ensures Get(d, s[i].id) == Some(s[i]) && s[i].payload.kind == Conversation
  {
  }

  /** So the list can fall short: a second merge stems from conversations it does not list. */
  lemma SecondMergeHides(d: Points, origins: Origins, m: Merge, conv: seq<MemoryPoint>, moments: seq<MemoryPoint>,
      uuid: string -> string, group: seq<nat>, i: nat, userId: string, cid: string)
    requires StoredAs(conv, d, userId, Conversation) && Within(group, |conv|) && MadeFrom(m, conv, moments, uuid, group)
    requires i < |group| && FromMerge(conv[group[i]]) && cid in Stems(origins, conv[group[i]])
    requires forall l :: 0 <= l < |group| ==> ConvId(conv[group[l]]) != cid
    ensures cid in Behind(d, origins, m.doomed) && !Mentions(m.point, cid)
  {
    hide Stems, StoredAs, Doomed;
    MergeStems(d, origins, m, conv, moments, uuid, group, i, userId);
    var listed := m.point.payload.sourceConversationIds;
    forall l | 0 <= l < |listed| ensures listed[l] != cid {
      assert listed[l] == ConvId(conv[group[l]]);
    }
  }

  // ---- What holds of every stored merged point ----

  /** Its id is the merge id of what it lists, and it stems from each conversation it lists. */
  ghost predicate SoundPoint(p: MemoryPoint, stems: set<string>, uuid: string -> string) {
    && p.id == MERGED + uuid(MergeKey(p.payload.sourceConversationIds))
    && forall c :: c in p.payload.sourceConversationIds ==> c in stems || MERGED <= c
  }

  ghost predicate SoundAt(d: Points, origins: Origins, uuid: string -> string, id: string) {
    Get(d, id).Some? && FromMerge(Get(d, id).value) ==>
      id == Get(d, id).value.id && SoundPoint(Get(d, id).value, Stems(origins, Get(d, id).value), uuid)
  }

  ghost predicate Sound(d: Points, origins: Origins, uuid: string -> string) {
    forall id :: SoundAt(d, origins, uuid, id)
  }

  /** No merged point appears that was not there. */
  ghost predicate NoneNew(d: Points, d': Points) {
    forall id :: NoneNewAt(d, d', id)
  }

  ghost predicate NoneNewAt(d: Points, d': Points, id: string) {
    Get(d', id).Some? && FromMerge(Get(d', id).value) ==> Get(d', id) == Get(d, id)
  }

  ghost predicate AddsNone(w: Write) {
    w.AddPoints? ==> forall p :: p in w.points ==> !FromMerge(p)
  }

  lemma ApplyAddsNone(d: Points, w: Write)
    requires PointsOk(d) && AddsNone(w)
    ensures NoneNew(d, Apply(w, d))
  {
    forall id ensures NoneNewAt(d, Apply(w, d), id) {
      match w
      case AddPoints(points) => AddAllGet(d, points, id);
      case DeletePoints(ids, userId) =>
        DeleteAllLeaves(d, ids, userId);
        SurvivorsGet(d, ids, userId, id);
    }
  }

  lemma NoneNewTwice(d: Points, mid: Points, d': Points)
    requires NoneNew(d, mid) && NoneNew(mid, d')
    ensures NoneNew(d, d')
  {
    forall id ensures NoneNewAt(d, d', id) {
      assert NoneNewAt(d, mid, id) && NoneNewAt(mid, d', id);
    }
  }

  lemma PartAddsNone(w: Write, n: nat)
    requires AddsNone(w)
    ensures AddsNone(Part(w, n))
  {
  }

  lemma {:induction false} AttemptsAddNone(d: Points, w: Write, maxRetries: int, attempts: nat -> Attempt, n: nat)
    requires PointsOk(d) && AddsNone(w)
    ensures NoneNew(d, Attempts(d, w, maxRetries, attempts, n).0) && PointsOk(Attempts(d, w, maxRetries, attempts, n).0)
    decreases maxRetries - n
  {
    if n > maxRetries {
      assert forall id :: NoneNewAt(d, d, id);
    } else {
      hide NoneNew, AddsNone, PointsOk, Apply, Part;
      match attempts(n)
      case Succeeds =>
        ApplyAddsNone(d, w);
        ApplyOk(w, d);
      case Fails(applied, error) =>
        PartAddsNone(w, applied);
        ApplyAddsNone(d, Part(w, applied));
        ApplyOk(Part(w, applied), d);
        if !(n >= maxRetries || !DefaultRetryable(error)) {
          var mid := Apply(Part(w, applied), d);
          AttemptsAddNone(mid, w, maxRetries, attempts, n + 1);
          NoneNewTwice(d, mid, Attempts(mid, w, maxRetries, attempts, n + 1).0);
        }
    }
  }

  lemma OursAddNone(points: seq<MemoryPoint>)
    requires forall i :: 0 <= i < |points| ==> points[i].payload.conversationId.Some?
    ensures AddsNone(AddPoints(points))
  {
  }

  lemma {:induction false} MomentsAddNone(userId: string, cid: string, texts: seq<string>, w: World)
    requires MomentPoints(userId, cid, texts, w).Some?
    ensures AddsNone(AddPoints(MomentPoints(userId, cid, texts, w).value))
  {
    if texts != [] {
      MomentsAddNone(userId, cid, texts[..|texts| - 1], w);
    }
  }

  lemma WriteAddsNone(d: Points, userId: string, cid: string, text: string, maxMoments: int, maxRetries: int, w: World)
    requires PointsOk(d)
    ensures NoneNew(d, WriteStep(d, userId, cid, text, maxMoments, maxRetries, w).0)
  {
    hide PointsOk, Attempts, MomentPoints, NoneNew, AddsNone;
    NoneNewSame(d);
    if text != "" && w.embedded(text).Some? {
      var conv := ConvPoint(userId, cid, text, w.embedded(text).value, w.now);
      OursAddNone([conv]);
      AttemptsAddNone(d, AddPoints([conv]), maxRetries, w.convAttempts, 0);
      var first := Attempts(d, AddPoints([conv]), maxRetries, w.convAttempts, 0).0;
      var points := MomentPoints(userId, cid, FirstOnes(w.flagged(text), maxMoments), w);
      if points.Some? {
        MomentsAddNone(userId, cid, FirstOnes(w.flagged(text), maxMoments), w);
        AttemptsAddNone(first, AddPoints(points.value), maxRetries, w.momentAttempts, 0);
        NoneNewTwice(d, first, Attempts(first, AddPoints(points.value), maxRetries, w.momentAttempts, 0).0);
      }
    }
  }

  lemma NoneNewSame(d: Points)
    ensures NoneNew(d, d)
  {
  }

  lemma StepAddsNone(d: Points, e: Event, maxMoments: int, maxRetries: int)
    requires PointsOk(d)
    ensures NoneNew(d, Step(d, e, maxMoments, maxRetries))
  {
    hide PointsOk, Attempts, NoneNew, WriteStep;
    match e
    case Finalized(userId, cid, summary, turns, w) =>
      WriteAddsNone(d, userId, cid, Text.Compose(summary, turns), maxMoments, maxRetries, w);
    case Forgotten(userId, cid, attempts) =>
      AttemptsAddNone(d, DeletePoints(ForgetIds(cid, AtLeastZero(maxMoments)), userId), maxRetries, attempts, 0);
  }

  lemma NoneNewSound(d: Points, d': Points, origins: Origins, uuid: string -> string)
    requires NoneNew(d, d') && Sound(d, origins, uuid)
    ensures Sound(d', origins, uuid)
  {
    forall id ensures SoundAt(d', origins, uuid, id) {
      assert NoneNewAt(d, d', id) && SoundAt(d, origins, uuid, id);
    }
  }

  // ---- A deduplication run keeps it ----

  /** An id holds nothing, what it held, or the point of a merge. */
  ghost predicate OldOrMerged(d: Points, left: Points, merges: seq<Merge>, id: string) {
    || Get(left, id) == None || Get(left, id) == Get(d, id)
    || exists k :: 0 <= k < |merges| && merges[k].point.id == id && Get(left, id) == Some(merges[k].point)
  }

  lemma CutHolds(before: Points, m: Merge, userId: string, left: Points, id: string)
    requires CutShort(before, m, userId, left)
    ensures Get(left, id) == None || Get(left, id) == Get(before, id)
              || (id == m.point.id && Get(left, id) == Some(m.point))
  {
    if left != before {
      AddOne(before, m.point);
      PutProperties(before, m.point.id, m.point, id);
      assert ShrunkAt(AddAll(before, [m.point]), left, m.doomed, userId, id);
    }
  }

  lemma {:induction false} RunHolds(d: Points, merges: seq<Merge>, userId: string, maxRetries: int, env: Environment,
      id: string)
    requires PointsOk(d)
    ensures OldOrMerged(d, MergesTried(d, merges, userId, maxRetries, env).0, merges, id)
  {
    if merges != [] {
      hide PointsOk, CutShort, MergeTried;
      var front, m := merges[..|merges| - 1], merges[|merges| - 1];
      RunHolds(d, front, userId, maxRetries, env, id);
      assert forall k :: 0 <= k < |front| ==> front[k] == merges[k];
      var (before, done, ok) := MergesTried(d, front, userId, maxRetries, env);
      RaisedRunStops(d, front, userId, maxRetries, env);
      MergesKeepOk(d, front, userId);
      if ok {
        MergeTriedIs(before, m, userId, maxRetries, env.adding(done), env.deleting(done));
        CutHolds(before, m, userId, MergesTried(d, merges, userId, maxRetries, env).0, id);
      }
    }
  }

  /** The run's own points are traced to their sources, and the others as before. */
  lemma {:induction false} TracedAt(d: Points, origins: Origins, merges: seq<Merge>, left: Points, p: MemoryPoint)
    requires Get(left, p.id) == Some(p) && p.payload.conversationId == None
    ensures if exists k :: 0 <= k < |merges| && merges[k].point == p
            then exists k :: 0 <= k < |merges| && merges[k].point == p &&
                   Stems(Traced(d, origins, merges, left), p) == Behind(d, origins, merges[k].doomed)
            else Stems(Traced(d, origins, merges, left), p) == Stems(origins, p)
  {
    if merges != [] {
      var front, m := merges[..|merges| - 1], merges[|merges| - 1];
      TracedAt(d, origins, front, left, p);
      assert forall k :: 0 <= k < |front| ==> front[k] == merges[k];
      if m.point == p {
        assert merges[|merges| - 1].point == p;
      } else if exists k :: 0 <= k < |merges| && merges[k].point == p {
        var k :| 0 <= k < |front| && front[k].point == p &&
                 Stems(Traced(d, origins, front, left), p) == Behind(d, origins, front[k].doomed);
        assert merges[k].point == p;
      }
    }
  }

  /** What the run considers is stored, its conversations' own points under their own conversation. */
  lemma MadeSound(d: Points, origins: Origins, userId: string, max: int, groups: seq<seq<nat>>, env: Environment,
      m: Merge, maxMoments: int)
    requires Scheme(d, maxMoments) && Made(m, Considered(d, userId, max), Loaded(d, userId, Moment), env.uuid, groups)
    requires forall k :: 0 <= k < |groups| ==> Within(groups[k], |Considered(d, userId, max)|)
    ensures SoundPoint(m.point, Behind(d, origins, m.doomed), env.uuid)
  {
    hide Considered, Loaded, Behind, Doomed, MadeFrom, Known;
    var conv, moments := Considered(d, userId, max), Loaded(d, userId, Moment);
    var k :| 0 <= k < |groups| && MadeFrom(m, conv, moments, env.uuid, groups[k]);
    var group, listed := groups[k], m.point.payload.sourceConversationIds;
    ConsideredStored(d, userId, max);
    MadeNamed(m, conv, moments, env.uuid, group);
    forall i | 0 <= i < |listed| ensures listed[i] in Behind(d, origins, m.doomed) || MERGED <= listed[i] {
      MergeStems(d, origins, m, conv, moments, env.uuid, group, i, userId);
      StoredAt(conv, d, userId, group[i]);
      OwnOrMerged(d, maxMoments, conv[group[i]], origins);
    }
  }

  lemma MadeNamed(m: Merge, conv: seq<MemoryPoint>, moments: seq<MemoryPoint>, uuid: string -> string, group: seq<nat>)
    requires MadeFrom(m, conv, moments, uuid, group)
    ensures m.point.id == MERGED + uuid(MergeKey(m.point.payload.sourceConversationIds))
    ensures |m.point.payload.sourceConversationIds| == |group|
  {
    hide MergeKey;
  }

  lemma OwnOrMerged(d: Points, maxMoments: int, p: MemoryPoint, origins: Origins)
    requires Scheme(d, maxMoments) && Get(d, p.id) == Some(p)
    ensures ConvId(p) in Stems(origins, p) || MERGED <= ConvId(p)
  {
    assert Known(p, maxMoments);
  }

  lemma RunSound(d: Points, origins: Origins, userId: string, max: int, groups: seq<seq<nat>>, env: Environment,
      maxMoments: int, maxRetries: int)
    requires Scheme(d, maxMoments) && Sound(d, origins, env.uuid) && Arrangement(env.arrival(|groups|), |groups|)
    requires forall k :: 0 <= k < |groups| ==> Within(groups[k], |Considered(d, userId, max)|)
    ensures var merges := RunMerges(d, userId, max, groups, env);
            var left := MergesTried(d, merges, userId, maxRetries, env).0;
            PointsOk(left) ==> Sound(left, Traced(d, origins, merges, left), env.uuid)
  {
    hide Scheme, RunMerges, MergesTried, Traced, Made, Considered, Stems, SoundPoint, FromMerge, Behind;
    var merges := RunMerges(d, userId, max, groups, env);
    var left := MergesTried(d, merges, userId, maxRetries, env).0;
    forall id | PointsOk(left) ensures SoundAt(left, Traced(d, origins, merges, left), env.uuid, id) {
      assert PointsOk(d) by { SchemeOk(d, maxMoments); }
      RunHolds(d, merges, userId, maxRetries, env, id);
      if Get(left, id).Some? && FromMerge(Get(left, id).value) {
        var p := Get(left, id).value;
        HeldUnderId(left, id);
        NotOwn(p);
        TracedAt(d, origins, merges, left, p);
        var traced := Stems(Traced(d, origins, merges, left), p);
        if k :| 0 <= k < |merges| && merges[k].point == p && traced == Behind(d, origins, merges[k].doomed) {
          RunMergesMade(d, userId, max, groups, env, merges[k]);
          MadeSound(d, origins, userId, max, groups, env, merges[k], maxMoments);
        } else {
          assert SoundAt(d, origins, env.uuid, id);
        }
      }
    }
  }

  lemma SchemeOk(d: Points, maxMoments: int)
    requires Scheme(d, maxMoments)
    ensures PointsOk(d)
  {
  }

  lemma NotOwn(p: MemoryPoint)
    requires FromMerge(p)
    ensures p.payload.conversationId == None
  {
  }

  lemma HeldUnderId(d: Points, id: string)
    requires PointsOk(d) && Get(d, id).Some?
    ensures Get(d, id).value.id == id
  {
    HasIsMembership(d, id);
  }

  // ---- Whole runs ----

  /** Every deduplication run names merges by the same UUID function, and its groups are of the points it considers. */
  ghost predicate Consistent(jobs: seq<Job>, maxMoments: int, maxRetries: int, uuid: string -> string)
    requires Orderly(jobs)
  {
    forall i :: 0 <= i < |jobs| && jobs[i].Deduplicated? ==>
      var j := jobs[i];
      && j.env.uuid == uuid
      && forall k :: 0 <= k < |j.groups| ==>
          Within(j.groups[k], |Considered(StoreAfter(jobs[..i], maxMoments, maxRetries), j.userId, j.max)|)
  }

  lemma {:induction false} RunsAreSound(jobs: seq<Job>, maxMoments: int, maxRetries: int, uuid: string -> string)
    requires Orderly(jobs) && Consistent(jobs, maxMoments, maxRetries, uuid) && maxMoments >= 0
    ensures Sound(StoreAfter(jobs, maxMoments, maxRetries), OriginsAfter(jobs, maxMoments, maxRetries), uuid)
  {
    if jobs != [] {
      hide Sound, Scheme, RunMerges, MergesTried, Traced, Step, PointsOk;
      var front, job := jobs[..|jobs| - 1], jobs[|jobs| - 1];
      assert Consistent(front, maxMoments, maxRetries, uuid) by {
        assert forall i :: 0 <= i < |front| ==> front[i] == jobs[i] && front[..i] == jobs[..i];
      }
      RunsAreSound(front, maxMoments, maxRetries, uuid);
      var d, origins := StoreAfter(front, maxMoments, maxRetries), OriginsAfter(front, maxMoments, maxRetries);
      MixedRunKeepsScheme(front, maxMoments, maxRetries);
      MixedRunKeepsScheme(jobs, maxMoments, maxRetries);
      SchemeOk(d, maxMoments);
      SchemeOk(StoreAfter(jobs, maxMoments, maxRetries), maxMoments);
      match job
      case Memory(event) =>
        StepAddsNone(d, event, maxMoments, maxRetries);
        NoneNewSound(d, Step(d, event, maxMoments, maxRetries), origins, uuid);
      case Deduplicated(userId, max, groups, env) =>
        RunSound(d, origins, userId, max, groups, env, maxMoments, maxRetries);
    }
  }

  ghost predicate ListsNamed(p: MemoryPoint) {
    p.payload.sourceConversationIds != [] && AllWellNamed(p.payload.sourceConversationIds)
  }

  lemma SameIdSameList(p: MemoryPoint, stems: set<string>, q: MemoryPoint, stems': set<string>, uuid: string -> string)
    requires SoundPoint(p, stems, uuid) && SoundPoint(q, stems', uuid) && p.id == q.id && ListsNamed(p) && ListsNamed(q)
    requires forall a, b :: uuid(a) == uuid(b) ==> a == b
    ensures multiset(p.payload.sourceConversationIds) == multiset(q.payload.sourceConversationIds)
  {
    hide AllWellNamed;
    var a, b := p.payload.sourceConversationIds, q.payload.sourceConversationIds;
    assert uuid(MergeKey(a)) == (MERGED + uuid(MergeKey(a)))[|MERGED|..];
    assert uuid(MergeKey(b)) == (MERGED + uuid(MergeKey(b)))[|MERGED|..];
    KeyNamesConversations(a, b);
  }

  /**
   Whatever merged point a run of any length holds under an id, and whatever another holds, say one deduplication later,
   list the same conversations: a reused merged id overwrites a point of which the new one lists every conversation
   again.
   */
  lemma OverwrittenListsSame(jobs: seq<Job>, jobs': seq<Job>, maxMoments: int, maxRetries: int, uuid: string -> string,
      id: string)
    requires Orderly(jobs) && Consistent(jobs, maxMoments, maxRetries, uuid) && maxMoments >= 0
    requires Orderly(jobs') && Consistent(jobs', maxMoments, maxRetries, uuid)
    requires forall a, b :: uuid(a) == uuid(b) ==> a == b
    requires var p, q := Get(StoreAfter(jobs, maxMoments, maxRetries), id),
              Get(StoreAfter(jobs', maxMoments, maxRetries), id);
             && p.Some? && q.Some? && FromMerge(p.value) && FromMerge(q.value) && ListsNamed(p.value)
                 && ListsNamed(q.value)
    ensures var p, q := Get(StoreAfter(jobs, maxMoments, maxRetries), id),
              Get(StoreAfter(jobs', maxMoments, maxRetries), id);
            multiset(p.value.payload.sourceConversationIds) == multiset(q.value.payload.sourceConversationIds)
  {
    hide Orderly, Consistent, StoreAfter, OriginsAfter, ListsNamed, FromMerge, SoundPoint, Stems;
    RunsAreSound(jobs, maxMoments, maxRetries, uuid);
    RunsAreSound(jobs', maxMoments, maxRetries, uuid);
    var d, d' := StoreAfter(jobs, maxMoments, maxRetries), StoreAfter(jobs', maxMoments, maxRetries);
    var origins, origins' := OriginsAfter(jobs, maxMoments, maxRetries), OriginsAfter(jobs', maxMoments, maxRetries);
    assert SoundAt(d, origins, uuid, id) && SoundAt(d', origins', uuid, id);
    var p, q := Get(d, id).value, Get(d', id).value;
    SameIdSameList(p, Stems(origins, p), q, Stems(origins', q), uuid);
  }

  // ---- What a forget leaves ----

  ghost predicate NoneStems(d: Points, origins: Origins, userId: string, cid: string) {
    forall p: MemoryPoint :: Get(d, p.id) == Some(p) && p.payload.userId == userId ==> cid !in Stems(origins, p)
  }

  ghost predicate NoMergeStems(d: Points, origins: Origins, userId: string, cid: string) {
    forall p: MemoryPoint :: Get(d, p.id) == Some(p) && p.payload.userId == userId && FromMerge(p) ==>
        cid !in Stems(origins, p)
  }

  /**
   After every run that mixes finalizations, forgets and deduplications, a forget that returns leaves nothing of the
   user's that stems from the conversation, through however many merges, if and only if no merged point stems from it;
   and then none lists it either.
   */
  lemma ForgetErasesIff(jobs: seq<Job>, userId: string, cid: string, maxMoments: nat, maxRetries: int,
      attempts: nat -> Attempt, uuid: string -> string)
    requires Orderly(jobs) && Consistent(jobs, maxMoments, maxRetries, uuid)
    requires Attempts(StoreAfter(jobs, maxMoments, maxRetries), DeletePoints(ForgetIds(cid, maxMoments), userId),
              maxRetries, attempts, 0).1
             == Written
    ensures var d, origins := StoreAfter(jobs, maxMoments, maxRetries), OriginsAfter(jobs, maxMoments, maxRetries);
            var d' := Attempts(d, DeletePoints(ForgetIds(cid, maxMoments), userId), maxRetries, attempts, 0).0;
            && (NoneStems(d', origins, userId, cid) <==> NoMergeStems(d, origins, userId, cid))
            && (NoMergeStems(d, origins, userId, cid) && !(MERGED <= cid) ==> NeverMerged(d, userId, cid))
  {
    hide Attempts, Scheme, ForgetIds, Consistent, Sound;
    var d, origins := StoreAfter(jobs, maxMoments, maxRetries), OriginsAfter(jobs, maxMoments, maxRetries);
    MixedRunKeepsScheme(jobs, maxMoments, maxRetries);
    RunsAreSound(jobs, maxMoments, maxRetries, uuid);
    ForgetStems(d, origins, userId, cid, maxMoments, maxRetries, attempts);
    StemsShowListed(d, origins, userId, cid, uuid);
  }

  lemma StemsShowListed(d: Points, origins: Origins, userId: string, cid: string, uuid: string -> string)
    requires Sound(d, origins, uuid)
    ensures NoMergeStems(d, origins, userId, cid) && !(MERGED <= cid) ==> NeverMerged(d, userId, cid)
  {
    hide Stems, FromMerge;
    if NoMergeStems(d, origins, userId, cid) && !(MERGED <= cid) {
      forall p: MemoryPoint | Get(d, p.id) == Some(p) && p.payload.userId == userId && FromMerge(p)
        ensures cid !in p.payload.sourceConversationIds
      {
        assert SoundAt(d, origins, uuid, p.id);
      }
    }
  }

  lemma ForgetStems(d: Points, origins: Origins, userId: string, cid: string, maxMoments: nat, maxRetries: int,
      attempts: nat -> Attempt)
    requires Scheme(d, maxMoments)
    requires Attempts(d, DeletePoints(ForgetIds(cid, maxMoments), userId), maxRetries, attempts, 0).1 == Written
    ensures NoneStems(Attempts(d, DeletePoints(ForgetIds(cid, maxMoments), userId), maxRetries, attempts, 0).0,
              origins, userId, cid)
            <==> NoMergeStems(d, origins, userId, cid)
  {
    hide Attempts, ForgetIds;
    var d' := Attempts(d, DeletePoints(ForgetIds(cid, maxMoments), userId), maxRetries, attempts, 0).0;
    forall p: MemoryPoint
      ensures Get(d', p.id) == Some(p) <==>
                Get(d, p.id) == Some(p) && !(p.payload.userId == userId && p.payload.conversationId == Some(cid))
    {
      ForgetIsExact(d, userId, cid, maxMoments, maxRetries, attempts, p);
    }
    if NoMergeStems(d, origins, userId, cid) {
      forall p: MemoryPoint | Get(d', p.id) == Some(p) && p.payload.userId == userId ensures cid !in Stems(origins, p) {
        assert Has(d, p.id) && Known(p, maxMoments);
      }
    }
    if NoneStems(d', origins, userId, cid) {
      forall p: MemoryPoint | Get(d, p.id) == Some(p) && p.payload.userId == userId && FromMerge(p)
        ensures cid !in Stems(origins, p)
      {
        assert Get(d', p.id) == Some(p);
      }
    }
  }
}
