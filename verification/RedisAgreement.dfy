/**
 The two indexes of the Redis store agree with its documents over every run, so that its queries return exactly what a
 scan would.
 */
module RedisAgreement {
  import opened Types
  import opened Text
  import opened OrderedDict
  import opened Sequences
  import opened Sorting
  import opened Sessions
  import opened RedisSessions

  // ---- Sorted sets ----

  ghost predicate Ascending(z: ZSet) {
    forall i, j :: 0 <= i < j < |z| ==> z[i].1 <= z[j].1
  }

  ghost predicate ZOk(z: ZSet) {
    Distinct(z) && Ascending(z)
  }

  lemma {:induction false} RemoveAscending(z: ZSet, member: string)
    requires Ascending(z)
    ensures Ascending(Remove(z, member))
    ensures z != [] && Remove(z, member) != [] ==> z[0].1 <= Remove(z, member)[0].1
  {
    if z != [] && z[0].0 != member {
      RemoveAscending(z[1..], member);
      var r := Remove(z[1..], member);
      assert Remove(z, member) == [z[0]] + r;
      if r != [] {
        assert z[0].1 <= z[1].1 <= r[0].1;
        assert forall i :: 0 <= i < |r| ==> r[0].1 <= r[i].1;
      }
    }
  }

  lemma {:induction false} InsertFacts(z: ZSet, member: string, score: real, other: string)
    requires ZOk(z) && !Has(z, member)
    ensures Get(ZInsert(z, member, score), other) == if other == member then Some(score) else Get(z, other)
    ensures |ZInsert(z, member, score)| == |z| + 1
  {
    if z != [] && !(score < z[0].1 || (score == z[0].1 && !Leq(z[0].0, member))) {
      InsertFacts(z[1..], member, score, other);
    }
  }

  lemma {:induction false} InsertOrdered(z: ZSet, member: string, score: real)
    requires Ascending(z)
    ensures Ascending(ZInsert(z, member, score))
    ensures ZInsert(z, member, score)[0].1 == score || (z != [] && ZInsert(z, member, score)[0].1 == z[0].1)
    ensures ZInsert(z, member, score)[0].1 <= score
  {
    if z != [] && !(score < z[0].1 || (score == z[0].1 && !Leq(z[0].0, member))) {
      InsertOrdered(z[1..], member, score);
      var r := ZInsert(z[1..], member, score);
      assert z[0].1 <= r[0].1;
      assert forall i :: 0 <= i < |r| ==> r[0].1 <= r[i].1;
    }
  }

  ghost predicate KeysDifferFrom(z: ZSet, member: string) {
    forall i :: 0 <= i < |z| ==> z[i].0 != member
  }

  lemma AbsentDiffers(z: ZSet, member: string)
    requires !Has(z, member)
    ensures KeysDifferFrom(z, member)
  {
    HasIsMembership(z, member);
    forall i | 0 <= i < |z| ensures z[i].0 != member {
      assert Keys(z)[i] == z[i].0;
    }
  }

  lemma DistinctCons(e: (string, real), z: ZSet)
    ensures Distinct([e] + z) <==> Distinct(z) && KeysDifferFrom(z, e.0)
  {
    var all := [e] + z;
    if Distinct(all) {
      forall i | 0 <= i < |z| ensures z[i].0 != e.0 {
        assert all[0] == e && all[i + 1] == z[i];
      }
      forall i, j | 0 <= i < j < |z| ensures z[i].0 != z[j].0 {
        assert all[i + 1] == z[i] && all[j + 1] == z[j];
      }
    }
  }

  lemma {:induction false} InsertDiffers(z: ZSet, member: string, score: real, other: string)
    requires KeysDifferFrom(z, other) && member != other
    ensures KeysDifferFrom(ZInsert(z, member, score), other)
  {
    if z != [] {
      assert forall i :: 0 <= i < |z[1..]| ==> z[1..][i] == z[i + 1];
      InsertDiffers(z[1..], member, score, other);
    }
  }

  lemma {:induction false} InsertDistinct(z: ZSet, member: string, score: real)
    requires Distinct(z) && KeysDifferFrom(z, member)
    ensures Distinct(ZInsert(z, member, score))
  {
    hide Distinct;
    DistinctCons((member, score), z);
    if z != [] {
      assert z == [z[0]] + z[1..];
      DistinctCons(z[0], z[1..]);
      assert forall i :: 0 <= i < |z[1..]| ==> z[1..][i] == z[i + 1];
      InsertDistinct(z[1..], member, score);
      InsertDiffers(z[1..], member, score, z[0].0);
      DistinctCons(z[0], ZInsert(z[1..], member, score));
    } else {
      assert [(member, score)] + z == [(member, score)];
    }
  }

  lemma ZAddFacts(z: ZSet, member: string, score: real)
    requires ZOk(z)
    ensures ZOk(ZAdd(z, member, score))
    ensures forall other :: Get(ZAdd(z, member, score), other) == if other == member then Some(score) else Get(z, other)
  {
    var rest := Remove(z, member);
    RemoveProperties(z, member, member);
    RemoveAscending(z, member);
    AbsentDiffers(rest, member);
    InsertDistinct(rest, member, score);
    InsertOrdered(rest, member, score);
    forall other
      ensures Get(ZAdd(z, member, score), other) == if other == member then Some(score) else Get(z, other)
    {
      RemoveProperties(z, member, other);
      InsertFacts(rest, member, score, other);
    }
  }

  lemma ZRemFacts(z: ZSet, member: string)
    requires ZOk(z)
    ensures ZOk(ZRem(z, member))
    ensures forall other :: Get(ZRem(z, member), other) == if other == member then None else Get(z, other)
  {
    RemoveProperties(z, member, member);
    RemoveAscending(z, member);
    forall other ensures Get(ZRem(z, member), other) == if other == member then None else Get(z, other) {
      RemoveProperties(z, member, other);
    }
  }

  lemma {:induction false} UpToMembers(z: ZSet, max: real, member: string)
    requires Distinct(z)
    ensures member in ZUpTo(z, max) <==> Has(z, member) && Get(z, member).value <= max
    ensures NoRepeats(ZUpTo(z, max))
  {
    if z != [] {
      UpToMembers(z[1..], max, member);
      HasIsMembership(z[1..], z[0].0);
      assert !Has(z[1..], z[0].0);
      UpToMembers(z[1..], max, z[0].0);
    }
  }

  lemma {:induction false} ReversedMembers(z: ZSet, member: string)
    requires Distinct(z)
    ensures member in ZReversed(z) <==> Has(z, member)
    ensures NoRepeats(ZReversed(z))
  {
    if z != [] {
      ReversedMembers(z[1..], member);
      HasIsMembership(z[1..], z[0].0);
      assert !Has(z[1..], z[0].0);
      ReversedMembers(z[1..], z[0].0);
    }
  }

  lemma {:induction false} ReversedDescends(z: ZSet, i: nat, j: nat)
    requires ZOk(z) && i < j < |ZReversed(z)|
    ensures Has(z, ZReversed(z)[i]) && Has(z, ZReversed(z)[j])
    ensures Get(z, ZReversed(z)[i]).value >= Get(z, ZReversed(z)[j]).value
  {
    var rest := ZReversed(z[1..]);
    ReversedMembers(z[1..], rest[i]);
    HasIsMembership(z[1..], rest[i]);
    if j < |rest| {
      ReversedDescends(z[1..], i, j);
      ReversedMembers(z[1..], rest[j]);
      HasIsMembership(z[1..], rest[j]);
    } else {
      var e := (rest[i], Get(z[1..], rest[i]).value);
      assert e in z[1..];
    }
  }

  // ---- The indexes agree with the documents ----

  /** The owner's index holds the session at its last activity; the pending index holds exactly the unfinalized ones. */
  ghost predicate IndexedAt(r: Redis, id: string, now: real)
    requires id in r.keys
  {
    var d := r.keys[id].document;
    && Get(ConvsOf(r, d.userId), id) == Some(d.updatedAt)
    && (d.finalizedAt.Some? ==> !Has(r.pending, id))
    && (d.finalizedAt.None? && Live(r, id, now) ==> Get(r.pending, id) == Some(d.updatedAt))
  }

  ghost predicate Indexed(r: Redis, now: real) {
    && ZOk(r.pending)
    && (forall u :: u in r.userConvs ==> ZOk(r.userConvs[u]))
    && (forall id :: id in r.keys ==> IndexedAt(r, id, now))
  }

  lemma IndexedLater(r: Redis, now: real, later: real)
    requires Indexed(r, now) && now <= later
    ensures Indexed(r, later)
  {
    forall id | id in r.keys ensures IndexedAt(r, id, later) {
      assert IndexedAt(r, id, now);
    }
  }

  lemma WriteIndexed(r: Redis, ttl: Option<real>, id: string, state: SessionState, now: real)
    requires Indexed(r, now) && state.updatedAt == now && state.finalizedAt == None
    ensures Indexed(Write(r, ttl, id, state, now), now)
  {
    var r' := Write(r, ttl, id, state, now);
    ZAddFacts(ConvsOf(r, state.userId), id, now);
    ZAddFacts(r.pending, id, now);
    forall k | k in r'.keys ensures IndexedAt(r', k, now) {
      if k != id {
        assert IndexedAt(r, k, now);
      }
    }
  }

  lemma MarkIndexed(r: Redis, ttl: Option<real>, id: string, now: real)
    requires Indexed(r, now)
    ensures Indexed(RedisMark(r, ttl, id, now), now)
  {
    var r' := RedisMark(r, ttl, id, now);
    ZRemFacts(r.pending, id);
    forall k | k in r'.keys ensures IndexedAt(r', k, now) {
      assert IndexedAt(r, k, now);
    }
  }

  lemma {:induction false} DueScanFacts(r: Redis, ids: seq<string>, now: real)
    requires ZOk(r.pending)
    ensures ZOk(DueScan(r, ids, now).0)
    ensures forall other :: Get(DueScan(r, ids, now).0, other) ==
              if other in ids && Fetch(r, other, now).None? then None else Get(r.pending, other)
  {
    if ids != [] {
      var front, id := ids[..|ids| - 1], ids[|ids| - 1];
      SplitLast(ids);
      DueScanFacts(r, front, now);
      ZRemFacts(DueScan(r, front, now).0, id);
    }
  }

  lemma DueIndexed(r: Redis, idle: real, now: real)
    requires Indexed(r, now)
    ensures Indexed(RedisDue(r, idle, now).0, now)
  {
    var r' := RedisDue(r, idle, now).0;
    DueScanFacts(r, ZUpTo(r.pending, now - idle), now);
    forall k | k in r'.keys ensures IndexedAt(r', k, now) {
      assert IndexedAt(r, k, now);
    }
  }

  lemma {:induction false} DueScanFinds(r: Redis, ids: seq<string>, now: real, id: string, userId: string)
    requires NoRepeats(ids)
    ensures (id, userId) in DueScan(r, ids, now).1 <==>
            id in ids && Fetch(r, id, now).Some? && Fetch(r, id, now).value.finalizedAt.None? &&
            Fetch(r, id, now).value.userId == userId
  {
    if ids != [] {
      SplitLast(ids);
      DueScanFinds(r, ids[..|ids| - 1], now, id, userId);
    }
  }

  /** The sweep's work queue is exactly the live, unfinalized sessions that have been idle long enough. */
  lemma DueIsExact(r: Redis, idle: real, now: real, id: string, userId: string)
    requires Indexed(r, now)
    ensures (id, userId) in RedisDue(r, idle, now).1 <==>
            Live(r, id, now) && Waiting(FromDocument(r.keys[id].document), idle, now)
                && r.keys[id].document.userId == userId
  {
    UpToMembers(r.pending, now - idle, id);
    DueScanFinds(r, ZUpTo(r.pending, now - idle), now, id, userId);
    if Live(r, id, now) {
      assert IndexedAt(r, id, now);
    }
  }

  /** A sweep takes out of the pending index the sessions that are gone, as far as they were due, and nothing else. */
  lemma SweepCleans(r: Redis, idle: real, now: real, id: string)
    requires ZOk(r.pending)
    ensures var left, found := RedisDue(r, idle, now).0, Get(r.pending, id);
            && Get(left.pending, id) ==
                 (if found.Some? && found.value <= now - idle && !Live(r, id, now) then None else found)
            && left.keys == r.keys && left.userConvs == r.userConvs
  {
    UpToMembers(r.pending, now - idle, id);
    DueScanFacts(r, ZUpTo(r.pending, now - idle), now);
  }

  lemma {:induction false} ListScanFinds(r: Redis, userId: string, ids: seq<string>, now: real, meta: ConversationMeta)
    ensures meta in ListScan(r, userId, ids, now) <==>
            var id := meta.conversationId;
            && id in ids && Fetch(r, id, now).Some? && Fetch(r, id, now).value.userId == userId
            && meta == MetaFromDocument(id, Fetch(r, id, now).value)
  {
    if ids != [] {
      SplitLast(ids);
      ListScanFinds(r, userId, ids[..|ids| - 1], now, meta);
    }
  }

  /** The scores of a user's index order the sessions that the scan keeps. */
  lemma {:induction false} ListScanOrdered(r: Redis, userId: string, ids: seq<string>, now: real)
    requires NoRepeats(ids)
    requires forall i, j :: 0 <= i < j < |ids| && Owned(r, userId, ids[i], now) && Owned(r, userId, ids[j], now) ==>
               r.keys[ids[i]].document.updatedAt >= r.keys[ids[j]].document.updatedAt
    ensures SortedBy(ListScan(r, userId, ids, now), Newest)
    ensures Unrepeated(ListScan(r, userId, ids, now))
  {
    if ids != [] {
      var front, id := ids[..|ids| - 1], ids[|ids| - 1];
      ListScanOrdered(r, userId, front, now);
      var metas := ListScan(r, userId, front, now);
      forall i | 0 <= i < |metas|
        ensures metas[i].conversationId != id
        ensures Owned(r, userId, id, now) ==> metas[i].updatedAt >= r.keys[id].document.updatedAt
      {
        ListScanFinds(r, userId, front, now, metas[i]);
        var k :| 0 <= k < |front| && front[k] == metas[i].conversationId;
        assert ids[k] == front[k];
      }
    }
  }

  predicate Owned(r: Redis, userId: string, id: string, now: real) {
    Live(r, id, now) && r.keys[id].document.userId == userId
  }

  /** The listing is exactly the caller's live sessions, each once, newest first, despite stale index entries. */
  lemma ListIsExact(r: Redis, userId: string, now: real, meta: ConversationMeta)
    requires Indexed(r, now)
    ensures meta in RedisList(r, userId, now) <==>
            Owned(r, userId, meta.conversationId, now) &&
            Describes(meta, meta.conversationId, FromDocument(r.keys[meta.conversationId].document))
    ensures NewestFirst(RedisList(r, userId, now)) && Unrepeated(RedisList(r, userId, now))
  {
    hide Describes;
    var z := ConvsOf(r, userId);
    var ids := ZReversed(z);
    ListScanFinds(r, userId, ids, now, meta);
    ReversedMembers(z, meta.conversationId);
    if Owned(r, userId, meta.conversationId, now) {
      assert IndexedAt(r, meta.conversationId, now);
      var document := r.keys[meta.conversationId].document;
      DescribesIff(meta, meta.conversationId, FromDocument(document));
      assert MetaFromDocument(meta.conversationId, document) == MetaOf(meta.conversationId, FromDocument(document));
    }
    forall i, j | 0 <= i < j < |ids| && Owned(r, userId, ids[i], now) && Owned(r, userId, ids[j], now)
      ensures r.keys[ids[i]].document.updatedAt >= r.keys[ids[j]].document.updatedAt
    {
      ReversedDescends(z, i, j);
      assert IndexedAt(r, ids[i], now) && IndexedAt(r, ids[j], now);
    }
    ListScanOrdered(r, userId, ids, now);
    SortedNewest(RedisList(r, userId, now));
  }

  // ---- Runs ----

  datatype Request =
    | Save(id: string, state: SessionState)
    | Append(id: string, turn: Turn)
    | Mark(id: string)
    | Load(id: string, userId: string)
    | DueNow(idle: real)
    | List(userId: string)

  datatype Response =
    | Done
    | NoSession
    | Read(result: LoadResult)
    | Queue(due: seq<(string, string)>)
    | Metas(metas: seq<ConversationMeta>)

  /** A request with the clock reading its method takes. */
  datatype Timed = Timed(request: Request, now: real)

  function RedisStep(r: Redis, ttl: Option<real>, q: Timed): (Redis, Response) {
    match q.request
    case Save(id, state) => (RedisSave(r, ttl, id, state, q.now), Done)
    case Append(id, turn) => var (r', ok) := RedisAppend(r, ttl, id, turn, q.now); (r', if ok then Done else NoSession)
    case Mark(id) => (RedisMark(r, ttl, id, q.now), Done)
    case Load(id, userId) => (r, Read(RedisLoad(r, id, userId, q.now)))
    case DueNow(idle) => var (r', due) := RedisDue(r, idle, q.now); (r', Queue(due))
    case List(userId) => (r, Metas(RedisList(r, userId, q.now)))
  }

  function MemoryStep(d: Table, ttl: Option<real>, q: Timed): (Table, Response) {
    match q.request
    case Save(id, state) => (SaveStep(d, id, state, q.now), Done)
    case Append(id, turn) => var (d', ok) := AppendStep(d, id, turn, q.now); (d', if ok then Done else NoSession)
    case Mark(id) => (MarkStep(d, id, q.now), Done)
    case Load(id, userId) => var (d', result) := LoadStep(d, ttl, id, userId, q.now); (d', Read(result))
    case DueNow(idle) => (d, Queue(Due(d, idle, q.now)))
    case List(userId) => (d, Metas(Listing(d, ttl, userId, q.now)))
  }

  function RedisRun(ttl: Option<real>, run: seq<Timed>): Redis {
    if run == [] then Redis(map[], map[], []) else RedisStep(RedisRun(ttl, run[..|run| - 1]), ttl, run[|run| - 1]).0
  }

  function MemoryRun(ttl: Option<real>, run: seq<Timed>): Table {
    if run == [] then [] else MemoryStep(MemoryRun(ttl, run[..|run| - 1]), ttl, run[|run| - 1]).0
  }

  ghost predicate Monotone(run: seq<Timed>) {
    forall i, j :: 0 <= i < j < |run| ==> run[i].now <= run[j].now
  }

  lemma IndexedStep(r: Redis, ttl: Option<real>, q: Timed)
    requires Indexed(r, q.now)
    ensures Indexed(RedisStep(r, ttl, q).0, q.now)
  {
    hide Indexed;
    match q.request
    case Save(id, state) => WriteIndexed(r, ttl, id, Touched(state, q.now), q.now);
    case Append(id, turn) =>
      match Fetch(r, id, q.now) {
        case None =>
        case Some(d) =>
          var state := FromDocument(d);
          WriteIndexed(r, ttl, id, Touched(state.(workingBuffer := state.workingBuffer + [turn]), q.now), q.now);
      }
    case Mark(id) => MarkIndexed(r, ttl, id, q.now);
    case DueNow(idle) => DueIndexed(r, idle, q.now);
    case _ =>
  }

  /** After every run of requests the two indexes agree with the documents. */
  lemma {:induction false} IndexesAgree(ttl: Option<real>, run: seq<Timed>, now: real)
    requires Monotone(run) && (run != [] ==> run[|run| - 1].now <= now)
    ensures Indexed(RedisRun(ttl, run), now)
  {
    if run != [] {
      var q := run[|run| - 1];
      assert |run| > 1 ==> run[|run| - 2].now <= q.now;
      IndexesAgree(ttl, run[..|run| - 1], q.now);
      IndexedStep(RedisRun(ttl, run[..|run| - 1]), ttl, q);
      IndexedLater(RedisRun(ttl, run), q.now, now);
    }
  }

  // ---- What the answers have in common ----

  ghost predicate SameResponse(redis: Response, memory: Response) {
    match redis
    case Queue(due) =>
      && memory.Queue? && (forall e :: e in due <==> e in memory.due)
    case Metas(metas) =>
      && memory.Metas? && (forall m :: m in metas <==> m in memory.metas)
      && Unrepeated(metas) && Unrepeated(memory.metas) && NewestFirst(metas) && NewestFirst(memory.metas)
    case _ => redis == memory
  }

  lemma StepOfRun(ttl: Option<real>, run: seq<Timed>, n: nat)
    requires 0 < n <= |run|
    ensures RedisRun(ttl, run[..n]) == RedisStep(RedisRun(ttl, run[..n - 1]), ttl, run[n - 1]).0
    ensures MemoryRun(ttl, run[..n]) == MemoryStep(MemoryRun(ttl, run[..n - 1]), ttl, run[n - 1]).0
  {
    PrefixOfPrefix(run, n - 1, n);
  }
}
