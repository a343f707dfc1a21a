/** What episodic memory writes and forgets (memory/episodic.py). */
module EpisodicMemories {
  import opened Types
  import opened OrderedDict
  import opened Sequences
  import opened Sorting
  import opened Text
  import opened VectorStores
  import opened Retry
  import opened DecayedRetrieval
  import MergeIds

  // ---- Point ids ----

  function ConvPointId(cid: string): string { "conv:" + cid }

  function MomentPointId(cid: string, index: nat): string { "moment:" + cid + ":" + Decimal(index) }

  /** The part after the last colon decides the index, so ids stay apart even when conversation ids contain colons. */
  lemma MomentIdInjective(c: string, i: nat, c': string, i': nat)
    requires MomentPointId(c, i) == MomentPointId(c', i')
    ensures c == c' && i == i'
  {
    if |Decimal(i)| < |Decimal(i')| {
      ShorterIndex(c, i, c', i');
    } else if |Decimal(i')| < |Decimal(i)| {
      ShorterIndex(c', i', c, i);
    }
    var s, s' := MomentPointId(c, i), MomentPointId(c', i');
    assert s[|s| - |Decimal(i)|..] == Decimal(i) && s'[|s'| - |Decimal(i')|..] == Decimal(i');
    DecimalInjective(i, i');
    assert s[7..7 + |c|] == c && s'[7..7 + |c'|] == c';
  }

  lemma ShorterIndex(c: string, i: nat, c': string, i': nat)
    requires |Decimal(i)| < |Decimal(i')|
    ensures MomentPointId(c, i) != MomentPointId(c', i')
  {
    var s, s' := MomentPointId(c, i), MomentPointId(c', i');
    var at := |s| - |Decimal(i)| - 1;
    assert s[at] == ':';
    if |s| == |s'| {
      DecimalDigits(i', |Decimal(i')| - |Decimal(i)| - 1);
      assert s'[at] == Decimal(i')[|Decimal(i')| - |Decimal(i)| - 1];
    }
  }

  /** The id scheme: a conversation point and the moment points of any two conversations never share an id. */
  lemma PointIdsInjective(c: string, i: nat, c': string, i': nat)
    ensures ConvPointId(c) == ConvPointId(c') <==> c == c'
    ensures MomentPointId(c, i) == MomentPointId(c', i') <==> c == c' && i == i'
    ensures ConvPointId(c) != MomentPointId(c', i')
  {
    assert ConvPointId(c)[5..] == c && ConvPointId(c')[5..] == c';
    assert ConvPointId(c)[0] == 'c' && MomentPointId(c', i')[0] == 'm';
    if MomentPointId(c, i) == MomentPointId(c', i') {
      MomentIdInjective(c, i, c', i');
    }
  }

  // ---- Writing a conversation ----

  /**
   How a finalization's calls go: the embedder, the model that flags moments, the two store writes, and the clock when
   the conversation's point is made and when its moments are.
   */
  datatype World = World(
    embedded: string -> Option<seq<real>>,
    flagged: string -> seq<string>,
    convAttempts: nat -> Attempt,
    momentAttempts: nat -> Attempt,
    now: real,
    flaggedAt: real)

  function ConvPoint(userId: string, cid: string, text: string, vector: seq<real>, now: real): MemoryPoint {
    MemoryPoint(ConvPointId(cid), vector, Payload(userId, text, Conversation, Some(now), Some(cid), []))
  }

  function MomentPoint(userId: string, cid: string, index: nat, text: string, vector: seq<real>,
      now: real): MemoryPoint {
    MemoryPoint(MomentPointId(cid, index), vector, Payload(userId, text, Moment, Some(now), Some(cid), []))
  }

  /** The moment points, unless embedding one of the texts raised. */
  function MomentPoints(userId: string, cid: string, texts: seq<string>, w: World): Option<seq<MemoryPoint>> {
    if texts == [] then Some([])
    else
      var i := |texts| - 1;
      match (MomentPoints(userId, cid, texts[..i], w), w.embedded(texts[i]))
      case (Some(front), Some(vector)) => Some(front + [MomentPoint(userId, cid, i, texts[i], vector, w.flaggedAt)])
      case _ => None
  }

  /** The store after the write, and whether it returned rather than raised. */
  function WriteStep(d: Points, userId: string, cid: string, text: string, maxMoments: int, maxRetries: int, w: World)
    : (Points, bool)
  {
    if text == "" then (d, true)
    else match w.embedded(text)
      case None => (d, false)
      case Some(vector) =>
        var first := Attempts(d, AddPoints([ConvPoint(userId, cid, text, vector, w.now)]), maxRetries, w.convAttempts,
            0);
        if first.1 != Written then (first.0, false)
        else
          var texts := FirstOnes(w.flagged(text), maxMoments);
          if texts == [] then (first.0, true)
          else match MomentPoints(userId, cid, texts, w)
            case None => (first.0, false)
            case Some(points) =>
              var second := Attempts(first.0, AddPoints(points), maxRetries, w.momentAttempts, 0);
              (second.0, second.1 == Written)
  }

  /** The conversation's id and every moment id below the maximum. */
  function ForgetIds(cid: string, n: nat): (ids: seq<string>)
    ensures |ids| == n + 1
  {
    if n == 0 then [ConvPointId(cid)] else ForgetIds(cid, n - 1) + [MomentPointId(cid, n - 1)]
  }

  function AtLeastZero(n: int): nat { if n < 0 then 0 else n }

  class EpisodicMemory {
    const store: InMemoryVectorStore
    const maxMoments: int
    const maxRetries: int

    constructor (store: InMemoryVectorStore, maxMoments: int, maxRetries: int)
      ensures this.store == store && this.maxMoments == maxMoments && this.maxRetries == maxRetries
    {
      this.store := store;
      this.maxMoments := maxMoments;
      this.maxRetries := maxRetries;
    }

    method WriteConversation(userId: string, cid: string, summary: string, turns: seq<Turn>, w: World)
        returns (ok: bool)
      modifies store
      ensures (store.points, ok)
                == WriteStep(old(store.points), userId, cid, Compose(summary, turns), maxMoments, maxRetries, w)
    {
      var text := Compose(summary, turns);
      if text == "" {
        return true;
      }
      var vector := w.embedded(text);
      if vector.None? {
        return false;
      }
      var point := ConvPoint(userId, cid, text, vector.value, w.now);
      var result, _ := StoreWrite(store, AddPoints([point]), maxRetries, w.convAttempts);
      if result != Written {
        return false;
      }
      var texts := FirstOnes(w.flagged(text), maxMoments);
      if texts == [] {
        return true;
      }
      var points := EmbedMoments(userId, cid, texts, w);
      if points.None? {
        return false;
      }
      var second, _ := StoreWrite(store, AddPoints(points.value), maxRetries, w.momentAttempts);
      ok := second == Written;
    }

    static method EmbedMoments(userId: string, cid: string, texts: seq<string>, w: World)
        returns (points: Option<seq<MemoryPoint>>)
      ensures points == MomentPoints(userId, cid, texts, w)
    {
      var done: seq<MemoryPoint> := [];
      for i := 0 to |texts|
        invariant MomentPoints(userId, cid, texts[..i], w) == Some(done)
      {
        PrefixOfPrefix(texts, i, i + 1);
        var vector := w.embedded(texts[i]);
        if vector.None? {
          RaisesOn(userId, cid, texts, i + 1, w);
          return None;
        }
        done := done + [MomentPoint(userId, cid, i, texts[i], vector.value, w.flaggedAt)];
      }
      assert texts[..|texts|] == texts;
      points := Some(done);
    }

    /** `score` is the query's score of a point; with decay twice as many hits are fetched and ranked anew. */
    method Retrieve(userId: string, score: MemoryPoint -> Option<real>, topK: int, minScore: real, decays: bool,
        factor: real -> real, now: real)
      returns (hits: seq<MemoryHit>)
      ensures hits == Retrieved(store.points, userId, score, topK, minScore, decays, factor, now)
    {
      var fetch := if decays then topK * 2 else topK;
      hits := store.Search(userId, score, fetch, minScore);
      if decays {
        hits := ApplyDecay(hits, topK, factor, now);
      }
    }

    static method ApplyDecay(hits: seq<MemoryHit>, topK: int, factor: real -> real, now: real)
        returns (ranked: seq<MemoryHit>)
      ensures ranked == Reranked(hits, topK, factor, now)
    {
      ranked := [];
      for n := 0 to |hits|
        invariant ranked == FadeAll(hits[..n], factor, now)
      {
        var h := hits[n];
        assert FadeAll(hits[..n + 1], factor, now) == FadeAll(hits[..n], factor, now) + [Faded(hits[n], factor, now)];
        if h.point.payload.ts.Some? {
          var age := AgeDays(h.point.payload.ts.value, now);
          h := MemoryHit(h.point, h.score * factor(age));
        }
        assert h == Faded(hits[n], factor, now);
        ranked := ranked + [h];
      }
      assert hits[..|hits|] == hits;
      ranked := SortBy(ranked, BestFirst);
      ranked := FirstOnes(ranked, topK);
    }

    /** Returns the number of ids named, whether or not they were there; None when the write raised. */
    method ForgetConversation(userId: string, cid: string, attempts: nat -> Attempt) returns (count: Option<nat>)
      modifies store
      ensures var done := Attempts(old(store.points), DeletePoints(ForgetIds(cid, AtLeastZero(maxMoments)), userId),
                maxRetries, attempts, 0);
              && store.points == done.0
              && count == if done.1 == Written then Some(AtLeastZero(maxMoments) + 1) else None
    {
      var ids := [ConvPointId(cid)];
      for i := 0 to AtLeastZero(maxMoments)
        invariant ids == ForgetIds(cid, i)
      {
        ids := ids + [MomentPointId(cid, i)];
      }
      var result, _ := StoreWrite(store, DeletePoints(ids, userId), maxRetries, attempts);
      count := if result == Written then Some(|ids|) else None;
    }
  }

  lemma {:induction false} RaisesOn(userId: string, cid: string, texts: seq<string>, n: nat, w: World)
    requires n <= |texts| && MomentPoints(userId, cid, texts[..n], w) == None
    ensures MomentPoints(userId, cid, texts, w) == None
    decreases |texts| - n
  {
    if n == |texts| {
      assert texts[..n] == texts;
    } else {
      PrefixOfPrefix(texts, n, n + 1);
      RaisesOn(userId, cid, texts, n + 1, w);
    }
  }

  // ---- Every run keeps the id scheme ----

  /** A point written here: its id is its conversation's, or its conversation's with an index below the maximum. */
  ghost predicate Ours(p: MemoryPoint, maxMoments: int) {
    && p.payload.conversationId.Some? && p.payload.sourceConversationIds == []
    && var cid := p.payload.conversationId.value;
       match p.payload.kind
       case Conversation => p.id == ConvPointId(cid)
       case Moment => exists i: nat :: i < maxMoments && p.id == MomentPointId(cid, i)
  }

  /** A point that a deduplication run put in the place of others; it belongs to no conversation of its own. */
  predicate FromMerge(p: MemoryPoint) {
    p.payload.conversationId.None? && MergeIds.MERGED <= p.id
  }

  ghost predicate Known(p: MemoryPoint, maxMoments: int) {
    Ours(p, maxMoments) || FromMerge(p)
  }

  ghost predicate AllKnown(points: seq<MemoryPoint>, maxMoments: int) {
    forall i :: 0 <= i < |points| ==> Known(points[i], maxMoments)
  }

  /**
   Every stored point is one of ours or from a merge. Ids are distinct, so a conversation has one point of its own and
   one moment per index below the maximum.
   */
  ghost predicate Scheme(d: Points, maxMoments: int) {
    PointsOk(d) && forall id :: Has(d, id) ==> Known(Get(d, id).value, maxMoments)
  }

  /** The ids this memory gives to one conversation's points. */
  ghost predicate IdOf(cid: string, maxMoments: int, id: string) {
    id == ConvPointId(cid) || exists i: nat :: i < maxMoments && id == MomentPointId(cid, i)
  }

  lemma KnownById(p: MemoryPoint, maxMoments: int, cid: string)
    requires Known(p, maxMoments)
    ensures IdOf(cid, maxMoments, p.id) <==> p.payload.conversationId == Some(cid)
  {
    hide Ours;
    if FromMerge(p) {
      assert p.id[0] == 'd' && ConvPointId(cid)[0] == 'c' && forall i: nat :: MomentPointId(cid, i)[0] == 'm';
    } else {
      OursById(p, maxMoments, cid);
    }
  }

  lemma OursById(p: MemoryPoint, maxMoments: int, cid: string)
    requires Ours(p, maxMoments)
    ensures IdOf(cid, maxMoments, p.id) <==> p.payload.conversationId == Some(cid)
  {
    hide ConvPointId, MomentPointId;
    var own := p.payload.conversationId.value;
    if p.payload.kind == Conversation {
      forall i: nat ensures MomentPointId(cid, i) != p.id {
        PointIdsInjective(own, i, cid, i);
      }
      PointIdsInjective(own, 0, cid, 0);
    } else {
      var i: nat :| i < maxMoments && p.id == MomentPointId(own, i);
      forall i': nat ensures MomentPointId(cid, i') == p.id <==> own == cid && i == i' {
        PointIdsInjective(own, i, cid, i');
      }
      PointIdsInjective(cid, i, own, i);
    }
  }

  lemma WriteKeepsScheme(d: Points, w: Write, maxMoments: int)
    requires Scheme(d, maxMoments) && (w.AddPoints? ==> AllKnown(w.points, maxMoments))
    ensures Scheme(Apply(w, d), maxMoments)
  {
    ApplyOk(w, d);
    forall id | Has(Apply(w, d), id) ensures Known(Get(Apply(w, d), id).value, maxMoments) {
      match w
      case AddPoints(points) => AddAllGet(d, points, id);
      case DeletePoints(ids, userId) =>
        DeleteAllLeaves(d, ids, userId);
        SurvivorsGet(d, ids, userId, id);
    }
  }

  lemma {:induction false} AttemptsKeepScheme(d: Points, w: Write, maxRetries: int, attempts: nat -> Attempt, n: nat,
      maxMoments: int)
    requires Scheme(d, maxMoments) && (w.AddPoints? ==> AllKnown(w.points, maxMoments))
    ensures Scheme(Attempts(d, w, maxRetries, attempts, n).0, maxMoments)
    decreases maxRetries - n
  {
    hide Scheme, Known;
    if n <= maxRetries {
      match attempts(n)
      case Succeeds => WriteKeepsScheme(d, w, maxMoments);
      case Fails(applied, error) =>
        WriteKeepsScheme(d, Part(w, applied), maxMoments);
        if !(n >= maxRetries || !DefaultRetryable(error)) {
          AttemptsKeepScheme(Apply(Part(w, applied), d), w, maxRetries, attempts, n + 1, maxMoments);
        }
    }
  }

  lemma {:induction false} MomentsAreOurs(userId: string, cid: string, texts: seq<string>, w: World, maxMoments: int)
    requires |texts| <= maxMoments && MomentPoints(userId, cid, texts, w).Some?
    ensures AllKnown(MomentPoints(userId, cid, texts, w).value, maxMoments)
    ensures |MomentPoints(userId, cid, texts, w).value| == |texts|
    ensures forall i :: 0 <= i < |texts| ==> MomentPoints(userId, cid, texts, w).value[i].id == MomentPointId(cid, i)
  {
    hide MomentPointId;
    if texts != [] {
      MomentsAreOurs(userId, cid, texts[..|texts| - 1], w, maxMoments);
    }
  }

  datatype Event =
    | Finalized(userId: string, cid: string, summary: string, turns: seq<Turn>, w: World)
    | Forgotten(userId: string, cid: string, attempts: nat -> Attempt)

  function Step(d: Points, e: Event, maxMoments: int, maxRetries: int): Points {
    match e
    case Finalized(userId, cid, summary, turns, w) =>
      WriteStep(d, userId, cid, Compose(summary, turns), maxMoments, maxRetries, w).0
    case Forgotten(userId, cid, attempts) =>
      Attempts(d, DeletePoints(ForgetIds(cid, AtLeastZero(maxMoments)), userId), maxRetries, attempts, 0).0
  }

  function Run(events: seq<Event>, maxMoments: int, maxRetries: int): Points {
    if events == [] then []
        else Step(Run(events[..|events| - 1], maxMoments, maxRetries), events[|events| - 1], maxMoments, maxRetries)
  }

  lemma WriteStepKeepsScheme(d: Points, userId: string, cid: string, text: string, maxMoments: int, maxRetries: int,
      w: World)
    requires Scheme(d, maxMoments) && maxMoments >= 0
    ensures Scheme(WriteStep(d, userId, cid, text, maxMoments, maxRetries, w).0, maxMoments)
  {
    hide Scheme, Attempts, MomentPoints;
    if text != "" && w.embedded(text).Some? {
      var write := AddPoints([ConvPoint(userId, cid, text, w.embedded(text).value, w.now)]);
      AttemptsKeepScheme(d, write, maxRetries, w.convAttempts, 0, maxMoments);
      var first := Attempts(d, write, maxRetries, w.convAttempts, 0);
      var texts := FirstOnes(w.flagged(text), maxMoments);
      var points := MomentPoints(userId, cid, texts, w);
      if points.Some? {
        MomentsAreOurs(userId, cid, texts, w, maxMoments);
        AttemptsKeepScheme(first.0, AddPoints(points.value), maxRetries, w.momentAttempts, 0, maxMoments);
      }
    }
  }

  /**
   Over every run of finalizations and forgets, raising ones included, the store keeps to the scheme: at most one point
   per conversation, and moments only at indices below the maximum.
   */
  lemma {:induction false} RunKeepsScheme(events: seq<Event>, maxMoments: int, maxRetries: int)
    requires maxMoments >= 0
    ensures Scheme(Run(events, maxMoments, maxRetries), maxMoments)
  {
    if events != [] {
      RunKeepsScheme(events[..|events| - 1], maxMoments, maxRetries);
      StepKeepsScheme(Run(events[..|events| - 1], maxMoments, maxRetries), events[|events| - 1], maxMoments,
          maxRetries);
    }
  }

  lemma StepKeepsScheme(d: Points, e: Event, maxMoments: int, maxRetries: int)
    requires Scheme(d, maxMoments) && maxMoments >= 0
    ensures Scheme(Step(d, e, maxMoments, maxRetries), maxMoments)
  {
    match e
    case Finalized(userId, cid, summary, turns, w) =>
      WriteStepKeepsScheme(d, userId, cid, Compose(summary, turns), maxMoments, maxRetries, w);
    case Forgotten(userId, cid, attempts) =>
      AttemptsKeepScheme(d, DeletePoints(ForgetIds(cid, AtLeastZero(maxMoments)), userId), maxRetries, attempts, 0,
          maxMoments);
  }

  // ---- Finalizing again ----

  /**
   A write that returned: the conversation's point and its first moments are replaced, every other id is as before.
   */
  ghost predicate Upserted(d: Points, d': Points, conv: MemoryPoint, moments: seq<MemoryPoint>) {
    && Get(d', conv.id) == Some(conv)
    && (forall i :: 0 <= i < |moments| ==> Get(d', moments[i].id) == Some(moments[i]))
    && (forall id :: id != conv.id && (forall i :: 0 <= i < |moments| ==> moments[i].id != id) ==>
        Get(d', id) == Get(d, id))
  }

  lemma AddOnePoint(d: Points, p: MemoryPoint, id: string)
    ensures Get(AddAll(d, [p]), id) == if id == p.id then Some(p) else Get(d, id)
  {
    AddOne(d, p);
    PutProperties(d, p.id, p, id);
  }

  lemma {:induction false} LastIsOnly(points: seq<MemoryPoint>, i: nat)
    requires i < |points| && forall j, k :: 0 <= j < k < |points| ==> points[j].id != points[k].id
    ensures LastWith(points, points[i].id) == Some(points[i])
  {
    if i < |points| - 1 {
      LastIsOnly(points[..|points| - 1], i);
    }
  }

  lemma UpsertedBoth(d: Points, conv: MemoryPoint, moments: seq<MemoryPoint>)
    requires forall i :: 0 <= i < |moments| ==> moments[i].id != conv.id
    requires forall j, k :: 0 <= j < k < |moments| ==> moments[j].id != moments[k].id
    ensures Upserted(d, AddAll(AddAll(d, [conv]), moments), conv, moments)
  {
    var d' := AddAll(AddAll(d, [conv]), moments);
    AddAllGet(AddAll(d, [conv]), moments, conv.id);
    AddOnePoint(d, conv, conv.id);
    forall i | 0 <= i < |moments| ensures Get(d', moments[i].id) == Some(moments[i]) {
      AddAllGet(AddAll(d, [conv]), moments, moments[i].id);
      LastIsOnly(moments, i);
    }
    forall id | id != conv.id && (forall i :: 0 <= i < |moments| ==> moments[i].id != id)
        ensures Get(d', id) == Get(d, id) {
      AddAllGet(AddAll(d, [conv]), moments, id);
      AddOnePoint(d, conv, id);
    }
  }

  /**
   Finalizing a conversation again upserts: when the write returns, its point and its moments 0, 1, ... are the new
   ones and nothing else changed. In particular moments of an earlier, longer list of flagged moments stay.
   */
  lemma WriteUpserts(d: Points, userId: string, cid: string, text: string, maxMoments: int, maxRetries: int, w: World)
    requires PointsOk(d) && text != "" && WriteStep(d, userId, cid, text, maxMoments, maxRetries, w).1
    ensures PointsOk(WriteStep(d, userId, cid, text, maxMoments, maxRetries, w).0)
    ensures var texts := FirstOnes(w.flagged(text), maxMoments);
            && w.embedded(text).Some? && MomentPoints(userId, cid, texts, w).Some?
            && Upserted(d, WriteStep(d, userId, cid, text, maxMoments, maxRetries, w).0,
                 ConvPoint(userId, cid, text, w.embedded(text).value, w.now), MomentPoints(userId, cid, texts, w).value)
  {
    hide Upserted, Attempts, PointsOk;
    var conv := ConvPoint(userId, cid, text, w.embedded(text).value, w.now);
    var texts := FirstOnes(w.flagged(text), maxMoments);
    RetryIsTransparent(d, AddPoints([conv]), maxRetries, w.convAttempts, 0);
    AddAllOk(d, [conv]);
    if texts == [] {
      UpsertedBoth(d, conv, []);
    } else {
      var moments := MomentPoints(userId, cid, texts, w).value;
      RetryIsTransparent(AddAll(d, [conv]), AddPoints(moments), maxRetries, w.momentAttempts, 0);
      MomentIdsApart(userId, cid, texts, w);
      UpsertedBoth(d, conv, moments);
      AddAllOk(AddAll(d, [conv]), moments);
    }
  }

  /** The point under this id is the user's, and tells this text of the conversation, its embedding, kind and time. */
  ghost predicate Tells(d: Points, id: string, userId: string, cid: string, kind: Kind, text: string, w: World,
      at: real)
  {
    && Get(d, id).Some? && Get(d, id).value.id == id && w.embedded(text) == Some(Get(d, id).value.vector)
    && var p := Get(d, id).value.payload;
       && p.userId == userId && p.conversationId == Some(cid) && p.sourceConversationIds == []
       && p.kind == kind && p.text == text && p.ts == Some(at)
  }

  lemma {:induction false} MomentsTell(userId: string, cid: string, texts: seq<string>, w: World, i: nat)
    requires MomentPoints(userId, cid, texts, w).Some? && i < |texts|
    ensures var points := MomentPoints(userId, cid, texts, w).value;
            && |points| == |texts| && points[i].id == MomentPointId(cid, i)
            && w.embedded(texts[i]) == Some(points[i].vector)
            && points[i].payload == Payload(userId, texts[i], Moment, Some(w.flaggedAt), Some(cid), [])
  {
    MomentsAreOurs(userId, cid, texts, w, |texts|);
    if i < |texts| - 1 {
      MomentsTell(userId, cid, texts[..|texts| - 1], w, i);
    }
  }

  /**
   What a finalization that returned has stored: under the conversation's id the whole transcript, and under each index
   the text flagged there, as far as the maximum goes, each with its embedding and its owner.
   */
  lemma WriteTells(d: Points, userId: string, cid: string, summary: string, turns: seq<Turn>, maxMoments: int,
      maxRetries: int, w: World, i: nat)
    requires PointsOk(d) && Compose(summary, turns) != ""
    requires WriteStep(d, userId, cid, Compose(summary, turns), maxMoments, maxRetries, w).1
    ensures var d' := WriteStep(d, userId, cid, Compose(summary, turns), maxMoments, maxRetries, w).0;
            var texts := FirstOnes(w.flagged(Compose(summary, turns)), maxMoments);
            && Tells(d', "conv:" + cid, userId, cid, Conversation, Compose(summary, turns), w, w.now)
            && (i < |texts| ==>
                Tells(d', "moment:" + cid + ":" + Decimal(i), userId, cid, Moment, texts[i], w, w.flaggedAt))
  {
    hide WriteStep, MomentPoints, PointsOk, FirstOnes;
    var text := Compose(summary, turns);
    var texts := FirstOnes(w.flagged(text), maxMoments);
    WriteUpserts(d, userId, cid, text, maxMoments, maxRetries, w);
    if i < |texts| {
      MomentsTell(userId, cid, texts, w, i);
    }
  }

  lemma MomentIdsApart(userId: string, cid: string, texts: seq<string>, w: World)
    requires MomentPoints(userId, cid, texts, w).Some?
    ensures var points := MomentPoints(userId, cid, texts, w).value;
            && (forall i :: 0 <= i < |points| ==> points[i].id != ConvPointId(cid))
            && (forall j, k :: 0 <= j < k < |points| ==> points[j].id != points[k].id)
  {
    hide MomentPoints, MomentPointId, ConvPointId;
    MomentsAreOurs(userId, cid, texts, w, |texts|);
    var points := MomentPoints(userId, cid, texts, w).value;
    forall i | 0 <= i < |points| ensures points[i].id != ConvPointId(cid) {
      PointIdsInjective(cid, i, cid, i);
    }
    forall j, k | 0 <= j < k < |points| ensures points[j].id != points[k].id {
      PointIdsInjective(cid, j, cid, k);
    }
  }

  // ---- What a write leaves, raising or not ----

  /** The id holds what it did, or one of the points. */
  predicate Laid(d: Points, d': Points, points: seq<MemoryPoint>, id: string) {
    Get(d', id) == Get(d, id) ||
    (Get(d', id).Some? && Get(d', id).value in points && Get(d', id).value.id == id)
  }

  lemma PartLays(d: Points, points: seq<MemoryPoint>, n: nat, id: string)
    ensures Laid(d, Apply(Part(AddPoints(points), n), d), points, id)
  {
    var some := if n < |points| then points[..n] else points;
    AddAllGet(d, some, id);
  }

  lemma {:induction false} AttemptsLay(d: Points, points: seq<MemoryPoint>, maxRetries: int, attempts: nat -> Attempt,
      n: nat, id: string)
    ensures Laid(d, Attempts(d, AddPoints(points), maxRetries, attempts, n).0, points, id)
    decreases maxRetries - n
  {
    hide Apply, Part, Get;
    PartLays(d, points, |points|, id);
    WholePart(points, d);
    if n <= maxRetries && attempts(n).Fails? {
      var applied := attempts(n).applied;
      PartLays(d, points, applied, id);
      if n < maxRetries && DefaultRetryable(attempts(n).error) {
        AttemptsLay(Apply(Part(AddPoints(points), applied), d), points, maxRetries, attempts, n + 1, id);
      }
    }
  }

  lemma WholePart(points: seq<MemoryPoint>, d: Points)
    ensures Apply(Part(AddPoints(points), |points|), d) == Apply(AddPoints(points), d)
  {
  }

  /**
   However a write of a conversation ends: every id holds what it held before, or the conversation's new point, or one
   of its new moments; and a new moment is there only beside the new point of its conversation.
   */
  ghost predicate LeavesOldOrNew(d: Points, d': Points, conv: MemoryPoint, moments: seq<MemoryPoint>) {
    forall id ::
      || Get(d', id) == Get(d, id)
      || (id == conv.id && Get(d', id) == Some(conv))
      || (Get(d', conv.id) == Some(conv) && Get(d', id).Some? && Get(d', id).value in moments
          && Get(d', id).value.id == id)
  }

  lemma WriteLeaves(d: Points, userId: string, cid: string, text: string, maxMoments: int, maxRetries: int, w: World)
    requires PointsOk(d)
    ensures var d' := WriteStep(d, userId, cid, text, maxMoments, maxRetries, w).0;
            var moments := MomentPoints(userId, cid, FirstOnes(w.flagged(text), maxMoments), w);
            if text == "" || w.embedded(text).None? then d' == d
            else LeavesOldOrNew(d, d', ConvPoint(userId, cid, text, w.embedded(text).value, w.now),
                                if moments.Some? then moments.value else [])
  {
    hide Attempts, MomentPoints, FirstOnes, LeavesOldOrNew, PointsOk;
    if text != "" && w.embedded(text).Some? {
      var conv := ConvPoint(userId, cid, text, w.embedded(text).value, w.now);
      var first := Attempts(d, AddPoints([conv]), maxRetries, w.convAttempts, 0);
      var texts := FirstOnes(w.flagged(text), maxMoments);
      var moments := MomentPoints(userId, cid, texts, w);
      OnePointLaid(d, conv, maxRetries, w.convAttempts, if moments.Some? then moments.value else []);
      if first.1 == Written && texts != [] && moments.Some? {
        ConvWritten(d, conv, maxRetries, w.convAttempts);
        MomentIdsApart(userId, cid, texts, w);
        MomentsLaid(d, first.0, conv, moments.value, maxRetries, w.momentAttempts);
      }
    }
  }

  lemma OnePointLaid(d: Points, conv: MemoryPoint, maxRetries: int, attempts: nat -> Attempt, moments: seq<MemoryPoint>)
    ensures LeavesOldOrNew(d, Attempts(d, AddPoints([conv]), maxRetries, attempts, 0).0, conv, moments)
  {
    hide Attempts, Get;
    var d' := Attempts(d, AddPoints([conv]), maxRetries, attempts, 0).0;
    forall id ensures Get(d', id) == Get(d, id) || (id == conv.id && Get(d', id) == Some(conv)) {
      AttemptsLay(d, [conv], maxRetries, attempts, 0, id);
    }
  }

  lemma ConvWritten(d: Points, conv: MemoryPoint, maxRetries: int, attempts: nat -> Attempt)
    requires PointsOk(d) && Attempts(d, AddPoints([conv]), maxRetries, attempts, 0).1 == Written
    ensures Get(Attempts(d, AddPoints([conv]), maxRetries, attempts, 0).0, conv.id) == Some(conv)
  {
    hide Attempts, PointsOk, Get;
    RetryIsTransparent(d, AddPoints([conv]), maxRetries, attempts, 0);
    AddOnePoint(d, conv, conv.id);
  }

  lemma MomentsLaid(d: Points, d1: Points, conv: MemoryPoint, moments: seq<MemoryPoint>, maxRetries: int,
      attempts: nat -> Attempt)
    requires LeavesOldOrNew(d, d1, conv, moments) && Get(d1, conv.id) == Some(conv)
    requires forall i :: 0 <= i < |moments| ==> moments[i].id != conv.id
    ensures LeavesOldOrNew(d, Attempts(d1, AddPoints(moments), maxRetries, attempts, 0).0, conv, moments)
  {
    hide Attempts, Get;
    var d2 := Attempts(d1, AddPoints(moments), maxRetries, attempts, 0).0;
    forall id ensures Laid(d1, d2, moments, id) {
      AttemptsLay(d1, moments, maxRetries, attempts, 0, id);
    }
    assert Laid(d1, d2, moments, conv.id);
    forall id
      ensures || Get(d2, id) == Get(d, id)
              || (id == conv.id && Get(d2, id) == Some(conv))
              || (Get(d2, conv.id) == Some(conv) && Get(d2, id).Some? && Get(d2, id).value in moments
                  && Get(d2, id).value.id == id)
    {
      assert Laid(d1, d2, moments, id);
    }
  }

  // ---- Forgetting ----

  lemma {:induction false} ForgetIdsAre(cid: string, n: nat, id: string)
    ensures id in ForgetIds(cid, n) <==> IdOf(cid, n, id)
  {
    if n > 0 {
      ForgetIdsAre(cid, n - 1, id);
      assert id in ForgetIds(cid, n) <==> id in ForgetIds(cid, n - 1) || id == MomentPointId(cid, n - 1);
    }
  }

  /**
   A forget that returned: none of the user's points for that conversation is left, and every point of another
   conversation or another user is untouched.
   */
  lemma ForgetIsExact(d: Points, userId: string, cid: string, maxMoments: int, maxRetries: int,
      attempts: nat -> Attempt, p: MemoryPoint)
    requires Scheme(d, maxMoments) && maxMoments >= 0
    requires Attempts(d, DeletePoints(ForgetIds(cid, maxMoments), userId), maxRetries, attempts, 0).1 == Written
    ensures var d' := Attempts(d, DeletePoints(ForgetIds(cid, maxMoments), userId), maxRetries, attempts, 0).0;
            Get(d', p.id) == Some(p) <==>
              Get(d, p.id) == Some(p) && !(p.payload.userId == userId && p.payload.conversationId == Some(cid))
  {
    hide Attempts, Known;
    var ids := ForgetIds(cid, maxMoments);
    RetryIsTransparent(d, DeletePoints(ids, userId), maxRetries, attempts, 0);
    DeleteAllLeaves(d, ids, userId);
    SurvivorsGet(d, ids, userId, p.id);
    ForgetIdsAre(cid, maxMoments, p.id);
    if Get(d, p.id) == Some(p) {
      KnownById(p, maxMoments, cid);
    }
  }

  lemma ForgetIdsOnce(cid: string, n: nat)
    ensures NoRepeats(ForgetIds(cid, n))
  {
    hide MomentPointId, ConvPointId;
    if n > 0 {
      ForgetIdsOnce(cid, n - 1);
      ForgetIdsAre(cid, n - 1, MomentPointId(cid, n - 1));
      forall i: nat ensures MomentPointId(cid, i) == MomentPointId(cid, n - 1) <==> i == n - 1 {
        PointIdsInjective(cid, i, cid, n - 1);
      }
      PointIdsInjective(cid, 0, cid, n - 1);
      NoRepeatsLast(ForgetIds(cid, n));
      assert ForgetIds(cid, n)[..n] == ForgetIds(cid, n - 1);
    }
  }

  ghost predicate AllStored(d: Points, userId: string, cid: string, n: nat) {
    && UsersOwn(d, userId, ConvPointId(cid))
    && forall i: nat :: i < n ==> UsersOwn(d, userId, MomentPointId(cid, i))
  }

  /**
   The returned count is the number of points deleted if and only if the user had a point under every one of the ids.
   */
  lemma ForgetCountIsExactIff(d: Points, userId: string, cid: string, maxMoments: nat, maxRetries: int,
      attempts: nat -> Attempt)
    requires PointsOk(d)
    requires Attempts(d, DeletePoints(ForgetIds(cid, maxMoments), userId), maxRetries, attempts, 0).1 == Written
    ensures var d' := Attempts(d, DeletePoints(ForgetIds(cid, maxMoments), userId), maxRetries, attempts, 0).0;
            && |d| - |d'| <= maxMoments + 1
            && (|d| - |d'| == maxMoments + 1 <==> AllStored(d, userId, cid, maxMoments))
  {
    hide Attempts, PointsOk, ConvPointId, MomentPointId;
    var ids := ForgetIds(cid, maxMoments);
    RetryIsTransparent(d, DeletePoints(ids, userId), maxRetries, attempts, 0);
    DeleteAllLeaves(d, ids, userId);
    RemovedCount(d, ids, userId);
    NamedAreThere(d, userId, cid, maxMoments);
  }

  lemma NamedAreThere(d: Points, userId: string, cid: string, n: nat)
    ensures AllThere(d, ForgetIds(cid, n), userId) <==> AllStored(d, userId, cid, n)
  {
    hide MomentPointId, ConvPointId, UsersOwn;
    var ids := ForgetIds(cid, n);
    ForgetIdsOnce(cid, n);
    ForgetIdAt(cid, n);
    if AllThere(d, ids, userId) {
      forall i: nat | i < n ensures UsersOwn(d, userId, MomentPointId(cid, i)) {
        assert ids[i + 1] == MomentPointId(cid, i);
      }
    }
    if AllStored(d, userId, cid, n) {
      forall k | 0 <= k < |ids| ensures UsersOwn(d, userId, ids[k]) {
        if k > 0 {
          assert ids[k - 1 + 1] == MomentPointId(cid, k - 1);
        }
      }
    }
  }

  lemma {:induction false} ForgetIdAt(cid: string, n: nat)
    ensures ForgetIds(cid, n)[0] == ConvPointId(cid)
    ensures forall i: nat :: i < n ==> ForgetIds(cid, n)[i + 1] == MomentPointId(cid, i)
  {
    hide MomentPointId, ConvPointId;
    if n > 0 {
      ForgetIdAt(cid, n - 1);
    }
  }

  /** Every moment that a finalization can keep of a conversation has an id that a forget of it names. */
  ghost predicate ForgetsWhatItKeeps(cid: string, maxMoments: int) {
    forall texts: seq<string>, i: nat :: i < |FirstOnes(texts, maxMoments)| ==>
      MomentPointId(cid, i) in ForgetIds(cid, AtLeastZero(maxMoments))
  }

  /**
   That holds if and only if the maximum is not negative: the slice with a negative maximum drops moments from the end
   and keeps the others, and the forget then names no moment.
   */
  lemma KeptMomentsAreForgottenIff(cid: string, maxMoments: int)
    ensures ForgetsWhatItKeeps(cid, maxMoments) <==> maxMoments >= 0
  {
    hide MomentPointId, ConvPointId;
    if maxMoments >= 0 {
      forall texts: seq<string>, i: nat | i < |FirstOnes(texts, maxMoments)|
        ensures MomentPointId(cid, i) in ForgetIds(cid, AtLeastZero(maxMoments))
      {
        ForgetIdsAre(cid, maxMoments, MomentPointId(cid, i));
      }
    } else {
      var texts: seq<string> := seq(1 - maxMoments, i => "");
      assert |FirstOnes(texts, maxMoments)| == 1;
      PointIdsInjective(cid, 0, cid, 0);
      assert MomentPointId(cid, 0) !in ForgetIds(cid, AtLeastZero(maxMoments));
    }
  }

  /**
   With a negative maximum every moment that a finalization kept is still stored after the conversation was forgotten.
   */
  lemma NegativeMaximumLeavesMoments(d: Points, userId: string, cid: string, text: string, maxMoments: int,
      maxRetries: int, w: World, attempts: nat -> Attempt, i: nat)
    requires PointsOk(d) && maxMoments < 0 && text != "" && i < |FirstOnes(w.flagged(text), maxMoments)|
    requires WriteStep(d, userId, cid, text, maxMoments, maxRetries, w).1
    requires Attempts(WriteStep(d, userId, cid, text, maxMoments, maxRetries, w).0,
                      DeletePoints(ForgetIds(cid, AtLeastZero(maxMoments)), userId), maxRetries, attempts, 0).1
                          == Written
    ensures var written := WriteStep(d, userId, cid, text, maxMoments, maxRetries, w).0;
            var forgotten := Attempts(written, DeletePoints(ForgetIds(cid, AtLeastZero(maxMoments)), userId),
                maxRetries, attempts, 0).0;
            var texts := FirstOnes(w.flagged(text), maxMoments);
            && MomentPoints(userId, cid, texts, w).Some? && |MomentPoints(userId, cid, texts, w).value| == |texts|
            && Get(forgotten, MomentPointId(cid, i)) == Some(MomentPoints(userId, cid, texts, w).value[i])
  {
    hide Attempts, WriteStep, PointsOk, MomentPoints, FirstOnes, MomentPointId, ConvPointId;
    var written := WriteStep(d, userId, cid, text, maxMoments, maxRetries, w).0;
    var ids, texts := ForgetIds(cid, 0), FirstOnes(w.flagged(text), maxMoments);
    WriteUpserts(d, userId, cid, text, maxMoments, maxRetries, w);
    MomentsAreOurs(userId, cid, texts, w, |texts|);
    RetryIsTransparent(written, DeletePoints(ids, userId), maxRetries, attempts, 0);
    DeleteAllLeaves(written, ids, userId);
    PointIdsInjective(cid, 0, cid, i);
    SurvivorsGet(written, ids, userId, MomentPointId(cid, i));
  }

  // ---- What a forget leaves after merges ----

  /** The point stems from the conversation, or from a merge that lists it among its sources. */
  predicate Mentions(p: MemoryPoint, cid: string) {
    p.payload.conversationId == Some(cid) || cid in p.payload.sourceConversationIds
  }

  ghost predicate NoneMentions(d: Points, userId: string, cid: string) {
    forall p: MemoryPoint :: Get(d, p.id) == Some(p) && p.payload.userId == userId ==> !Mentions(p, cid)
  }

  ghost predicate NeverMerged(d: Points, userId: string, cid: string) {
    forall p: MemoryPoint :: Get(d, p.id) == Some(p) && p.payload.userId == userId && FromMerge(p) ==>
        cid !in p.payload.sourceConversationIds
  }

  /**
   After a forget nothing the user has mentions the conversation if and only if no merged point listed it: a merge moves
   its text to a point that the forget does not name.
   */
  lemma ForgetClearsIff(d: Points, userId: string, cid: string, maxMoments: int, maxRetries: int,
      attempts: nat -> Attempt)
    requires Scheme(d, maxMoments) && maxMoments >= 0
    requires Attempts(d, DeletePoints(ForgetIds(cid, maxMoments), userId), maxRetries, attempts, 0).1 == Written
    ensures NoneMentions(Attempts(d, DeletePoints(ForgetIds(cid, maxMoments), userId), maxRetries, attempts, 0).0,
              userId, cid)
            <==> NeverMerged(d, userId, cid)
  {
    hide Attempts, ForgetIds;
    var d' := Attempts(d, DeletePoints(ForgetIds(cid, maxMoments), userId), maxRetries, attempts, 0).0;
    forall p: MemoryPoint
      ensures Get(d', p.id) == Some(p) <==>
                Get(d, p.id) == Some(p) && !(p.payload.userId == userId && p.payload.conversationId == Some(cid))
    {
      ForgetIsExact(d, userId, cid, maxMoments, maxRetries, attempts, p);
    }
    if NeverMerged(d, userId, cid) {
      forall p: MemoryPoint | Get(d', p.id) == Some(p) && p.payload.userId == userId ensures !Mentions(p, cid) {
        assert Has(d, p.id) && Known(p, maxMoments);
      }
    }
    if NoneMentions(d', userId, cid) {
      forall p: MemoryPoint | Get(d, p.id) == Some(p) && p.payload.userId == userId && FromMerge(p)
        ensures cid !in p.payload.sourceConversationIds
      {
        assert Get(d', p.id) == Some(p) && !Mentions(p, cid);
      }
    }
  }
}
