/**
 When the in-memory and the Redis session store (stores/memory_session.py, stores/redis_session.py) answer differently:
 the first evicts an idle session only when it is loaded, in the second the key is gone once its time to live is over.
 */
module RedisExpiry {
  import opened Types
  import opened OrderedDict
  import opened Sessions
  import opened RedisSessions
  import opened RedisAgreement

  /** Memory holds every session that is live in Redis as it is there; it may hold others that Redis has let expire. */
  ghost predicate Twin(r: Redis, d: Table, now: real) {
    Distinct(d) && forall id :: TwinAt(r, d, now, id)
  }

  ghost predicate TwinAt(r: Redis, d: Table, now: real, id: string) {
    Live(r, id, now) ==> Get(d, id) == Some(FromDocument(r.keys[id].document))
  }

  /** The session is live in Redis exactly when memory would still load it. */
  predicate SameLife(r: Redis, d: Table, ttl: Option<real>, now: real, id: string) {
    Has(d, id) ==> (Live(r, id, now) <==> !Expired(Get(d, id).value, ttl, now))
  }

  ghost predicate SameLives(r: Redis, d: Table, ttl: Option<real>, now: real, userId: string) {
    forall id :: Has(d, id) && Get(d, id).value.userId == userId ==> SameLife(r, d, ttl, now, id)
  }

  ghost predicate DueLive(r: Redis, d: Table, idle: real, now: real) {
    forall id :: Has(d, id) && IsDue(Get(d, id).value, idle, now) ==> Live(r, id, now)
  }

  /** What each request needs for the two answers to be alike. */
  ghost predicate Alike(r: Redis, d: Table, ttl: Option<real>, q: Timed) {
    match q.request
    case Save(_, _) => true
    case Mark(_) => true
    case Append(id, _) => Has(d, id) ==> Live(r, id, q.now)
    case Load(id, _) => SameLife(r, d, ttl, q.now, id)
    case DueNow(idle) => DueLive(r, d, idle, q.now)
    case List(userId) => SameLives(r, d, ttl, q.now, userId)
  }

  // ---- One answer ----

  /** Both stores respond alike to this request. */
  ghost predicate SameAnswer(r: Redis, d: Table, ttl: Option<real>, q: Timed) {
    SameResponse(RedisStep(r, ttl, q).1, MemoryStep(d, ttl, q).1)
  }

  lemma DueAlikeIff(r: Redis, d: Table, idle: real, now: real)
    requires Indexed(r, now) && Twin(r, d, now)
    ensures SameResponse(Queue(RedisDue(r, idle, now).1), Queue(Due(d, idle, now))) <==> DueLive(r, d, idle, now)
  {
    hide Indexed, RedisDue, Due, Twin;
    var due, queue := RedisDue(r, idle, now).1, Due(d, idle, now);
    forall e ensures e in due <==> e in queue && Live(r, e.0, now) {
      InQueues(r, d, idle, now, e);
    }
    if DueLive(r, d, idle, now) {
      forall e | e in queue ensures e in due {
        InQueues(r, d, idle, now, e);
      }
    } else {
      var id :| Has(d, id) && IsDue(Get(d, id).value, idle, now) && !Live(r, id, now);
      InQueues(r, d, idle, now, (id, Get(d, id).value.userId));
    }
  }

  lemma InQueues(r: Redis, d: Table, idle: real, now: real, e: (string, string))
    requires Indexed(r, now) && Twin(r, d, now)
    ensures e in RedisDue(r, idle, now).1 <==> e in Due(d, idle, now) && Live(r, e.0, now)
    ensures e in Due(d, idle, now) <==> IdleSince(d, idle, now, e)
  {
    hide Indexed, RedisDue, Due;
    assert e == (e.0, e.1) && TwinAt(r, d, now, e.0);
    DueIsExact(r, idle, now, e.0, e.1);
    DueExactly(d, idle, now, e.0, e.1);
  }

  lemma InLists(r: Redis, d: Table, ttl: Option<real>, userId: string, now: real, m: ConversationMeta)
    requires Indexed(r, now) && Twin(r, d, now)
    ensures m in RedisList(r, userId, now) <==>
              && Live(r, m.conversationId, now) && Has(d, m.conversationId)
                  && Get(d, m.conversationId).value.userId == userId
              && Describes(m, m.conversationId, Get(d, m.conversationId).value)
    ensures m in Listing(d, ttl, userId, now) <==> ListedAs(d, ttl, userId, now, m)
    ensures SameResponse(Metas(RedisList(r, userId, now)), Metas(Listing(d, ttl, userId, now))) <==>
              forall m :: m in RedisList(r, userId, now) <==> m in Listing(d, ttl, userId, now)
  {
    hide Indexed, RedisList, Listing, NewestFirst, Unrepeated, Describes;
    assert TwinAt(r, d, now, m.conversationId);
    ListIsExact(r, userId, now, m);
    ListingExactly(d, ttl, userId, now);
  }

  lemma ListAlikeIff(r: Redis, d: Table, ttl: Option<real>, userId: string, now: real)
    requires Indexed(r, now) && Twin(r, d, now)
    ensures SameResponse(Metas(RedisList(r, userId, now)), Metas(Listing(d, ttl, userId, now))) <==>
              SameLives(r, d, ttl, now, userId)
  {
    hide Indexed, RedisList, Listing, SameResponse, MetaOf, Describes;
    InLists(r, d, ttl, userId, now, MetaOf("", SessionState("", [], "", None, map[], 0.0, None, 0.0)));
    if SameLives(r, d, ttl, now, userId) {
      forall m ensures m in RedisList(r, userId, now) <==> m in Listing(d, ttl, userId, now) {
        InLists(r, d, ttl, userId, now, m);
        assert TwinAt(r, d, now, m.conversationId);
      }
    } else {
      var id :| Has(d, id) && Get(d, id).value.userId == userId && !SameLife(r, d, ttl, now, id);
      var m := MetaOf(id, Get(d, id).value);
      MetaNames(id, Get(d, id).value);
      DescribesIff(m, id, Get(d, id).value);
      InLists(r, d, ttl, userId, now, m);
    }
  }

  lemma MetaNames(id: string, state: SessionState)
    ensures MetaOf(id, state).conversationId == id
  {
  }

  /**
   In every state in which memory holds what is live in Redis, the two answers are alike exactly under that condition.
   */
  lemma AnswerAlikeIff(r: Redis, d: Table, ttl: Option<real>, q: Timed)
    requires Indexed(r, q.now) && Twin(r, d, q.now)
    ensures SameAnswer(r, d, ttl, q) <==> Alike(r, d, ttl, q)
  {
    hide Indexed, RedisDue, Due, RedisList, Listing, Write;
    match q.request
    case DueNow(idle) => DueAlikeIff(r, d, idle, q.now);
    case List(userId) => ListAlikeIff(r, d, ttl, userId, q.now);
    case Append(id, turn) => assert TwinAt(r, d, q.now, id);
    case Load(id, userId) => assert TwinAt(r, d, q.now, id);
    case Save(id, state) =>
    case Mark(id) =>
  }

  // ---- Whole runs ----

  lemma TwinPut(r: Redis, d: Table, id: string, state: SessionState, expires: Option<real>, now: real, r': Redis)
    requires Twin(r, d, now) && r'.keys == r.keys[id := Stored(ToDocument(state), expires)]
    ensures Twin(r', Put(d, id, state), now)
  {
    RoundTrip(state);
    PutDistinct(d, id, state);
    forall k ensures TwinAt(r', Put(d, id, state), now, k) {
      assert TwinAt(r, d, now, k);
      PutProperties(d, id, state, k);
    }
  }

  /** A session that is not live in Redis may change or go in memory. */
  lemma TwinDead(r: Redis, d: Table, d': Table, id: string, now: real)
    requires Twin(r, d, now) && Distinct(d') && !Live(r, id, now) && forall k :: k != id ==> Get(d', k) == Get(d, k)
    ensures Twin(r, d', now)
  {
    forall k ensures TwinAt(r, d', now, k) {
      assert TwinAt(r, d, now, k);
    }
  }

  lemma TwinMark(r: Redis, d: Table, ttl: Option<real>, id: string, now: real)
    requires Twin(r, d, now)
    ensures Twin(RedisMark(r, ttl, id, now), MarkStep(d, id, now), now)
  {
    assert TwinAt(r, d, now, id);
    if Live(r, id, now) {
      var state := FromDocument(r.keys[id].document).(finalizedAt := Some(now));
      TwinPut(r, d, id, state, Expiry(ttl, now), now, RedisMark(r, ttl, id, now));
    } else if Has(d, id) {
      var state := Get(d, id).value.(finalizedAt := Some(now));
      PutDistinct(d, id, state);
      forall k | k != id ensures Get(Put(d, id, state), k) == Get(d, k) {
        PutProperties(d, id, state, k);
      }
      TwinDead(r, d, Put(d, id, state), id, now);
    }
  }

  lemma TwinAppend(r: Redis, d: Table, ttl: Option<real>, id: string, turn: Turn, now: real)
    requires Twin(r, d, now) && (Has(d, id) ==> Live(r, id, now))
    ensures Twin(RedisAppend(r, ttl, id, turn, now).0, AppendStep(d, id, turn, now).0, now)
  {
    assert TwinAt(r, d, now, id);
    if Live(r, id, now) {
      var state := FromDocument(r.keys[id].document);
      var appended := Touched(state.(workingBuffer := state.workingBuffer + [turn]), now);
      TwinPut(r, d, id, appended, Expiry(ttl, now), now, RedisAppend(r, ttl, id, turn, now).0);
    }
  }

  lemma TwinLoad(r: Redis, d: Table, ttl: Option<real>, id: string, userId: string, now: real)
    requires Twin(r, d, now) && SameLife(r, d, ttl, now, id)
    ensures Twin(r, LoadStep(d, ttl, id, userId, now).0, now)
  {
    hide Twin;
    if Has(d, id) && Expired(Get(d, id).value, ttl, now) {
      assert Distinct(d) by { TwinDistinct(r, d, now); }
      forall k | k != id ensures Get(Remove(d, id), k) == Get(d, k) {
        RemoveProperties(d, id, k);
      }
      RemoveProperties(d, id, id);
      TwinDead(r, d, Remove(d, id), id, now);
    }
  }

  lemma TwinDistinct(r: Redis, d: Table, now: real)
    requires Twin(r, d, now)
    ensures Distinct(d)
  {
  }

  lemma SameKeys(r: Redis, r': Redis, d: Table, now: real)
    requires Twin(r, d, now) && r'.keys == r.keys
    ensures Twin(r', d, now)
  {
    forall k ensures TwinAt(r', d, now, k) {
      assert TwinAt(r, d, now, k);
    }
  }

  /** Answers that are alike leave memory with what is live in Redis. */
  lemma TwinStep(r: Redis, d: Table, ttl: Option<real>, q: Timed)
    requires Twin(r, d, q.now) && Alike(r, d, ttl, q)
    ensures Twin(RedisStep(r, ttl, q).0, MemoryStep(d, ttl, q).0, q.now)
  {
    hide Twin, Live, DueScan, RedisAppend, AppendStep, RedisMark, MarkStep, LoadStep;
    match q.request
    case Save(id, state) =>
      TwinPut(r, d, id, Touched(state, q.now), Expiry(ttl, q.now), q.now, RedisStep(r, ttl, q).0);
    case Mark(id) => TwinMark(r, d, ttl, id, q.now);
    case Append(id, turn) => TwinAppend(r, d, ttl, id, turn, q.now);
    case Load(id, userId) => TwinLoad(r, d, ttl, id, userId, q.now);
    case DueNow(idle) => SameKeys(r, RedisStep(r, ttl, q).0, d, q.now);
    case List(userId) =>
  }

  lemma TwinLater(r: Redis, d: Table, now: real, later: real)
    requires Twin(r, d, now) && now <= later
    ensures Twin(r, d, later)
  {
    forall k ensures TwinAt(r, d, later, k) {
      assert TwinAt(r, d, now, k);
    }
  }

  /** The n-th answers of the two stores are alike. */
  ghost predicate AlikeAt(ttl: Option<real>, run: seq<Timed>, n: nat)
    requires n < |run|
  {
    SameAnswer(RedisRun(ttl, run[..n]), MemoryRun(ttl, run[..n]), ttl, run[n])
  }

  /** The n-th request finds what it needs for that. */
  ghost predicate MetAt(ttl: Option<real>, run: seq<Timed>, n: nat)
    requires n < |run|
  {
    Alike(RedisRun(ttl, run[..n]), MemoryRun(ttl, run[..n]), ttl, run[n])
  }

  lemma OrderedFront(run: seq<Timed>, n: nat)
    requires n < |run| && Monotone(run)
    ensures Monotone(run[..n]) && (run[..n] != [] ==> run[..n][|run[..n]| - 1].now <= run[n].now)
    ensures n > 0 ==> run[n - 1].now <= run[n].now
  {
  }

  lemma {:induction false} TwinAfter(ttl: Option<real>, run: seq<Timed>, n: nat, now: real)
    requires n <= |run| && Monotone(run) && (n > 0 ==> run[n - 1].now <= now)
    requires forall i :: 0 <= i < n ==> MetAt(ttl, run, i)
    ensures Twin(RedisRun(ttl, run[..n]), MemoryRun(ttl, run[..n]), now)
  {
    if n > 0 {
      hide Twin, Monotone, RedisRun, MemoryRun, RedisStep, MemoryStep, Alike;
      var q := run[n - 1];
      OrderedFront(run, n - 1);
      TwinAfter(ttl, run, n - 1, q.now);
      assert MetAt(ttl, run, n - 1);
      StepOfRun(ttl, run, n);
      TwinStep(RedisRun(ttl, run[..n - 1]), MemoryRun(ttl, run[..n - 1]), ttl, q);
      TwinLater(RedisRun(ttl, run[..n]), MemoryRun(ttl, run[..n]), q.now, now);
    }
  }

  lemma AlikeIffMet(ttl: Option<real>, run: seq<Timed>, n: nat)
    requires n < |run| && Monotone(run) && forall i :: 0 <= i < n ==> MetAt(ttl, run, i)
    ensures AlikeAt(ttl, run, n) <==> MetAt(ttl, run, n)
  {
    hide Twin, Monotone, RedisRun, MemoryRun, SameAnswer, Alike, Indexed;
    OrderedFront(run, n);
    TwinAfter(ttl, run, n, run[n].now);
    IndexesAgree(ttl, run[..n], run[n].now);
    AnswerAlikeIff(RedisRun(ttl, run[..n]), MemoryRun(ttl, run[..n]), ttl, run[n]);
  }

  lemma {:induction false} AlikeMeansMet(ttl: Option<real>, run: seq<Timed>, n: nat)
    requires n <= |run| && Monotone(run) && forall i :: 0 <= i < n ==> AlikeAt(ttl, run, i)
    ensures forall i :: 0 <= i < n ==> MetAt(ttl, run, i)
  {
    if n > 0 {
      hide AlikeAt, MetAt, Monotone;
      AlikeMeansMet(ttl, run, n - 1);
      AlikeIffMet(ttl, run, n - 1);
    }
  }

  /**
   In every run from the empty stores, with any time to live and whatever expires: the two stores give the same response
   to every request if and only if every load and listing finds the sessions it concerns either alive in both stores or
   in neither, every append finds a session that memory holds alive in Redis, and every sweep the ones that are due
   there.
   */
  lemma StoresAgreeIff(ttl: Option<real>, run: seq<Timed>)
    requires Monotone(run)
    ensures (forall n :: 0 <= n < |run| ==> AlikeAt(ttl, run, n)) <==>
              (forall n :: 0 <= n < |run| ==> MetAt(ttl, run, n))
  {
    hide AlikeAt, MetAt, Monotone;
    if forall n :: 0 <= n < |run| ==> AlikeAt(ttl, run, n) {
      AlikeMeansMet(ttl, run, |run|);
    }
    if forall n :: 0 <= n < |run| ==> MetAt(ttl, run, n) {
      forall n | 0 <= n < |run| ensures AlikeAt(ttl, run, n) {
        AlikeIffMet(ttl, run, n);
      }
    }
  }

  // ---- While nothing expires ----

  ghost predicate SameSessions(r: Redis, d: Table) {
    && Distinct(d)
    && forall id :: Get(d, id) == if id in r.keys then Some(FromDocument(r.keys[id].document)) else None
  }

  /** No activity lies in the future, and a key lives at least until its session has been idle for the time to live. */
  ghost predicate ExpiryOk(r: Redis, ttl: Option<real>, now: real) {
    forall id :: id in r.keys ==>
      && r.keys[id].document.updatedAt <= now
      && if ttl.None? then r.keys[id].expires.None?
      else r.keys[id].expires.Some? && r.keys[id].expires.value >= r.keys[id].document.updatedAt + ttl.value
  }

  /** No session has been idle for the whole time to live. Without one, this always holds. */
  ghost predicate NothingExpires(d: Table, ttl: Option<real>, now: real) {
    ttl.Some? ==> forall id :: Has(d, id) ==> now - Get(d, id).value.updatedAt < ttl.value
  }

  lemma AllLive(r: Redis, d: Table, ttl: Option<real>, now: real)
    requires SameSessions(r, d) && ExpiryOk(r, ttl, now) && NothingExpires(d, ttl, now)
    ensures forall id :: Live(r, id, now) <==> id in r.keys
    ensures forall id :: Has(d, id) ==> !Expired(Get(d, id).value, ttl, now)
  {
    forall id | id in r.keys ensures Live(r, id, now) {
      assert Has(d, id);
    }
  }

  lemma PutSame(r: Redis, d: Table, ttl: Option<real>, id: string, state: SessionState, expires: Option<real>,
      now: real, r': Redis)
    requires SameSessions(r, d) && ExpiryOk(r, ttl, now) && state.updatedAt <= now
    requires r'.keys == r.keys[id := Stored(ToDocument(state), expires)]
    requires if ttl.None? then expires.None? else expires.Some? && expires.value >= state.updatedAt + ttl.value
    ensures SameSessions(r', Put(d, id, state)) && ExpiryOk(r', ttl, now)
  {
    RoundTrip(state);
    PutDistinct(d, id, state);
    forall k
      ensures Get(Put(d, id, state), k) ==
              if k in r'.keys then Some(FromDocument(r'.keys[k].document)) else None
    {
      PutProperties(d, id, state, k);
    }
  }

  lemma SameStep(r: Redis, d: Table, ttl: Option<real>, q: Timed)
    requires SameSessions(r, d) && ExpiryOk(r, ttl, q.now) && NothingExpires(d, ttl, q.now)
    ensures SameSessions(RedisStep(r, ttl, q).0, MemoryStep(d, ttl, q).0)
    ensures ExpiryOk(RedisStep(r, ttl, q).0, ttl, q.now)
  {
    hide NothingExpires, SameSessions, DueScan, ToDocument;
    AllLive(r, d, ttl, q.now);
    var r' := RedisStep(r, ttl, q).0;
    match q.request
    case Save(id, state) => PutSame(r, d, ttl, id, Touched(state, q.now), Expiry(ttl, q.now), q.now, r');
    case Append(id, turn) =>
      SameAt(r, d, id);
      if id in r.keys {
        var state := FromDocument(r.keys[id].document);
        var appended := Touched(state.(workingBuffer := state.workingBuffer + [turn]), q.now);
        PutSame(r, d, ttl, id, appended, Expiry(ttl, q.now), q.now, r');
      }
    case Mark(id) =>
      SameAt(r, d, id);
      if id in r.keys {
        var state := FromDocument(r.keys[id].document).(finalizedAt := Some(q.now));
        PutSame(r, d, ttl, id, state, Expiry(ttl, q.now), q.now, r');
      }
    case Load(id, userId) => SameAt(r, d, id);
    case DueNow(idle) => KeysDecide(r, r', d);
    case List(userId) =>
  }

  lemma SameAt(r: Redis, d: Table, id: string)
    requires SameSessions(r, d)
    ensures Get(d, id) == if id in r.keys then Some(FromDocument(r.keys[id].document)) else None
  {
  }

  lemma KeysDecide(r: Redis, r': Redis, d: Table)
    requires SameSessions(r, d) && r'.keys == r.keys
    ensures SameSessions(r', d)
  {
  }

  /** While nothing expires every request finds what it needs. */
  lemma NothingExpiredAlike(r: Redis, d: Table, ttl: Option<real>, q: Timed)
    requires SameSessions(r, d) && ExpiryOk(r, ttl, q.now) && NothingExpires(d, ttl, q.now)
    ensures Alike(r, d, ttl, q)
  {
    hide Live, Expired, ExpiryOk, NothingExpires;
    AllLive(r, d, ttl, q.now);
  }

  ghost predicate NothingExpiresInRun(ttl: Option<real>, run: seq<Timed>) {
    forall n :: 0 <= n < |run| ==> NothingExpires(MemoryRun(ttl, run[..n]), ttl, run[n].now)
  }

  lemma PrefixFacts(ttl: Option<real>, run: seq<Timed>, n: nat)
    requires 0 < n <= |run| && Monotone(run) && NothingExpiresInRun(ttl, run)
    ensures Monotone(run[..n - 1]) && NothingExpires(MemoryRun(ttl, run[..n - 1]), ttl, run[n - 1].now)
    ensures n > 1 ==> run[n - 2].now <= run[n - 1].now && run[..n - 1][|run[..n - 1]| - 1].now <= run[n - 1].now
  {
    hide MemoryRun, NothingExpires;
  }

  lemma ExpiryLater(r: Redis, ttl: Option<real>, now: real, later: real)
    requires ExpiryOk(r, ttl, now) && now <= later
    ensures ExpiryOk(r, ttl, later)
  {
  }

  lemma {:induction false} AgreeAfter(ttl: Option<real>, run: seq<Timed>, n: nat, now: real)
    requires n <= |run| && Monotone(run) && NothingExpiresInRun(ttl, run) && (n > 0 ==> run[n - 1].now <= now)
    ensures SameSessions(RedisRun(ttl, run[..n]), MemoryRun(ttl, run[..n]))
              && ExpiryOk(RedisRun(ttl, run[..n]), ttl, now)
  {
    if n > 0 {
      hide SameSessions, NothingExpires, RedisStep, MemoryStep, RedisRun, MemoryRun, ExpiryOk, Monotone,
           NothingExpiresInRun;
      var q := run[n - 1];
      PrefixFacts(ttl, run, n);
      AgreeAfter(ttl, run, n - 1, q.now);
      StepOfRun(ttl, run, n);
      SameStep(RedisRun(ttl, run[..n - 1]), MemoryRun(ttl, run[..n - 1]), ttl, q);
      ExpiryLater(RedisRun(ttl, run[..n]), ttl, q.now, now);
    }
  }

  /**
   In a run at each step of which nothing has been idle for the whole time to live (always, without one), the two
   stores give the same response to every request: the sweep's queue as a set, the listing up to equal times.
   */
  lemma StoresAgree(ttl: Option<real>, run: seq<Timed>, n: nat)
    requires Monotone(run) && NothingExpiresInRun(ttl, run) && n < |run|
    ensures AlikeAt(ttl, run, n)
  {
    hide AlikeAt, MetAt, Monotone, NothingExpiresInRun;
    forall i | 0 <= i <= n ensures MetAt(ttl, run, i) {
      NothingExpiredMet(ttl, run, i);
    }
    AlikeIffMet(ttl, run, n);
  }

  lemma NothingExpiredMet(ttl: Option<real>, run: seq<Timed>, n: nat)
    requires Monotone(run) && NothingExpiresInRun(ttl, run) && n < |run|
    ensures MetAt(ttl, run, n)
  {
    hide Monotone, SameSessions, ExpiryOk, NothingExpires, RedisRun, MemoryRun, Alike;
    OrderedFront(run, n);
    AgreeAfter(ttl, run, n, run[n].now);
    NothingExpiredAlike(RedisRun(ttl, run[..n]), MemoryRun(ttl, run[..n]), ttl, run[n]);
  }

  // ---- One session, saved once ----

  lemma SavedOnly(id: string, state: SessionState, life: real, saved: real)
    ensures var run := [Timed(Save(id, state), saved)];
            && Monotone(run)
            && MemoryRun(Some(life), run) == [(id, Touched(state, saved))]
            && var r := RedisRun(Some(life), run);
               && r.keys == map[id := Stored(ToDocument(Touched(state, saved)), Some(saved + life))]
               && forall now :: saved <= now ==> Indexed(r, now) && Twin(r, MemoryRun(Some(life), run), now)
  {
    var ttl, run := Some(life), [Timed(Save(id, state), saved)];
    assert run[..0] == [] && run[..1] == run;
    StepOfRun(ttl, run, 1);
    assert RedisRun(ttl, run[..0]) == Redis(map[], map[], []) && MemoryRun(ttl, run[..0]) == [];
    forall now | saved <= now ensures Indexed(RedisRun(ttl, run), now)
        && Twin(RedisRun(ttl, run), MemoryRun(ttl, run), now) {
      IndexesAgree(ttl, run, now);
      assert MetAt(ttl, run, 0);
      TwinAfter(ttl, run, 1, now);
    }
  }

  /**
   A session saved at `saved` and asked for later. From the end of its life on, an append revives it in memory and fails
   in Redis, and a sweep queues it in memory alone; loads and listings differ at the end of its life itself.
   */
  lemma SavedAnswersIff(id: string, state: SessionState, life: real, saved: real, asked: real, turn: Turn, idle: real)
    requires life > 0.0 && saved <= asked
    ensures var ttl, run := Some(life), [Timed(Save(id, state), saved)];
            var r, d := RedisRun(ttl, run), MemoryRun(ttl, run);
            && (SameAnswer(r, d, ttl, Timed(Append(id, turn), asked)) <==> asked < saved + life)
            && (SameAnswer(r, d, ttl, Timed(DueNow(idle), asked)) <==> asked < saved + life || asked - saved < idle)
            && (SameAnswer(r, d, ttl, Timed(List(state.userId), asked)) <==> asked != saved + life)
            && (SameAnswer(r, d, ttl, Timed(Load(id, state.userId), asked)) <==> asked != saved + life)
  {
    hide RedisRun, MemoryRun, Indexed, Twin, SameAnswer;
    var ttl, run := Some(life), [Timed(Save(id, state), saved)];
    var r, d := RedisRun(ttl, run), MemoryRun(ttl, run);
    SavedOnly(id, state, life, saved);
    OnlyOne(id, Touched(state, saved));
    AnswerAlikeIff(r, d, ttl, Timed(Append(id, turn), asked));
    AnswerAlikeIff(r, d, ttl, Timed(DueNow(idle), asked));
    AnswerAlikeIff(r, d, ttl, Timed(List(state.userId), asked));
    AnswerAlikeIff(r, d, ttl, Timed(Load(id, state.userId), asked));
    assert Has(d, id);
  }

  lemma OnlyOne(id: string, state: SessionState)
    ensures forall k :: Get([(id, state)], k) == if k == id then Some(state) else None
  {
    assert [(id, state)][1..] == [];
  }

  /** Saving a session at `saved`, marking it finalized at `marked`, and loading it at `asked`. */
  function FinalizeThenLoad(id: string, state: SessionState, saved: real, marked: real): seq<Timed> {
    [Timed(Save(id, state), saved), Timed(Mark(id), marked)]
  }

  /**
   Finalizing renews the key's expiry in Redis and nothing in memory. For a session marked while it was still live, the
   stores agree on a later load if and only if the load does not fall between the two ends of life; the end of life
   itself counts as live in memory only, which shows when the mark came at once.
   */
  lemma MarkRenewsOnlyRedis(id: string, state: SessionState, life: real, saved: real, marked: real, asked: real)
    requires life > 0.0 && saved <= marked < saved + life && marked <= asked
    ensures var run := FinalizeThenLoad(id, state, saved, marked);
            var q := Timed(Load(id, state.userId), asked);
            SameAnswer(RedisRun(Some(life), run), MemoryRun(Some(life), run), Some(life), q)
            <==> !(saved + life < asked < marked + life) && !(marked == saved && asked == saved + life)
  {
    var ttl, run := Some(life), FinalizeThenLoad(id, state, saved, marked);
    StepOfRun(ttl, run, 1);
    StepOfRun(ttl, run, 2);
    assert run[..0] == [] && run[..2] == run;
    var s1 := Touched(state, saved);
    var s2 := s1.(finalizedAt := Some(marked));
    RoundTrip(s1);
    RoundTrip(s2);
    var r1, r2 := RedisRun(ttl, run[..1]), RedisRun(ttl, run);
    assert r1.keys[id] == Stored(ToDocument(s1), Some(saved + life));
    assert r2.keys[id] == Stored(ToDocument(s2), Some(marked + life));
    assert MemoryRun(ttl, run[..1]) == [(id, s1)];
    assert MemoryRun(ttl, run) == [(id, s2)];
  }
}
