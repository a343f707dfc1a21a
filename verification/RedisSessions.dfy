/**
 The Redis session store (stores/redis_session.py): session keys with an expiry, and two sorted-set indexes, one a user
 and one of the sessions that await finalization. A pipeline is one transaction, and a method is taken as one step.
 */
module RedisSessions {
  import opened Types
  import opened Text
  import opened OrderedDict
  import opened Sessions

  // ---- The stored document ----

  datatype TurnDocument = TurnDocument(
    role: Role, text: string, toolCalls: Option<seq<ToolCall>>, toolCallId: Option<string>, ts: real)

  /** The JSON document of a session; an optional field may be missing from one that an older version wrote. */
  datatype Document = Document(
    userId: string,
    workingBuffer: Option<seq<TurnDocument>>,
    rollingSummary: Option<string>,
    modelName: Option<string>,
    scratch: Option<map<string, string>>,
    updatedAt: real,
    finalizedAt: Option<real>,
    createdAt: Option<real>)

  function TurnToDocument(t: Turn): TurnDocument {
    TurnDocument(t.role, t.text, Some(t.toolCalls), t.toolCallId, t.ts)
  }

  function TurnFromDocument(t: TurnDocument): Turn {
    Turn(t.role, t.text, if t.toolCalls.Some? then t.toolCalls.value else [], t.toolCallId, t.ts)
  }

  function ToDocument(s: SessionState): Document {
    Document(s.userId,
             Some(seq(|s.workingBuffer|, i requires 0 <= i < |s.workingBuffer| => TurnToDocument(s.workingBuffer[i]))),
             Some(s.rollingSummary), s.modelName, Some(s.scratch), s.updatedAt, s.finalizedAt, Some(s.createdAt))
  }

  function FromDocument(d: Document): SessionState {
    var turns := if d.workingBuffer.Some? then d.workingBuffer.value else [];
    SessionState(d.userId,
                 seq(|turns|, i requires 0 <= i < |turns| => TurnFromDocument(turns[i])),
                 if d.rollingSummary.Some? then d.rollingSummary.value else "",
                 d.modelName,
                 if d.scratch.Some? then d.scratch.value else map[],
                 d.updatedAt, d.finalizedAt,
                 if d.createdAt.Some? then d.createdAt.value else d.updatedAt)
  }

  /** Writing a session and reading it back gives the same session. */
  lemma RoundTrip(s: SessionState)
    ensures FromDocument(ToDocument(s)) == s
  {
    var back := FromDocument(ToDocument(s)).workingBuffer;
    forall i | 0 <= i < |back| ensures back[i] == s.workingBuffer[i] {
      assert back[i] == TurnFromDocument(TurnToDocument(s.workingBuffer[i]));
    }
  }

  // ---- Sorted sets ----

  /** Members with their scores, in the order Redis keeps them: by score, equal scores by member. */
  type ZSet = Dict<string, real>

  function ZInsert(z: ZSet, member: string, score: real): ZSet {
    if z == [] then [(member, score)]
    else if score < z[0].1 || (score == z[0].1 && !Leq(z[0].0, member)) then [(member, score)] + z
    else [z[0]] + ZInsert(z[1..], member, score)
  }

  function ZAdd(z: ZSet, member: string, score: real): ZSet {
    ZInsert(Remove(z, member), member, score)
  }

  function ZRem(z: ZSet, member: string): ZSet {
    Remove(z, member)
  }

  /** ZRANGEBYSCORE key -inf max */
  function ZUpTo(z: ZSet, max: real): seq<string> {
    if z == [] then [] else (if z[0].1 <= max then [z[0].0] else []) + ZUpTo(z[1..], max)
  }

  /** ZREVRANGE key 0 -1 */
  function ZReversed(z: ZSet): seq<string> {
    if z == [] then [] else ZReversed(z[1..]) + [z[0].0]
  }

  // ---- The store ----

  datatype Stored = Stored(document: Document, expires: Option<real>)

  datatype Redis = Redis(keys: map<string, Stored>, userConvs: map<string, ZSet>, pending: ZSet)

  predicate Live(r: Redis, id: string, now: real) {
    id in r.keys && (r.keys[id].expires.None? || now < r.keys[id].expires.value)
  }

  function Fetch(r: Redis, id: string, now: real): Option<Document> {
    if Live(r, id, now) then Some(r.keys[id].document) else None
  }

  function Expiry(ttl: Option<real>, now: real): Option<real> {
    match ttl { case None => None case Some(t) => Some(now + t) }
  }

  function ConvsOf(r: Redis, userId: string): ZSet {
    if userId in r.userConvs then r.userConvs[userId] else []
  }

  /** The transaction of save and append: the document, and its place in both indexes. */
  function Write(r: Redis, ttl: Option<real>, id: string, state: SessionState, now: real): Redis {
    Redis(r.keys[id := Stored(ToDocument(state), Expiry(ttl, now))],
          r.userConvs[state.userId := ZAdd(ConvsOf(r, state.userId), id, now)],
          ZAdd(r.pending, id, now))
  }

  function RedisLoad(r: Redis, id: string, userId: string, now: real): LoadResult {
    match Fetch(r, id, now)
    case None => Absent
    case Some(d) => if d.userId != userId then Unauthorized else Loaded(FromDocument(d))
  }

  function RedisSave(r: Redis, ttl: Option<real>, id: string, state: SessionState, now: real): Redis {
    Write(r, ttl, id, Touched(state, now), now)
  }

  function RedisAppend(r: Redis, ttl: Option<real>, id: string, turn: Turn, now: real): (Redis, bool) {
    match Fetch(r, id, now)
    case None => (r, false)
    case Some(d) =>
      var state := FromDocument(d);
      (Write(r, ttl, id, Touched(state.(workingBuffer := state.workingBuffer + [turn]), now), now), true)
  }

  function RedisMark(r: Redis, ttl: Option<real>, id: string, now: real): Redis {
    match Fetch(r, id, now)
    case None => r
    case Some(d) =>
      var state := FromDocument(d).(finalizedAt := Some(now));
      r.(keys := r.keys[id := Stored(ToDocument(state), Expiry(ttl, now))], pending := ZRem(r.pending, id))
  }

  /** The scan of the fetched candidates: an expired one is dropped from the index, a finalized one is skipped. */
  function DueScan(r: Redis, ids: seq<string>, now: real): (ZSet, seq<(string, string)>) {
    if ids == [] then (r.pending, [])
    else
      var (z, found) := DueScan(r, ids[..|ids| - 1], now);
      var id := ids[|ids| - 1];
      match Fetch(r, id, now)
      case None => (ZRem(z, id), found)
      case Some(d) => (z, if d.finalizedAt.Some? then found else found + [(id, d.userId)])
  }

  function RedisDue(r: Redis, idle: real, now: real): (Redis, seq<(string, string)>) {
    var (z, found) := DueScan(r, ZUpTo(r.pending, now - idle), now);
    (r.(pending := z), found)
  }

  function MetaFromDocument(id: string, d: Document): ConversationMeta {
    ConversationMeta(id, d.userId, if d.createdAt.Some? then d.createdAt.value else d.updatedAt, d.updatedAt,
                     d.finalizedAt, if d.workingBuffer.Some? then |d.workingBuffer.value| else 0,
                     Preview(if d.rollingSummary.Some? then d.rollingSummary.value else ""), d.modelName)
  }

  function ListScan(r: Redis, userId: string, ids: seq<string>, now: real): seq<ConversationMeta> {
    if ids == [] then []
    else
      var id := ids[|ids| - 1];
      ListScan(r, userId, ids[..|ids| - 1], now) +
      match Fetch(r, id, now) {
        case None => []
        case Some(d) => if d.userId != userId then [] else [MetaFromDocument(id, d)]
      }
  }

  function RedisList(r: Redis, userId: string, now: real): seq<ConversationMeta> {
    ListScan(r, userId, ZReversed(ConvsOf(r, userId)), now)
  }

  class RedisSessionStore {
    var redis: Redis
    const ttl: Option<real>

    constructor (ttl: Option<real>)
      ensures this.ttl == ttl && redis == Redis(map[], map[], [])
    {
      this.ttl := ttl;
      redis := Redis(map[], map[], []);
    }

    method Load(id: string, userId: string, now: real) returns (result: LoadResult)
      ensures result == RedisLoad(redis, id, userId, now)
    {
      var raw := Fetch(redis, id, now);
      if raw.None? {
        return Absent;
      }
      var state := FromDocument(raw.value);
      if state.userId != userId {
        return Unauthorized;
      }
      result := Loaded(state);
    }

    method Save(id: string, state: SessionState, now: real)
      modifies this
      ensures redis == RedisSave(old(redis), ttl, id, state, now)
    {
      var stamped := state.(updatedAt := now, finalizedAt := None);
      Execute(id, stamped, now);
    }

    method AppendTurn(id: string, turn: Turn, now: real) returns (ok: bool)
      modifies this
      ensures (redis, ok) == RedisAppend(old(redis), ttl, id, turn, now)
    {
      var raw := Fetch(redis, id, now);
      if raw.None? {
        return false;
      }
      var state := FromDocument(raw.value);
      state := state.(workingBuffer := state.workingBuffer + [turn]);
      state := state.(updatedAt := now, finalizedAt := None);
      Execute(id, state, now);
      return true;
    }

    method Execute(id: string, state: SessionState, now: real)
      modifies this
      ensures redis == Write(old(redis), ttl, id, state, now)
    {
      var raw := ToDocument(state);
      redis := redis.(keys := redis.keys[id := Stored(raw, Expiry(ttl, now))]);
      redis := redis.(userConvs := redis.userConvs[state.userId := ZAdd(ConvsOf(redis, state.userId), id, now)]);
      redis := redis.(pending := ZAdd(redis.pending, id, now));
    }

    method DueForFinalize(idle: real, now: real) returns (due: seq<(string, string)>)
      modifies this
      ensures (redis, due) == RedisDue(old(redis), idle, now)
    {
      var ids := ZUpTo(redis.pending, now - idle);
      ghost var before := redis;
      var left := redis.pending;
      due := [];
      for n := 0 to |ids|
        invariant (left, due) == DueScan(before, ids[..n], now)
        invariant redis == before.(pending := left)
      {
        assert ids[..n + 1][..n] == ids[..n];
        var raw := Fetch(redis, ids[n], now);
        if raw.None? {
          left := ZRem(left, ids[n]);
          redis := redis.(pending := left);
        } else if raw.value.finalizedAt.None? {
          due := due + [(ids[n], raw.value.userId)];
        }
      }
      assert ids[..|ids|] == ids;
    }

    method MarkFinalized(id: string, now: real)
      modifies this
      ensures redis == RedisMark(old(redis), ttl, id, now)
    {
      var raw := Fetch(redis, id, now);
      if raw.None? {
        return;
      }
      var state := FromDocument(raw.value);
      state := state.(finalizedAt := Some(now));
      redis := redis.(keys := redis.keys[id := Stored(ToDocument(state), Expiry(ttl, now))]);
      redis := redis.(pending := ZRem(redis.pending, id));
    }

    method List(userId: string, now: real) returns (metas: seq<ConversationMeta>)
      ensures metas == RedisList(redis, userId, now)
    {
      var ids := ZReversed(ConvsOf(redis, userId));
      metas := [];
      for n := 0 to |ids|
        invariant metas == ListScan(redis, userId, ids[..n], now)
      {
        assert ids[..n + 1][..n] == ids[..n];
        var raw := Fetch(redis, ids[n], now);
        if raw.Some? && raw.value.userId == userId {
          metas := metas + [MetaFromDocument(ids[n], raw.value)];
        }
      }
      assert ids[..|ids|] == ids;
    }
  }
}
