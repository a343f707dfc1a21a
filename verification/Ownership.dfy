/**
 Who may read a session (stores/memory_session.py, stores/redis_session.py): in both stores the user of its last save
 and nobody else, and what other users ask for (memory/working.py, agent/loop.py) leaves it alone.
 */
module Ownership {
  import opened Types
  import opened OrderedDict
  import opened Sessions
  import opened RedisSessions
  import opened RedisAgreement
  import opened WorkingMemories
  import opened Lifecycle
  import opened Endings

  // ---- One load ----

  /** The same sessions, but for this one if it has expired, which any load evicts. */
  ghost predicate OnlyEvicts(d: Table, d': Table, ttl: Option<real>, id: string, now: real) {
    forall k :: Get(d', k) == if k == id && Has(d, id) && Expired(Get(d, id).value, ttl, now) then None else Get(d, k)
  }

  /** The in-memory store: a session that has not expired is loaded for its user and refused to anyone else. */
  lemma MemoryLoadIff(d: Table, ttl: Option<real>, id: string, userId: string, now: real)
    ensures var result, found := LoadStep(d, ttl, id, userId, now).1, Get(d, id);
            var alive := found.Some? && !Expired(found.value, ttl, now);
            && (result.Loaded? <==> alive && found.value.userId == userId)
            && (result.Unauthorized? <==> alive && found.value.userId != userId)
            && (result.Absent? <==> !alive)
            && (result.Loaded? ==> result.state == found.value)
    ensures Distinct(d) ==> OnlyEvicts(d, LoadStep(d, ttl, id, userId, now).0, ttl, id, now)
  {
    if Distinct(d) {
      forall k ensures Get(LoadStep(d, ttl, id, userId, now).0, k) ==
              if k == id && Has(d, id) && Expired(Get(d, id).value, ttl, now) then None else Get(d, k)
      {
        RemoveProperties(d, id, k);
      }
    }
  }

  /** The Redis store likewise, of the sessions whose key is alive. */
  lemma RedisLoadIff(r: Redis, id: string, userId: string, now: real)
    ensures var result := RedisLoad(r, id, userId, now);
            && (result.Loaded? <==> Live(r, id, now) && r.keys[id].document.userId == userId)
            && (result.Unauthorized? <==> Live(r, id, now) && r.keys[id].document.userId != userId)
            && (result.Absent? <==> !Live(r, id, now))
            && (result.Loaded? ==> result.state == FromDocument(r.keys[id].document) && result.state.userId == userId)
  {
  }

  // ---- Over runs of requests ----

  /** The user of the last save of a session. */
  function LastSaver(run: seq<Timed>, id: string): Option<string> {
    if run == [] then None
    else
      match run[|run| - 1].request
      case Save(k, state) => if k == id then Some(state.userId) else LastSaver(run[..|run| - 1], id)
      case _ => LastSaver(run[..|run| - 1], id)
  }

  ghost predicate OwnedBySaver(d: Table, run: seq<Timed>, id: string) {
    Has(d, id) ==> LastSaver(run, id) == Some(Get(d, id).value.userId)
  }

  lemma {:induction false} MemoryOwners(ttl: Option<real>, run: seq<Timed>, id: string)
    ensures Distinct(MemoryRun(ttl, run)) && OwnedBySaver(MemoryRun(ttl, run), run, id)
  {
    if run != [] {
      hide Distinct;
      var front, q := run[..|run| - 1], run[|run| - 1];
      MemoryOwners(ttl, front, id);
      var d := MemoryRun(ttl, front);
      match q.request
      case Save(k, state) =>
        PutProperties(d, k, Touched(state, q.now), id);
        PutDistinct(d, k, Touched(state, q.now));
      case Append(k, turn) =>
        if Has(d, k) {
          var appended := Get(d, k).value.(workingBuffer := Get(d, k).value.workingBuffer + [turn]);
          PutProperties(d, k, Touched(appended, q.now), id);
          PutDistinct(d, k, Touched(appended, q.now));
        }
      case Mark(k) => MarkOthers(d, k, q.now, id);
      case Load(k, userId) => RemoveProperties(d, k, id);
      case _ =>
    }
  }

  lemma {:induction false} RedisOwners(ttl: Option<real>, run: seq<Timed>, id: string)
    ensures var r := RedisRun(ttl, run); id in r.keys ==> LastSaver(run, id) == Some(r.keys[id].document.userId)
  {
    if run != [] {
      hide DueScan, ListScan, ZAdd;
      RedisOwners(ttl, run[..|run| - 1], id);
    }
  }

  /**
   After any run of requests, whatever expired, both stores load a session for the user of its last save only, and
   refuse it to everyone else for as long as they would load it for that user.
   */
  lemma LoadsAreOwners(ttl: Option<real>, run: seq<Timed>, id: string, userId: string, other: string, now: real)
    requires LastSaver(run, id) == Some(userId) && other != userId
    ensures var d, r := MemoryRun(ttl, run), RedisRun(ttl, run);
            && !LoadStep(d, ttl, id, other, now).1.Loaded? && !RedisLoad(r, id, other, now).Loaded?
            && (LoadStep(d, ttl, id, other, now).1.Unauthorized? <==> LoadStep(d, ttl, id, userId, now).1.Loaded?)
            && (RedisLoad(r, id, other, now).Unauthorized? <==> RedisLoad(r, id, userId, now).Loaded?)
            && !LoadStep(d, ttl, id, userId, now).1.Unauthorized? && !RedisLoad(r, id, userId, now).Unauthorized?
  {
    hide MemoryRun, RedisRun, LoadStep, RedisLoad;
    var d, r := MemoryRun(ttl, run), RedisRun(ttl, run);
    MemoryOwners(ttl, run, id);
    RedisOwners(ttl, run, id);
    MemoryLoadIff(d, ttl, id, other, now);
    MemoryLoadIff(d, ttl, id, userId, now);
    RedisLoadIff(r, id, other, now);
    RedisLoadIff(r, id, userId, now);
  }

  /** A session that was never saved is loaded for nobody. */
  lemma UnsavedIsAbsent(ttl: Option<real>, run: seq<Timed>, id: string, userId: string, now: real)
    requires LastSaver(run, id) == None
    ensures LoadStep(MemoryRun(ttl, run), ttl, id, userId, now).1.Absent?
    ensures RedisLoad(RedisRun(ttl, run), id, userId, now).Absent?
  {
    hide MemoryRun, RedisRun;
    MemoryOwners(ttl, run, id);
    RedisOwners(ttl, run, id);
  }

  // ---- What others ask for ----

  predicate Strangers(d: Table, id: string, userId: string) {
    Has(d, id) ==> Get(d, id).value.userId != userId
  }

  /** A peek by anyone else shows nothing, an ending embeds and marks nothing, and a rollover saves nothing. */
  lemma StrangersChangeNothing(l: Life, ttl: Option<real>, remembers: bool, id: string, userId: string, fate: Fate,
      now: real,
      later: real, budget: int, reply: Reply)
    requires Distinct(l.sessions) && Strangers(l.sessions, id, userId)
    ensures var (peeked, text) := PeekStep(l, ttl, id, userId, now);
            text == None && peeked.embedded == l.embedded && OnlyEvicts(l.sessions, peeked.sessions, ttl, id, now)
    ensures var ended := EndStep(l, ttl, remembers, id, userId, fate, now, later);
            ended.embedded == l.embedded && OnlyEvicts(l.sessions, ended.sessions, ttl, id, now)
    ensures OnlyEvicts(l.sessions, RollStep(l.sessions, ttl, budget, id, userId, reply, now, later), ttl, id, now)
  {
    hide LoadStep, Transcript, Rolled;
    MemoryLoadIff(l.sessions, ttl, id, userId, now);
  }

  /** Nor does a disconnect of anyone else begin an ending, in any state of the service. */
  lemma StrangersEndNothing(s: Service, c: Config, id: string, userId: string, now: real)
    requires Distinct(s.life.sessions) && Strangers(s.life.sessions, id, userId)
    ensures var s' := Happen(s, c, Tick(EndBegan(id, userId), now));
            && s'.endings == s.endings && s'.sweep == s.sweep && s'.life.embedded == s.life.embedded
            && OnlyEvicts(s.life.sessions, s'.life.sessions, Some(c.ttl), id, now)
  {
    hide LoadStep, Transcript;
    MemoryLoadIff(s.life.sessions, Some(c.ttl), id, userId, now);
  }
}
