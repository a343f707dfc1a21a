/**
 Overlapping writers of the Redis session store (stores/redis_session.py): an append, or a mark, reads the document,
 awaits, and writes the whole document back.
 */
module RedisOverlaps {
  import opened Types
  import opened Sessions
  import opened RedisSessions

  // ---- The two halves of an append ----

  /** What an append writes back: the document it read, with its turn at the end. */
  function WriteBack(r: Redis, ttl: Option<real>, id: string, read: Document, turn: Turn, now: real): Redis {
    var state := FromDocument(read);
    Write(r, ttl, id, Touched(state.(workingBuffer := state.workingBuffer + [turn]), now), now)
  }

  /** An append whose write follows its read directly is the append of the store. */
  lemma AppendInOneStep(r: Redis, ttl: Option<real>, id: string, turn: Turn, now: real)
    requires Fetch(r, id, now).Some?
    ensures RedisAppend(r, ttl, id, turn, now) == (WriteBack(r, ttl, id, Fetch(r, id, now).value, turn, now), true)
  {
  }

  // ---- Runs of overlapping appends ----

  /** An append under way: the document it read, and how many turns had been written to the session by then. */
  datatype Reading = Reading(id: string, turn: Turn, document: Document, before: nat)

  /** The store, the appends under way by their worker, and each session's turns in the order of their writes. */
  datatype Shared = Shared(redis: Redis, held: map<nat, Reading>, written: map<string, seq<Turn>>)

  /** A worker reads for an append, finding nothing if the session has expired, or writes what it holds. */
  datatype Half =
    | Reads(worker: nat, id: string, turn: Turn, now: real)
    | Writes(worker: nat, now: real)

  function WrittenTo(s: Shared, id: string): seq<Turn> {
    if id in s.written then s.written[id] else []
  }

  function HalfStep(s: Shared, ttl: Option<real>, h: Half): Shared {
    match h
    case Reads(w, id, turn, now) =>
      (match Fetch(s.redis, id, now)
       case None => s
       case Some(d) => s.(held := s.held[w := Reading(id, turn, d, |WrittenTo(s, id)|)]))
    case Writes(w, now) =>
      if w !in s.held then s
      else
        var mine := s.held[w];
        Shared(WriteBack(s.redis, ttl, mine.id, mine.document, mine.turn, now), s.held - {w},
               s.written[mine.id := WrittenTo(s, mine.id) + [mine.turn]])
  }

  function AfterHalves(s: Shared, ttl: Option<real>, run: seq<Half>): Shared {
    if run == [] then s else HalfStep(AfterHalves(s, ttl, run[..|run| - 1]), ttl, run[|run| - 1])
  }

  /** A write of the session by a worker that did not see the last turn written to it. */
  predicate Stale(s: Shared, id: string, h: Half) {
    h.Writes? && h.worker in s.held && s.held[h.worker].id == id && s.held[h.worker].before < |WrittenTo(s, id)|
  }

  /** No write of the session came between another append's read and its write. */
  ghost predicate NoneStale(s: Shared, ttl: Option<real>, id: string, run: seq<Half>) {
    run == [] || (NoneStale(s, ttl, id, run[..|run| - 1])
        && !Stale(AfterHalves(s, ttl, run[..|run| - 1]), id, run[|run| - 1]))
  }

  function BufferAt(r: Redis, id: string): seq<Turn> {
    if id in r.keys then FromDocument(r.keys[id].document).workingBuffer else []
  }

  function BufferIn(d: Document): seq<Turn> {
    FromDocument(d).workingBuffer
  }

  ghost predicate ReadingFits(s: Shared, id: string, start: seq<Turn>, w: nat) {
    w in s.held && s.held[w].id == id ==>
      && s.held[w].before <= |WrittenTo(s, id)|
      && |BufferIn(s.held[w].document)| <= |start| + s.held[w].before
      && (s.held[w].before == |WrittenTo(s, id)| ==> BufferIn(s.held[w].document) == BufferAt(s.redis, id))
  }

  ghost predicate ReadingsFit(s: Shared, id: string, start: seq<Turn>) {
    forall w :: ReadingFits(s, id, start, w)
  }

  /** A session's buffer is what it was, then the turns written; as soon as one write was stale, it is shorter. */
  ghost predicate Kept(s: Shared, id: string, start: seq<Turn>, conserved: bool) {
    && |BufferAt(s.redis, id)| <= |start| + |WrittenTo(s, id)|
    && (conserved ==> BufferAt(s.redis, id) == start + WrittenTo(s, id))
    && (!conserved ==> |BufferAt(s.redis, id)| < |start| + |WrittenTo(s, id)|)
  }

  lemma WrittenBuffer(r: Redis, ttl: Option<real>, id: string, read: Document, turn: Turn, now: real, other: string)
    ensures BufferAt(WriteBack(r, ttl, id, read, turn, now), other) ==
              if other == id then BufferIn(read) + [turn] else BufferAt(r, other)
  {
    var state := FromDocument(read);
    RoundTrip(Touched(state.(workingBuffer := state.workingBuffer + [turn]), now));
  }

  lemma ReadKeeps(s: Shared, ttl: Option<real>, id: string, start: seq<Turn>, conserved: bool, h: Half)
    requires h.Reads? && ReadingsFit(s, id, start) && Kept(s, id, start, conserved)
    ensures ReadingsFit(HalfStep(s, ttl, h), id, start) && Kept(HalfStep(s, ttl, h), id, start, conserved)
  {
    hide FromDocument;
    var next := HalfStep(s, ttl, h);
    forall w ensures ReadingFits(next, id, start, w) {
      assert ReadingFits(s, id, start, w);
    }
  }

  lemma WriteKeeps(s: Shared, ttl: Option<real>, id: string, start: seq<Turn>, conserved: bool, h: Half)
    requires h.Writes? && ReadingsFit(s, id, start) && Kept(s, id, start, conserved)
    ensures ReadingsFit(HalfStep(s, ttl, h), id, start)
    ensures Kept(HalfStep(s, ttl, h), id, start, conserved && !Stale(s, id, h))
  {
    hide FromDocument, WriteBack;
    if h.worker in s.held {
      var mine, next := s.held[h.worker], HalfStep(s, ttl, h);
      assert ReadingFits(s, id, start, h.worker);
      WrittenBuffer(s.redis, ttl, mine.id, mine.document, mine.turn, h.now, id);
      forall w ensures ReadingFits(next, id, start, w) {
        assert ReadingFits(s, id, start, w);
      }
    }
  }

  lemma {:induction false} RunKeeps(s: Shared, ttl: Option<real>, id: string, run: seq<Half>)
    requires s.held == map[] && s.written == map[]
    ensures ReadingsFit(AfterHalves(s, ttl, run), id, BufferAt(s.redis, id))
    ensures Kept(AfterHalves(s, ttl, run), id, BufferAt(s.redis, id), NoneStale(s, ttl, id, run))
  {
    hide HalfStep, Kept, BufferAt, Stale;
    var start := BufferAt(s.redis, id);
    if run == [] {
      NothingYet(s, id);
    } else {
      RunKeeps(s, ttl, id, run[..|run| - 1]);
      var before, h := AfterHalves(s, ttl, run[..|run| - 1]), run[|run| - 1];
      var conserved := NoneStale(s, ttl, id, run[..|run| - 1]);
      if h.Reads? {
        NotStale(before, id, h);
        ReadKeeps(before, ttl, id, start, conserved, h);
      } else {
        WriteKeeps(before, ttl, id, start, conserved, h);
      }
    }
  }

  lemma NothingYet(s: Shared, id: string)
    requires s.held == map[] && s.written == map[]
    ensures ReadingsFit(s, id, BufferAt(s.redis, id)) && Kept(s, id, BufferAt(s.redis, id), true)
  {
  }

  lemma NotStale(s: Shared, id: string, h: Half)
    requires h.Reads?
    ensures !Stale(s, id, h)
  {
  }

  /**
   However any number of appends to any number of sessions overlap, whatever expires: a session holds its earlier turns
   and then every turn written to it, in order, if and only if no write came between another append's read and its
   write.
   */
  lemma AppendsConservedIff(r: Redis, ttl: Option<real>, id: string, run: seq<Half>)
    ensures var s := Shared(r, map[], map[]);
            var end := AfterHalves(s, ttl, run);
            BufferAt(end.redis, id) == BufferAt(r, id) + WrittenTo(end, id) <==> NoneStale(s, ttl, id, run)
  {
    hide AfterHalves, NoneStale, ReadingsFit, BufferAt, WrittenTo;
    RunKeeps(Shared(r, map[], map[]), ttl, id, run);
  }

  // ---- A mark that overlaps appends ----

  /** What a mark writes back. */
  function MarkBack(r: Redis, ttl: Option<real>, id: string, read: Document, now: real): Redis {
    var state := FromDocument(read).(finalizedAt := Some(now));
    r.(keys := r.keys[id := Stored(ToDocument(state), Expiry(ttl, now))], pending := ZRem(r.pending, id))
  }

  /** Appends that are not disturbed, one after the other, each with its time; they end at the first that fails. */
  function AppendEach(r: Redis, ttl: Option<real>, id: string, turns: seq<(Turn, real)>): (Redis, bool)
    decreases |turns|
  {
    if turns == [] then (r, true)
    else
      var (next, ok) := RedisAppend(r, ttl, id, turns[0].0, turns[0].1);
      if ok then AppendEach(next, ttl, id, turns[1..]) else (next, false)
  }

  function TurnsIn(turns: seq<(Turn, real)>): seq<Turn> {
    if turns == [] then [] else [turns[0].0] + TurnsIn(turns[1..])
  }

  lemma {:induction false} AppendEachAdds(r: Redis, ttl: Option<real>, id: string, turns: seq<(Turn, real)>)
    requires AppendEach(r, ttl, id, turns).1
    ensures BufferAt(AppendEach(r, ttl, id, turns).0, id) == BufferAt(r, id) + TurnsIn(turns)
    decreases |turns|
  {
    hide FromDocument, Write, BufferAt;
    if turns != [] {
      var (turn, now) := turns[0];
      var next := RedisAppend(r, ttl, id, turn, now).0;
      FetchedBuffer(r, id, now);
      AppendInOneStep(r, ttl, id, turn, now);
      WrittenBuffer(r, ttl, id, Fetch(r, id, now).value, turn, now, id);
      AppendEachAdds(next, ttl, id, turns[1..]);
    }
  }

  lemma FetchedBuffer(r: Redis, id: string, now: real)
    ensures Fetch(r, id, now).Some? ==> BufferIn(Fetch(r, id, now).value) == BufferAt(r, id)
  {
  }

  /**
   A mark that read before some appends and wrote after them puts back the buffer it read, finalized and out of the
   pending index: the turns between are lost, and nothing is lost if and only if there were none. Read and written at
   once, it is the mark of the store.
   */
  lemma OverlappedMarkKeepsIff(r: Redis, ttl: Option<real>, id: string, turns: seq<(Turn, real)>, began: real,
      now: real)
    requires Fetch(r, id, began).Some? && AppendEach(r, ttl, id, turns).1
    ensures var between := AppendEach(r, ttl, id, turns).0;
            var after := MarkBack(between, ttl, id, Fetch(r, id, began).value, now);
            && BufferAt(after, id) == BufferAt(r, id)
            && (BufferAt(after, id) == BufferAt(between, id) <==> turns == [])
            && id in after.keys && after.keys[id].document.finalizedAt == Some(now)
                && after.pending == ZRem(between.pending, id)
            && (turns == [] && began == now ==> after == RedisMark(r, ttl, id, now))
  {
    AppendEachAdds(r, ttl, id, turns);
    var read := Fetch(r, id, began).value;
    FetchedBuffer(r, id, began);
    RoundTrip(FromDocument(read).(finalizedAt := Some(now)));
  }
}
