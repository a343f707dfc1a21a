/**
 When a session is evicted before its transcript was embedded (agent/loop.py, stores/memory_session.py,
 config/schema.py): never while endings are undisturbed and clean sweeps come often enough.
 */
module Evictions {
  import opened Types
  import opened Sequences
  import opened OrderedDict
  import opened Sessions
  import opened Lifecycle
  import opened Endings

  // ---- What clean sweeps guarantee ----

  /** The sweep under way still has to end this conversation, or is ending it. */
  ghost predicate Pending(s: Service, id: string, userId: string)
    requires s.sweep.Some?
  {
    var w := s.sweep.value;
    || (id, userId) in w.queue
    || (w.current.Some? && InFlight(s, w.current.value) && s.endings[w.current.value].id == id)
  }

  ghost predicate SweepTimes(s: Service, now: real) {
    && s.swept <= now
    && (s.sweep.Some? ==>
          s.sweep.value.started <= now && (s.sweep.value.current.Some? ==> s.sweep.value.current.value < |s.endings|))
  }

  /** How long after its last activity a sweep may still pass a session by; a negative idle time passes none by. */
  function Lag(c: Config): real {
    if c.idle > 0.0 then c.idle else 0.0
  }

  /** An unmarked session was not due when the last clean sweep began; the present one, if clean, has not missed it. */
  ghost predicate Watched(s: Service, c: Config, id: string, state: SessionState, now: real) {
    && state.updatedAt <= now
    && (state.finalizedAt == None ==>
          && s.swept - state.updatedAt <= Lag(c)
          && (s.sweep.Some? && s.sweep.value.clean && s.sweep.value.started - state.updatedAt > Lag(c) ==>
                Pending(s, id, state.userId)))
  }

  ghost predicate KeptFor(s: Service, c: Config, id: string, now: real) {
    && Distinct(s.life.sessions)
    && SweepTimes(s, now)
    && (Has(s.life.sessions, id) ==> Watched(s, c, id, Get(s.life.sessions, id).value, now))
  }

  lemma TouchKeeps(s: Service, c: Config, k: string, state: SessionState, id: string, before: real, now: real)
    requires KeptFor(s, c, id, before) && before <= now && state.updatedAt == now
    ensures KeptFor(Tables(s, Put(s.life.sessions, k, state)), c, id, now)
  {
    hide Distinct;
    PutProperties(s.life.sessions, k, state, id);
    PutDistinct(s.life.sessions, k, state);
  }

  lemma EvictKeeps(s: Service, c: Config, k: string, userId: string, id: string, before: real, now: real)
    requires KeptFor(s, c, id, before) && before <= now
    ensures KeptFor(Tables(s, LoadStep(s.life.sessions, Some(c.ttl), k, userId, now).0), c, id, now)
  {
    hide Distinct;
    RemoveProperties(s.life.sessions, k, id);
  }

  lemma BeginKeeps(s: Service, c: Config, k: string, userId: string, id: string, before: real, now: real)
    requires KeptFor(s, c, id, before) && before <= now
    ensures KeptFor(Begin(s, c, k, userId, now).0, c, id, now)
  {
    hide Distinct, Transcript;
    EvictKeeps(s, c, k, userId, id, before, now);
  }

  lemma SweepBeganKeeps(s: Service, c: Config, id: string, before: real, now: real)
    requires KeptFor(s, c, id, before) && before <= now
    ensures KeptFor(Happen(s, c, Tick(SweepBegan, now)), c, id, now)
  {
    if Has(s.life.sessions, id) {
      var state := Get(s.life.sessions, id).value;
      DueExactly(s.life.sessions, c.idle, now, id, state.userId);
    }
  }

  lemma SweepNextKeeps(s: Service, c: Config, id: string, before: real, now: real)
    requires KeptFor(s, c, id, before) && before <= now
    ensures KeptFor(Happen(s, c, Tick(SweepNext, now)), c, id, now)
  {
    hide Distinct, Transcript;
    if !(s.sweep.None? || Busy(s) || s.sweep.value.queue == []) {
      var w := s.sweep.value;
      var (k, userId) := w.queue[0];
      BeginKeeps(s, c, k, userId, id, before, now);
      RemoveProperties(s.life.sessions, k, id);
      assert w.queue == [(k, userId)] + w.queue[1..];
    }
  }

  lemma MarkedKeeps(s: Service, c: Config, n: nat, id: string, before: real, now: real)
    requires KeptFor(s, c, id, before) && before <= now
    ensures KeptFor(Happen(s, c, Tick(Marked(n), now)), c, id, now)
  {
    hide Distinct, MarkStep;
    if n < |s.endings| && s.endings[n].stage == Stored {
      MarkOthers(s.life.sessions, s.endings[n].id, now, id);
    }
  }

  /** Every event keeps the watch on a conversation. */
  lemma KeptStep(s: Service, c: Config, t: Tick, id: string, before: real)
    requires KeptFor(s, c, id, before) && before <= t.now
    ensures KeptFor(Happen(s, c, t), c, id, t.now)
  {
    match t.event
    case Saved(k, state) => TouchKeeps(s, c, k, Touched(state, t.now), id, before, t.now);
    case Spoke(k, turn) =>
      var found := Get(s.life.sessions, k);
      if found.Some? {
        var spoken := found.value.(workingBuffer := found.value.workingBuffer + [turn]);
        TouchKeeps(s, c, k, Touched(spoken, t.now), id, before, t.now);
      }
    case Opened(k, userId) => EvictKeeps(s, c, k, userId, id, before, t.now);
    case EndBegan(k, userId) => BeginKeeps(s, c, k, userId, id, before, t.now);
    case SweepBegan => SweepBeganKeeps(s, c, id, before, t.now);
    case SweepNext => SweepNextKeeps(s, c, id, before, t.now);
    case SweepEnded =>
    case Wrote(n) =>
    case Marked(n) => MarkedKeeps(s, c, n, id, before, t.now);
    case Raised(n) =>
  }

  /** The event at position i comes no more than `gap` after the beginning of the last clean sweep. */
  ghost predicate InTime(c: Config, start: real, run: seq<Tick>, gap: real, i: nat)
    requires i < |run|
  {
    start <= run[i].now && run[i].now - After(c, start, run[..i]).swept <= gap
  }

  ghost predicate Ordered(run: seq<Tick>) {
    forall i, j :: 0 <= i < j < |run| ==> run[i].now <= run[j].now
  }

  /** The clock is monotone, and clean sweeps come often enough for every event. */
  ghost predicate SweptEvery(c: Config, start: real, run: seq<Tick>, gap: real) {
    Ordered(run) && forall i :: 0 <= i < |run| ==> InTime(c, start, run, gap, i)
  }

  lemma {:induction false} KeptAfter(c: Config, start: real, run: seq<Tick>, gap: real, id: string, n: nat, now: real)
    requires n <= |run| && SweptEvery(c, start, run, gap)
    requires if n > 0 then run[n - 1].now <= now else start <= now
    ensures KeptFor(After(c, start, run[..n]), c, id, now)
  {
    if n > 0 {
      hide KeptFor;
      var t := run[n - 1];
      assert InTime(c, start, run, gap, n - 1);
      assert n > 1 ==> run[n - 2].now <= t.now;
      KeptAfter(c, start, run, gap, id, n - 1, t.now);
      PrefixOfPrefix(run, n - 1, n);
      KeptStep(After(c, start, run[..n - 1]), c, t, id, t.now);
      KeptLater(After(c, start, run[..n]), c, id, t.now, now);
    }
  }

  lemma KeptLater(s: Service, c: Config, id: string, now: real, later: real)
    requires KeptFor(s, c, id, now) && now <= later
    ensures KeptFor(s, c, id, later)
  {
  }

  /** The event at position n of a run does not evict a session of this conversation that is not embedded. */
  ghost predicate NoLossAt(c: Config, start: real, run: seq<Tick>, n: nat, id: string)
    requires n < |run|
  {
    var s, s' := After(c, start, run[..n]), After(c, start, run[..n + 1]);
    Has(s.life.sessions, id) && !Has(s'.life.sessions, id) ==> Embedded(s'.life, id, Get(s.life.sessions, id).value)
  }

  /** Only a load or a peek takes a session away, and only one that has expired; it embeds nothing. */
  lemma OnlyExpiredGo(s: Service, c: Config, t: Tick, id: string)
    requires Distinct(s.life.sessions) && Has(s.life.sessions, id) && !Has(Happen(s, c, t).life.sessions, id)
    ensures Expired(Get(s.life.sessions, id).value, Some(c.ttl), t.now)
    ensures Happen(s, c, t).life.embedded == s.life.embedded
  {
    hide Distinct, Transcript, MarkStep;
    match t.event
    case Saved(k, state) => PutProperties(s.life.sessions, k, Touched(state, t.now), id);
    case Spoke(k, turn) =>
      var found := Get(s.life.sessions, k);
      if found.Some? {
        var spoken := found.value.(workingBuffer := found.value.workingBuffer + [turn]);
        PutProperties(s.life.sessions, k, Touched(spoken, t.now), id);
      }
    case Opened(k, userId) => RemoveProperties(s.life.sessions, k, id);
    case EndBegan(k, userId) => RemoveProperties(s.life.sessions, k, id);
    case SweepNext =>
      if s.sweep.Some? && s.sweep.value.queue != [] {
        RemoveProperties(s.life.sessions, s.sweep.value.queue[0].0, id);
      }
    case Marked(n) =>
      if n < |s.endings| {
        MarkOthers(s.life.sessions, s.endings[n].id, t.now, id);
      }
    case SweepBegan =>
    case SweepEnded =>
    case Wrote(n) =>
    case Raised(n) =>
  }

  lemma LossNeedsGap(s: Service, c: Config, t: Tick, gap: real, id: string, text: string)
    requires KeptFor(s, c, id, t.now) && Consistent(s, id, text) && t.now - s.swept <= gap && Lag(c) + gap <= c.ttl
    requires Has(s.life.sessions, id) && !Has(Happen(s, c, t).life.sessions, id)
    ensures Embedded(Happen(s, c, t).life, id, Get(s.life.sessions, id).value)
  {
    hide Happen, Transcript;
    OnlyExpiredGo(s, c, t, id);
  }

  /**
   In every timed run in which no event comes more than `gap` after the last clean sweep began, idle + gap <= ttl, and
   the conversation is not disturbed while it is being ended: its session is not evicted before its latest transcript
   was embedded. Other endings may raise, and endings and sweeps may take any time.
   */
  lemma NothingLost(c: Config, start: real, run: seq<Tick>, gap: real, id: string, n: nat)
    requires c.remembers && SweptEvery(c, start, run, gap) && Lag(c) + gap <= c.ttl
    requires Undisturbed(c, start, run, id) && n < |run|
    ensures NoLossAt(c, start, run, n, id)
  {
    hide KeptFor, Consistent, Interrupts, Embedded, Has;
    var s := After(c, start, run[..n]);
    assert InTime(c, start, run, gap, n);
    assert n > 0 ==> run[n - 1].now <= run[n].now;
    KeptAfter(c, start, run, gap, id, n, run[n].now);
    var text := ConsistentAfter(c, start, run, id, n);
    PrefixOfPrefix(run, n, n + 1);
    assert After(c, start, run[..n + 1]) == Happen(s, c, run[n]);
    if Has(s.life.sessions, id) && !Has(Happen(s, c, run[n]).life.sessions, id) {
      LossNeedsGap(s, c, run[n], gap, id, text);
    }
  }
}
