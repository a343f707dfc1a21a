/**
 Ending conversations over timed runs of the in-memory store (agent/loop.py, memory/working.py), with everything that
 can come in between: an ending reads the transcript, awaits its embedding, and only then sets the mark. Disconnects
 begin endings of their own, the sweeper ends one conversation of its queue after the other, and any of them may raise.
 */
module Endings {
  import opened Types
  import opened Sequences
  import opened OrderedDict
  import opened Sessions
  import opened Lifecycle

  /** An ending that has read its transcript; it is closed once it has set the mark or raised. */
  datatype Stage = Peeked | Stored | Closed

  datatype Ending = Ending(id: string, text: string, stage: Stage)

  /**
   The sweep that is under way: what is left of its queue, the ending it awaits, and whether any of its endings raised.
   */
  datatype Sweep = Sweep(started: real, queue: seq<(string, string)>, current: Option<nat>, clean: bool)

  /** `swept` is when the last sweep began that went through its queue without an ending that raised. */
  datatype Service = Service(life: Life, endings: seq<Ending>, sweep: Option<Sweep>, swept: real)

  datatype Config = Config(idle: real, ttl: real, remembers: bool)

  datatype Event =
    | Saved(id: string, state: SessionState)
    | Spoke(id: string, turn: Turn)
    | Opened(id: string, userId: string)
    | EndBegan(id: string, userId: string)
    | SweepBegan
    | SweepNext
    | SweepEnded
    | Wrote(n: nat)
    | Marked(n: nat)
    | Raised(n: nat)

  datatype Tick = Tick(event: Event, now: real)

  predicate InFlight(s: Service, n: nat) {
    n < |s.endings| && s.endings[n].stage != Closed
  }

  /** The sweeper awaits its current ending. */
  predicate Busy(s: Service) {
    s.sweep.Some? && s.sweep.value.current.Some? && InFlight(s, s.sweep.value.current.value)
  }

  function Begin(s: Service, c: Config, id: string, userId: string, now: real): (Service, Option<nat>) {
    var (l, text) := PeekStep(s.life, Some(c.ttl), id, userId, now);
    match text
    case None => (s.(life := l), None)
    case Some(t) => (s.(life := l, endings := s.endings + [Ending(id, t, Peeked)]), Some(|s.endings|))
  }

  function SetStage(s: Service, n: nat, stage: Stage): Service
    requires n < |s.endings|
  {
    s.(endings := s.endings[n := s.endings[n].(stage := stage)])
  }

  function Tables(s: Service, d: Table): Service {
    s.(life := s.life.(sessions := d))
  }

  /** One event; one that cannot come now, such as the mark of an ending that was not embedded, changes nothing. */
  function Happen(s: Service, c: Config, t: Tick): Service {
    match t.event
    case Saved(id, state) => Tables(s, SaveStep(s.life.sessions, id, state, t.now))
    case Spoke(id, turn) => Tables(s, AppendStep(s.life.sessions, id, turn, t.now).0)
    case Opened(id, userId) => Tables(s, LoadStep(s.life.sessions, Some(c.ttl), id, userId, t.now).0)
    case EndBegan(id, userId) => Begin(s, c, id, userId, t.now).0
    case SweepBegan =>
      if s.sweep.Some? then s else s.(sweep := Some(Sweep(t.now, Due(s.life.sessions, c.idle, t.now), None, true)))
    case SweepNext =>
      if s.sweep.None? || Busy(s) || s.sweep.value.queue == [] then s
      else
        var w := s.sweep.value;
        var (s1, n) := Begin(s, c, w.queue[0].0, w.queue[0].1, t.now);
        s1.(sweep := Some(w.(queue := w.queue[1..], current := n)))
    case SweepEnded =>
      if s.sweep.None? || Busy(s) || s.sweep.value.queue != [] then s
      else s.(sweep := None, swept := if s.sweep.value.clean then s.sweep.value.started else s.swept)
    case Wrote(n) =>
      if n < |s.endings| && s.endings[n].stage == Peeked
      then SetStage(s.(life := EmbedStep(s.life, c.remembers, s.endings[n].id, s.endings[n].text)), n, Stored)
      else s
    case Marked(n) =>
      if n < |s.endings| && s.endings[n].stage == Stored
      then SetStage(s.(life := FinalizeStep(s.life, s.endings[n].id, t.now)), n, Closed)
      else s
    case Raised(n) =>
      if !InFlight(s, n) then s
      else
        var failed := s.sweep.Some? && s.sweep.value.current == Some(n);
        SetStage(if failed then s.(sweep := Some(s.sweep.value.(clean := false))) else s, n, Closed)
  }

  function RunFrom(s: Service, c: Config, run: seq<Tick>): Service {
    if run == [] then s else Happen(RunFrom(s, c, run[..|run| - 1]), c, run[|run| - 1])
  }

  /** The service, and with it the sweeper, starts at `start`. */
  function After(c: Config, start: real, run: seq<Tick>): Service {
    RunFrom(Service(Life([], map[]), [], None, start), c, run)
  }

  lemma RunMore(s: Service, c: Config, run: seq<Tick>, t: Tick)
    ensures RunFrom(s, c, run + [t]) == Happen(RunFrom(s, c, run), c, t)
  {
    assert (run + [t])[..|run|] == run;
  }

  lemma {:induction false} RunAppend(s: Service, c: Config, a: seq<Tick>, b: seq<Tick>)
    ensures RunFrom(s, c, a + b) == RunFrom(RunFrom(s, c, a), c, b)
  {
    if b == [] {
      assert a + b == a;
    } else {
      RunAppend(s, c, a, b[..|b| - 1]);
      assert (a + b)[..|a + b| - 1] == a + b[..|b| - 1];
    }
  }

  lemma ThreeSteps(s: Service, c: Config, t1: Tick, t2: Tick, t3: Tick)
    ensures RunFrom(s, c, [t1, t2, t3]) == Happen(Happen(Happen(s, c, t1), c, t2), c, t3)
  {
    hide Happen;
    assert [t1, t2, t3][..2] == [t1, t2] && [t1, t2][..1] == [t1] && [t1][..0] == [];
    assert RunFrom(s, c, [t1]) == Happen(s, c, t1);
    assert RunFrom(s, c, [t1, t2]) == Happen(Happen(s, c, t1), c, t2);
  }

  /** An ending peeked, written and marked in a row is the uninterrupted one. */
  lemma UninterruptedEnding(s: Service, c: Config, id: string, userId: string, peeked: real, wrote: real, marked: real)
    requires PeekStep(s.life, Some(c.ttl), id, userId, peeked).1.Some?
    ensures RunFrom(s, c,
              [Tick(EndBegan(id, userId), peeked), Tick(Wrote(|s.endings|), wrote),
                  Tick(Marked(|s.endings|), marked)]).life
            == EndStep(s.life, Some(c.ttl), c.remembers, id, userId, Works, peeked, marked)
  {
    hide PeekStep, EmbedStep, FinalizeStep, RunFrom;
    var n := |s.endings|;
    ThreeSteps(s, c, Tick(EndBegan(id, userId), peeked), Tick(Wrote(n), wrote), Tick(Marked(n), marked));
  }

  // ---- What the mark means ----

  ghost predicate BeingEnded(s: Service, id: string) {
    exists n :: 0 <= n < |s.endings| && s.endings[n].id == id && s.endings[n].stage != Closed
  }

  /** Activity of a conversation while it is being ended. */
  ghost predicate Interrupts(s: Service, e: Event, id: string) {
    && (e.Saved? || e.Spoke?) && e.id == id && (e.Spoke? ==> Has(s.life.sessions, id))
    && BeingEnded(s, id)
  }

  /** In this run nothing is saved or appended to the conversation between the peek of an ending and its mark. */
  ghost predicate Undisturbed(c: Config, start: real, run: seq<Tick>, id: string) {
    forall i :: 0 <= i < |run| ==> !Interrupts(After(c, start, run[..i]), run[i].event, id)
  }

  /** All endings of the conversation that are in flight carry this text, and those that wrote it left it there. */
  ghost predicate Agree(s: Service, id: string, text: string) {
    forall n :: 0 <= n < |s.endings| && s.endings[n].id == id && s.endings[n].stage != Closed ==>
      s.endings[n].text == text && (s.endings[n].stage == Stored ==> Recorded(s.life, id, text))
  }

  ghost predicate Consistent(s: Service, id: string, text: string) {
    && Distinct(s.life.sessions)
    && Agree(s, id, text)
    && (Has(s.life.sessions, id) ==>
          && Transcript(Get(s.life.sessions, id).value) == text
          && (Get(s.life.sessions, id).value.finalizedAt.Some? ==> Recorded(s.life, id, text)))
  }

  lemma TouchConsistent(s: Service, k: string, state: SessionState, id: string, text: string) returns (text': string)
    requires Consistent(s, id, text) && state.finalizedAt == None && (k == id ==> !BeingEnded(s, id))
    ensures Consistent(Tables(s, Put(s.life.sessions, k, state)), id, text')
  {
    hide Transcript, Distinct;
    PutProperties(s.life.sessions, k, state, id);
    PutDistinct(s.life.sessions, k, state);
    text' := if k == id then Transcript(state) else text;
  }

  lemma EvictConsistent(s: Service, c: Config, k: string, userId: string, now: real, id: string, text: string)
    requires Consistent(s, id, text)
    ensures Consistent(Tables(s, LoadStep(s.life.sessions, Some(c.ttl), k, userId, now).0), id, text)
  {
    hide Transcript, Distinct;
    RemoveProperties(s.life.sessions, k, id);
  }

  lemma BeginConsistent(s: Service, c: Config, k: string, userId: string, now: real, id: string, text: string)
    requires Consistent(s, id, text)
    ensures Consistent(Begin(s, c, k, userId, now).0, id, text)
  {
    hide Transcript, Distinct;
    EvictConsistent(s, c, k, userId, now, id, text);
    var s1 := Tables(s, LoadStep(s.life.sessions, Some(c.ttl), k, userId, now).0);
    var s' := Begin(s, c, k, userId, now).0;
    forall n | 0 <= n < |s'.endings| && s'.endings[n].id == id && s'.endings[n].stage != Closed
      ensures s'.endings[n].text == text && (s'.endings[n].stage == Stored ==> Recorded(s'.life, id, text))
    {
      if n < |s.endings| {
        assert s'.endings[n] == s.endings[n];
      }
    }
  }

  lemma WroteConsistent(s: Service, c: Config, n: nat, now: real, id: string, text: string)
    requires c.remembers && Consistent(s, id, text)
    ensures Consistent(Happen(s, c, Tick(Wrote(n), now)), id, text)
  {
    hide Transcript, Distinct;
  }

  lemma MarkedConsistent(s: Service, c: Config, n: nat, now: real, id: string, text: string)
    requires Consistent(s, id, text)
    ensures Consistent(Happen(s, c, Tick(Marked(n), now)), id, text)
  {
    hide Transcript, Distinct, MarkStep;
    if n < |s.endings| && s.endings[n].stage == Stored {
      MarkOthers(s.life.sessions, s.endings[n].id, now, id);
      if Has(s.life.sessions, id) {
        MarkedIsSame(Get(s.life.sessions, id).value, Some(now));
      }
    }
  }

  /** Every event keeps the agreement of a conversation's text, unless it is activity of it while it is being ended. */
  lemma ConsistentStep(s: Service, c: Config, t: Tick, id: string, text: string) returns (text': string)
    requires c.remembers && Consistent(s, id, text) && !Interrupts(s, t.event, id)
    ensures Consistent(Happen(s, c, t), id, text')
  {
    hide Consistent, BeingEnded, Begin;
    text' := text;
    match t.event
    case Saved(k, state) => text' := TouchConsistent(s, k, Touched(state, t.now), id, text);
    case Spoke(k, turn) =>
      var found := Get(s.life.sessions, k);
      if found.Some? {
        var spoken := found.value.(workingBuffer := found.value.workingBuffer + [turn]);
        text' := TouchConsistent(s, k, Touched(spoken, t.now), id, text);
      }
    case Opened(k, userId) => EvictConsistent(s, c, k, userId, t.now, id, text);
    case EndBegan(k, userId) => BeginConsistent(s, c, k, userId, t.now, id, text);
    case SweepBegan => SweepKeeps(s, Happen(s, c, t), id, text);
    case SweepEnded => SweepKeeps(s, Happen(s, c, t), id, text);
    case SweepNext =>
      if !(s.sweep.None? || Busy(s) || s.sweep.value.queue == []) {
        var (k, userId) := s.sweep.value.queue[0];
        BeginConsistent(s, c, k, userId, t.now, id, text);
        SweepKeeps(Begin(s, c, k, userId, t.now).0, Happen(s, c, t), id, text);
      }
    case Wrote(n) => WroteConsistent(s, c, n, t.now, id, text);
    case Marked(n) => MarkedConsistent(s, c, n, t.now, id, text);
    case Raised(n) => RaisedConsistent(s, c, n, t.now, id, text);
  }

  lemma SweepKeeps(s: Service, s': Service, id: string, text: string)
    requires Consistent(s, id, text) && s'.life == s.life && s'.endings == s.endings
    ensures Consistent(s', id, text)
  {
  }

  lemma RaisedConsistent(s: Service, c: Config, n: nat, now: real, id: string, text: string)
    requires Consistent(s, id, text)
    ensures Consistent(Happen(s, c, Tick(Raised(n), now)), id, text)
  {
    hide Transcript, Distinct;
  }

  lemma {:induction false} ConsistentAfter(c: Config, start: real, run: seq<Tick>, id: string, n: nat)
      returns (text: string)
    requires c.remembers && Undisturbed(c, start, run, id) && n <= |run|
    ensures Consistent(After(c, start, run[..n]), id, text)
  {
    if n == 0 {
      text := "";
    } else {
      hide Consistent, Interrupts;
      text := ConsistentAfter(c, start, run, id, n - 1);
      PrefixOfPrefix(run, n - 1, n);
      text := ConsistentStep(After(c, start, run[..n - 1]), c, run[n - 1], id, text);
    }
  }

  /**
   In every run in which nothing is saved or appended to a conversation while it is being ended, whatever else happens,
   however late the sweeps are and whatever raises: a set mark means that the present transcript is embedded.
   */
  lemma MarkMeansEmbedded(c: Config, start: real, run: seq<Tick>, id: string)
    requires c.remembers && Undisturbed(c, start, run, id)
    requires var l := After(c, start, run).life; Has(l.sessions, id) && Get(l.sessions, id).value.finalizedAt.Some?
    ensures var l := After(c, start, run).life; Embedded(l, id, Get(l.sessions, id).value)
  {
    var text := ConsistentAfter(c, start, run, id, |run|);
    assert run[..|run|] == run;
  }

  // ---- What is embedded, whatever overlaps ----

  /** The text that this event records for the conversation. */
  function Writes(s: Service, e: Event, id: string): Option<string> {
    if e.Wrote? && e.n < |s.endings| && s.endings[e.n].stage == Peeked && s.endings[e.n].id == id
        && s.endings[e.n].text != ""
    then Some(s.endings[e.n].text) else None
  }

  /** The last text that an ending of the conversation wrote in this run. */
  function LastWritten(s: Service, c: Config, run: seq<Tick>, id: string): Option<string> {
    if run == [] then None
    else
      var text := Writes(RunFrom(s, c, run[..|run| - 1]), run[|run| - 1].event, id);
      if text.Some? then text else LastWritten(s, c, run[..|run| - 1], id)
  }

  ghost predicate RecordIs(l: Life, l': Life, id: string, text: Option<string>) {
    if text.Some? then id in l'.embedded && l'.embedded[id] == text.value else SameRecord(l, l', id)
  }

  lemma RecordStep(s: Service, c: Config, t: Tick, id: string)
    requires c.remembers
    ensures RecordIs(s.life, Happen(s, c, t).life, id, Writes(s, t.event, id))
  {
    hide Transcript;
  }

  lemma {:induction false} RecordIsLastWritten(s: Service, c: Config, run: seq<Tick>, id: string)
    requires c.remembers
    ensures RecordIs(s.life, RunFrom(s, c, run).life, id, LastWritten(s, c, run, id))
  {
    if run != [] {
      hide Happen, Writes;
      RecordIsLastWritten(s, c, run[..|run| - 1], id);
      RecordStep(RunFrom(s, c, run[..|run| - 1]), c, run[|run| - 1], id);
    }
  }

  /**
   In every run, whatever overlaps and whatever raises, marked or not: a session's present transcript is embedded if and
   only if it is empty or the last text that any ending of the conversation wrote.
   */
  lemma EmbeddedIff(c: Config, start: real, run: seq<Tick>, id: string)
    requires c.remembers && Has(After(c, start, run).life.sessions, id)
    ensures var l := After(c, start, run).life;
            var text := Transcript(Get(l.sessions, id).value);
            Embedded(l, id, Get(l.sessions, id).value) <==>
              text == "" || LastWritten(Service(Life([], map[]), [], None, start), c, run, id) == Some(text)
  {
    hide Transcript, LastWritten, RunFrom;
    RecordIsLastWritten(Service(Life([], map[]), [], None, start), c, run, id);
  }

  /** Without an episodic memory conversations are marked all the same, and nothing is ever embedded. */
  lemma {:induction false} WithoutMemoryNothingIsEmbedded(c: Config, start: real, run: seq<Tick>)
    requires !c.remembers
    ensures After(c, start, run).life.embedded == map[]
  {
    if run != [] {
      WithoutMemoryNothingIsEmbedded(c, start, run[..|run| - 1]);
    }
  }
}
