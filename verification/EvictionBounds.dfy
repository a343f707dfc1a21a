/**
 Runs that lose a transcript (agent/loop.py, stores/memory_session.py, config/schema.py): the bound on the gap between
 sweeps is exact, and one disturbed ending loses a transcript whatever the configuration.
 */
module EvictionBounds {
  import opened Types
  import opened Text
  import opened Sequences
  import opened OrderedDict
  import opened Sessions
  import opened WorkingMemories
  import opened Lifecycle
  import opened Endings
  import opened Evictions
  import opened DisturbedEndings

  /** k + 1 sweeps that find nothing to do, `gap` apart, the last one at `last`. */
  function Sweeps(k: nat, gap: real, last: real): seq<Tick> {
    (if k == 0 then [] else Sweeps(k - 1, gap, last - gap)) + [Tick(SweepBegan, last), Tick(SweepEnded, last)]
  }

  lemma AfterMore(c: Config, start: real, run: seq<Tick>, t: Tick)
    ensures After(c, start, run + [t]) == Happen(After(c, start, run), c, t)
  {
    RunMore(Service(Life([], map[]), [], None, start), c, run, t);
  }

  lemma InTimeStays(c: Config, start: real, run: seq<Tick>, gap: real, t: Tick, i: nat)
    requires i < |run| && InTime(c, start, run, gap, i)
    ensures InTime(c, start, run + [t], gap, i)
  {
    hide After;
    PrefixOfAppend(run, [t], i);
  }

  lemma InTimeLast(c: Config, start: real, run: seq<Tick>, gap: real, t: Tick)
    requires start <= t.now && t.now - After(c, start, run).swept <= gap
    ensures InTime(c, start, run + [t], gap, |run|)
  {
    hide After;
    assert (run + [t])[..|run|] == run;
  }

  lemma OrderedMore(run: seq<Tick>, t: Tick)
    requires Ordered(run) && (run != [] ==> run[|run| - 1].now <= t.now)
    ensures Ordered(run + [t])
  {
    var longer := run + [t];
    forall i, j | 0 <= i < j < |longer| ensures longer[i].now <= longer[j].now {
      assert longer[i] == run[i] && (j < |run| ==> longer[j] == run[j]);
    }
  }

  lemma OneMoreTick(c: Config, start: real, run: seq<Tick>, gap: real, t: Tick)
    requires SweptEvery(c, start, run, gap)
    requires start <= t.now && t.now - After(c, start, run).swept <= gap && (run != [] ==> run[|run| - 1].now <= t.now)
    ensures SweptEvery(c, start, run + [t], gap) && After(c, start, run + [t]) == Happen(After(c, start, run), c, t)
  {
    hide Happen, After, InTime, Ordered;
    AfterMore(c, start, run, t);
    OrderedMore(run, t);
    InTimeLast(c, start, run, gap, t);
    forall i | 0 <= i < |run| ensures InTime(c, start, run + [t], gap, i) {
      InTimeStays(c, start, run, gap, t, i);
    }
  }

  /**
   The service holds this one session, no sweep is under way, and the session is not due at any time up to `until`.
   */
  ghost predicate Lone(s: Service, c: Config, id: string, state: SessionState, until: real) {
    && s.life.sessions == [(id, state)] && s.sweep == None
    && (state.finalizedAt.Some? || until - state.updatedAt < c.idle)
  }

  /** A run after which the service is `s`, last swept at `last`, and has left the session as it was. */
  ghost predicate Quiet(c: Config, run: seq<Tick>, gap: real, s: Service, last: real) {
    && SweptEvery(c, 0.0, run, gap)
    && run != [] && run[|run| - 1].now <= last
    && After(c, 0.0, run) == s.(swept := last)
  }

  lemma NotDue(id: string, state: SessionState, idle: real, now: real)
    requires !IsDue(state, idle, now)
    ensures Due([(id, state)], idle, now) == []
  {
    assert [(id, state)][1..] == [];
  }

  lemma IdleSweep(s: Service, c: Config, id: string, state: SessionState, next: real)
    requires Lone(s, c, id, state, next)
    ensures var s1 := Happen(s, c, Tick(SweepBegan, next));
            s1.swept == s.swept && Happen(s1, c, Tick(SweepEnded, next)) == s.(swept := next)
  {
    NotDue(id, state, c.idle, next);
  }

  lemma QuietMeans(c: Config, run: seq<Tick>, gap: real, s: Service, last: real)
    requires Quiet(c, run, gap, s, last)
    ensures SweptEvery(c, 0.0, run, gap) && run != [] && run[|run| - 1].now <= last
              && After(c, 0.0, run) == s.(swept := last)
  {
    hide SweptEvery;
  }

  lemma QuietStep(c: Config, run: seq<Tick>, gap: real, s: Service, id: string, state: SessionState, last: real,
      next: real)
    requires Quiet(c, run, gap, s, last) && 0.0 <= last <= next <= last + gap && Lone(s, c, id, state, next)
              && 0.0 < gap
    ensures Quiet(c, run + [Tick(SweepBegan, next), Tick(SweepEnded, next)], gap, s, next)
  {
    hide Happen, RunFrom, SweptEvery, Due;
    var began, ended := Tick(SweepBegan, next), Tick(SweepEnded, next);
    QuietMeans(c, run, gap, s, last);
    IdleSweep(s.(swept := last), c, id, state, next);
    OneMoreTick(c, 0.0, run, gap, began);
    OneMoreTick(c, 0.0, run + [began], gap, ended);
    assert (run + [began]) + [ended] == run + [began, ended];
  }

  /** Sweeps that come before the session counts as idle, or after it was marked, do nothing. */
  lemma {:induction false} QuietSweeps(c: Config, first: seq<Tick>, gap: real, s: Service, id: string,
      state: SessionState, k: nat, last: real)
    requires 0.0 < gap && 0.0 <= last - k as real * gap <= gap && Lone(s, c, id, state, last)
    requires Quiet(c, first, gap, s, 0.0)
    ensures Quiet(c, first + Sweeps(k, gap, last), gap, s, last)
  {
    hide Quiet;
    var sweep := [Tick(SweepBegan, last), Tick(SweepEnded, last)];
    if k == 0 {
      assert Sweeps(k, gap, last) == sweep;
      QuietStep(c, first, gap, s, id, state, 0.0, last);
    } else {
      assert (k - 1) as real * gap == k as real * gap - gap;
      assert (k - 1) as real * gap >= 0.0;
      QuietSweeps(c, first, gap, s, id, state, k - 1, last - gap);
      AppendAssociative(first, Sweeps(k - 1, gap, last - gap), sweep);
      QuietStep(c, first + Sweeps(k - 1, gap, last - gap), gap, s, id, state, last - gap, last);
    }
  }

  /** `first`, quiet sweeps up to `last`, and then a load. */
  function LateLoad(first: seq<Tick>, id: string, userId: string, k: nat, gap: real, last: real,
      load: real): seq<Tick> {
    first + Sweeps(k, gap, last) + [Tick(Opened(id, userId), load)]
  }

  /** After a quiet run, a load after the time to live evicts the session, embedded or not. */
  lemma LoadAfterQuiet(c: Config, before: seq<Tick>, gap: real, s: Service, id: string, state: SessionState,
      last: real, load: real)
    requires Quiet(c, before, gap, s, last) && 0.0 <= last <= load <= last + gap && c.ttl < load - state.updatedAt
    requires s.life.sessions == [(id, state)] && !Embedded(s.life, id, state)
    ensures var run := before + [Tick(Opened(id, state.userId), load)];
            SweptEvery(c, 0.0, run, gap) && !NoLossAt(c, 0.0, run, |run| - 1, id)
  {
    hide Transcript, Quiet, SweptEvery, Happen, RunFrom, Embedded;
    var t := Tick(Opened(id, state.userId), load);
    QuietMeans(c, before, gap, s, last);
    OneMoreTick(c, 0.0, before, gap, t);
    var run := before + [t];
    assert run[..|run| - 1] == before && run[..|run|] == run;
    LateEviction(s.(swept := last), c, id, state, load);
  }

  /** So does one after quiet sweeps. */
  lemma LoadTooLate(c: Config, first: seq<Tick>, gap: real, s: Service, id: string, state: SessionState, k: nat,
      last: real, load: real)
    requires 0.0 < gap && 0.0 <= last - k as real * gap <= gap && Lone(s, c, id, state, last)
    requires Quiet(c, first, gap, s, 0.0) && !Embedded(s.life, id, state)
    requires c.ttl < load - state.updatedAt && 0.0 <= last <= load <= last + gap
    ensures var run := LateLoad(first, id, state.userId, k, gap, last, load);
            SweptEvery(c, 0.0, run, gap) && !NoLossAt(c, 0.0, run, |run| - 1, id)
  {
    hide Transcript, Quiet, SweptEvery, Embedded, Sweeps, NoLossAt;
    QuietSweeps(c, first, gap, s, id, state, k, last);
    LoadAfterQuiet(c, first + Sweeps(k, gap, last), gap, s, id, state, last, load);
  }

  lemma LateEviction(s: Service, c: Config, id: string, state: SessionState, load: real)
    requires s.life.sessions == [(id, state)] && c.ttl < load - state.updatedAt && !Embedded(s.life, id, state)
    ensures var s' := Happen(s, c, Tick(Opened(id, state.userId), load));
            Get(s.life.sessions, id) == Some(state) && !Has(s'.life.sessions, id) && !Embedded(s'.life, id, state)
  {
    hide Transcript;
  }

  /** How many whole gaps fit before a time. */
  lemma WholeGaps(last: real, gap: real) returns (k: nat)
    requires 0.0 <= last && 0.0 < gap
    ensures 0.0 <= last - k as real * gap <= gap
  {
    var q := last / gap;
    k := q.Floor;
    var whole := k as real;
    var rest := q - whole;
    assert q * gap == last;
    assert 0.0 <= rest < 1.0;
    var scaled := ScaledFraction(rest, gap);
    Distribute(q, whole, gap);
  }

  lemma ScaledFraction(rest: real, gap: real) returns (scaled: real)
    requires 0.0 <= rest < 1.0 && 0.0 < gap
    ensures scaled == rest * gap && 0.0 <= scaled <= gap
  {
    scaled := rest * gap;
    assert (1.0 - rest) * gap >= 0.0;
  }

  lemma Distribute(q: real, whole: real, gap: real)
    ensures (q - whole) * gap == q * gap - whole * gap
  {
  }

  // ---- The bound on the gap ----

  ghost predicate NeverLoses(c: Config, gap: real) {
    forall start: real, run: seq<Tick>, id: string, n: nat ::
      SweptEvery(c, start, run, gap) && Undisturbed(c, start, run, id) && n < |run| ==> NoLossAt(c, start, run, n, id)
  }

  lemma SavedFirst(c: Config, gap: real, id: string, state: SessionState)
    requires 0.0 < gap
    ensures Quiet(c, [Tick(Saved(id, state), 0.0)], gap,
              Service(Life([(id, Touched(state, 0.0))], map[]), [], None, 0.0), 0.0)
  {
    var first := Tick(Saved(id, state), 0.0);
    OneMoreTick(c, 0.0, [], gap, first);
    assert [] + [first] == [first];
  }

  predicate StartsEnding(e: Event) { e.EndBegan? || e.SweepNext? }

  /** Where no ending begins, none is disturbed. */
  lemma {:induction false} NoEndings(s: Service, c: Config, run: seq<Tick>)
    requires s.endings == [] && forall i :: 0 <= i < |run| ==> !StartsEnding(run[i].event)
    ensures RunFrom(s, c, run).endings == []
  {
    if run != [] {
      NoEndings(s, c, run[..|run| - 1]);
    }
  }

  lemma NoEndingsUndisturbed(c: Config, start: real, run: seq<Tick>, id: string)
    requires forall i :: 0 <= i < |run| ==> !StartsEnding(run[i].event)
    ensures Undisturbed(c, start, run, id)
  {
    hide RunFrom;
    forall i | 0 <= i < |run| ensures !Interrupts(After(c, start, run[..i]), run[i].event, id) {
      assert forall j :: 0 <= j < i ==> run[..i][j] == run[j];
      NoEndings(Service(Life([], map[]), [], None, start), c, run[..i]);
    }
  }

  lemma {:induction false} SweepsStartNothing(k: nat, gap: real, last: real, i: nat)
    requires i < |Sweeps(k, gap, last)|
    ensures !StartsEnding(Sweeps(k, gap, last)[i].event)
  {
    if k > 0 && i < |Sweeps(k - 1, gap, last - gap)| {
      SweepsStartNothing(k - 1, gap, last - gap, i);
    }
  }

  /** With a gap beyond the time to live, a load just before the first sweep is too late. */
  lemma UnsweptLoses(c: Config, gap: real, id: string, state: SessionState)
    requires c.remembers && 0.0 < gap && Transcript(state) != "" && gap > c.ttl
    ensures !NeverLoses(c, gap)
  {
    hide SweptEvery, Undisturbed, NoLossAt, Quiet, Transcript;
    var first, stored := [Tick(Saved(id, state), 0.0)], Touched(state, 0.0);
    SavedFirst(c, gap, id, state);
    assert Transcript(stored) == Transcript(state) by { SameTranscript(state, 0.0); }
    LoadAfterQuiet(c, first, gap, Service(Life([(id, stored)], map[]), [], None, 0.0), id, stored, 0.0, gap);
    var run := first + [Tick(Opened(id, state.userId), gap)];
    NoEndingsUndisturbed(c, 0.0, run, id);
    var n: nat := |run| - 1;
    assert SweptEvery(c, 0.0, run, gap) && Undisturbed(c, 0.0, run, id) && n < |run| && !NoLossAt(c, 0.0, run, n, id);
  }

  /** A session saved at time 0, sweeps that end just before it is due, and a load after its time to live. */
  lemma LateLoadLoses(c: Config, gap: real, id: string, state: SessionState)
    requires c.remembers && 0.0 < gap <= c.ttl && Transcript(state) != "" && c.idle + gap > c.ttl
    ensures !NeverLoses(c, gap)
  {
    hide SweptEvery, Undisturbed, NoLossAt, Quiet, Transcript, Sweeps;
    var load := (c.ttl + c.idle + gap) / 2.0;
    var last := load - gap;
    var k := WholeGaps(last, gap);
    var first, stored := [Tick(Saved(id, state), 0.0)], Touched(state, 0.0);
    SavedFirst(c, gap, id, state);
    assert Transcript(stored) == Transcript(state) by { SameTranscript(state, 0.0); }
    LoadTooLate(c, first, gap, Service(Life([(id, stored)], map[]), [], None, 0.0), id, stored, k, last, load);
    var run := LateLoad(first, id, state.userId, k, gap, last, load);
    forall i | 0 <= i < |run| ensures !StartsEnding(run[i].event) {
      if 1 <= i < |run| - 1 {
        SweepsStartNothing(k, gap, last, i - 1);
      }
    }
    NoEndingsUndisturbed(c, 0.0, run, id);
    var n: nat := |run| - 1;
    assert SweptEvery(c, 0.0, run, gap) && Undisturbed(c, 0.0, run, id) && n < |run| && !NoLossAt(c, 0.0, run, n, id);
  }

  lemma SameTranscript(state: SessionState, now: real)
    ensures Transcript(Touched(state, now)) == Transcript(state)
  {
  }

  /**
   The configuration check idle < ttl is not enough. For every configuration, no run of undisturbed endings with clean
   sweeps at most `gap` apart loses a transcript if and only if idle + gap <= ttl, a negative idle time counting as
   none.
   */
  lemma GapBoundIsExact(c: Config, gap: real, id: string, state: SessionState)
    requires c.remembers && 0.0 < gap && Transcript(state) != ""
    ensures NeverLoses(c, gap) <==> Lag(c) + gap <= c.ttl
  {
    hide SweptEvery, Undisturbed, NoLossAt;
    if Lag(c) + gap <= c.ttl {
      forall start: real, run: seq<Tick>, k: string, n: nat
        | SweptEvery(c, start, run, gap) && Undisturbed(c, start, run, k) && n < |run|
        ensures NoLossAt(c, start, run, n, k)
      {
        NothingLost(c, start, run, gap, k, n);
      }
    } else if gap > c.ttl {
      UnsweptLoses(c, gap, id, state);
    } else {
      LateLoadLoses(c, gap, id, state);
    }
  }

  // ---- One disturbed ending ----

  /** A session is saved and peeked; this happens to it before the peeked text is written and the mark is set. */
  function Disturbed(id: string, state: SessionState, e: Event): seq<Tick> {
    [Tick(Saved(id, state), 0.0), Tick(EndBegan(id, state.userId), 0.0), Tick(e, 0.0), Tick(Wrote(0), 0.0),
        Tick(Marked(0), 0.0)]
  }

  /** The session after an append or a save. */
  function Later(state: SessionState, e: Event): SessionState {
    TouchedBy(state, [Tick(e, 0.0)])
  }

  predicate Touches(e: Event, id: string) { (e.Spoke? || e.Saved?) && e.id == id }

  function Left(state: SessionState, e: Event): SessionState {
    Later(state, e).(finalizedAt := Some(0.0))
  }

  /** What the run leaves: the session marked, and at most the text of the peek embedded. */
  function DisturbedService(c: Config, id: string, state: SessionState, e: Event): Service {
    var text := Transcript(state);
    Service(EmbedStep(Life([(id, Left(state, e))], map[]), c.remembers, id, text), [Ending(id, text, Closed)], None,
        0.0)
  }

  lemma LaterIs(state: SessionState, e: Event, id: string)
    requires Touches(e, id)
    ensures Later(Touched(state, 0.0), e) == Later(state, e)
    ensures Later(state, e) == if e.Saved? then Touched(e.state, 0.0)
                               else Touched(state.(workingBuffer := state.workingBuffer + [e.turn]), 0.0)
  {
    var one := [Tick(e, 0.0)];
    assert one[..0] == [];
    assert TouchedBy(state, one[..0]) == state && TouchedBy(Touched(state, 0.0), one[..0]) == Touched(state, 0.0);
  }

  /** The states of the run, one event after the other. */
  lemma DisturbedSteps(c: Config, id: string, state: SessionState, e: Event)
      returns (s2: Service, s3: Service, s4: Service)
    requires 0.0 <= c.ttl && Touches(e, id)
    ensures var run, s1 := Disturbed(id, state, e), Service(Life([(id, Touched(state, 0.0))], map[]), [], None, 0.0);
            && s2 == Happen(s1, c, run[1]) && s3 == Happen(s2, c, run[2]) && s4 == Happen(s3, c, run[3])
            && Happen(s4, c, run[4]) == DisturbedService(c, id, state, e)
            && s2.swept == s3.swept == s4.swept == 0.0
  {
    hide Transcript, Later;
    var text := Transcript(state);
    SameTranscript(state, 0.0);
    LaterIs(state, e, id);
    s2 := Service(Life([(id, Touched(state, 0.0))], map[]), [Ending(id, text, Peeked)], None, 0.0);
    s3 := Service(Life([(id, Later(state, e))], map[]), [Ending(id, text, Peeked)], None, 0.0);
    s4 := Service(EmbedStep(Life([(id, Later(state, e))], map[]), c.remembers, id, text), [Ending(id, text, Stored)],
        None, 0.0);
  }

  lemma DisturbedLeaves(c: Config, gap: real, id: string, state: SessionState, e: Event)
    requires 0.0 < gap && 0.0 <= c.ttl && Touches(e, id)
    ensures Quiet(c, Disturbed(id, state, e), gap, DisturbedService(c, id, state, e), 0.0)
  {
    hide Transcript, SweptEvery, RunFrom, Happen, EmbedStep, Later;
    var run := Disturbed(id, state, e);
    var s2, s3, s4 := DisturbedSteps(c, id, state, e);
    SavedFirst(c, gap, id, state);
    assert run[..1] == [run[0]];
    OneMoreTick(c, 0.0, run[..1], gap, run[1]);
    assert run[..1] + [run[1]] == run[..2];
    OneMoreTick(c, 0.0, run[..2], gap, run[2]);
    assert run[..2] + [run[2]] == run[..3];
    OneMoreTick(c, 0.0, run[..3], gap, run[3]);
    assert run[..3] + [run[3]] == run[..4];
    OneMoreTick(c, 0.0, run[..4], gap, run[4]);
    assert run[..4] + [run[4]] == run;
  }

  /** The run loses the session: it is marked, in no later queue, and evicted by a load without having been embedded. */
  ghost predicate Loses(c: Config, gap: real, id: string, first: seq<Tick>, run: seq<Tick>) {
    && first <= run && run != [] && SweptEvery(c, 0.0, run, gap) && !NoLossAt(c, 0.0, run, |run| - 1, id)
    && var d := After(c, 0.0, first).life.sessions;
       Get(d, id).Some? && Get(d, id).value.finalizedAt.Some? && forall idle, now :: Due(d, idle, now) == []
  }

  /**
   Whatever idle, ttl and gap are, and however often the sweeper runs: an append or a save during an ending that leaves
   another transcript that is not empty loses the session. So the condition of NothingLost on endings cannot be dropped.
   */
  lemma DisturbedEndingLoses(c: Config, gap: real, id: string, state: SessionState, e: Event) returns (run: seq<Tick>)
    requires 0.0 <= c.ttl && 0.0 < gap && Touches(e, id)
    requires Transcript(Later(state, e)) != "" && Transcript(Later(state, e)) != Transcript(state)
    ensures Loses(c, gap, id, Disturbed(id, state, e), run)
  {
    hide Transcript, SweptEvery, NoLossAt, Quiet, Sweeps, Embedded, Later;
    var first, s, left := Disturbed(id, state, e), DisturbedService(c, id, state, e), Left(state, e);
    DisturbedLeaves(c, gap, id, state, e);
    NotEmbedded(c, id, state, e);
    LaterIs(state, e, id);
    var last, load := c.ttl, c.ttl + gap;
    var k := WholeGaps(last, gap);
    LoadTooLate(c, first, gap, s, id, left, k, last, load);
    run := LateLoad(first, id, left.userId, k, gap, last, load);
    AppendAssociative(first, Sweeps(k, gap, last), [Tick(Opened(id, left.userId), load)]);
    assert After(c, 0.0, first) == s by { QuietMeans(c, first, gap, s, 0.0); }
    forall idle, now ensures Due([(id, left)], idle, now) == [] {
      NotDue(id, left, idle, now);
    }
  }

  lemma NotEmbedded(c: Config, id: string, state: SessionState, e: Event)
    requires Transcript(Later(state, e)) != "" && Transcript(Later(state, e)) != Transcript(state)
    ensures !Embedded(DisturbedService(c, id, state, e).life, id, Left(state, e))
  {
    hide Transcript, Later;
    MarkedIsSame(Later(state, e), Some(0.0));
  }

  /** Any turn with text does. */
  lemma AppendLoses(c: Config, gap: real, id: string, state: SessionState, turn: Turn) returns (run: seq<Tick>)
    requires 0.0 <= c.ttl && 0.0 < gap && turn.text != ""
    ensures Loses(c, gap, id, Disturbed(id, state, Spoke(id, turn)), run)
  {
    hide Compose, Loses;
    LaterIs(state, Spoke(id, turn), id);
    assert [turn][0].text != "";
    TranscriptGrowsIff(state.rollingSummary, state.workingBuffer, [turn]);
    run := DisturbedEndingLoses(c, gap, id, state, Spoke(id, turn));
  }

  /** Any rollover does whose summary is not blank and not the very text it replaces. */
  lemma RolloverLoses(c: Config, gap: real, id: string, state: SessionState, budget: int, reply: Reply)
      returns (run: seq<Tick>)
    requires 0.0 <= c.ttl && 0.0 < gap && Rolled(state, budget, reply).Some?
    requires StripLeft(Rolled(state, budget, reply).value.rollingSummary) != ""
    requires var rolled, folded := Rolled(state, budget, reply).value,
                                   Lines(state.rollingSummary, Evicted(state.workingBuffer, budget));
             if SpokenLines(rolled.workingBuffer) != [] then StripLeft(rolled.rollingSummary) != StripLeft(folded)
             else Strip(rolled.rollingSummary) != Strip(folded)
    ensures Loses(c, gap, id, Disturbed(id, state, Saved(id, Rolled(state, budget, reply).value)), run)
  {
    hide Loses, Rolled, SpokenLines, StripLeft, StripRight, Join, KeepFrom;
    var rolled := Rolled(state, budget, reply).value;
    LaterIs(state, Saved(id, rolled), id);
    RolloverDisturbsIff(state, budget, reply, id, 0.0);
    SummaryShows(rolled.rollingSummary, rolled.workingBuffer);
    run := DisturbedEndingLoses(c, gap, id, state, Saved(id, rolled));
  }
}
