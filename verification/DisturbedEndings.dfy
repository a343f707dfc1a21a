/**
 Endings that overlap activity of their conversation (agent/loop.py): appended turns, and the saves of rollovers
 (memory/working.py) that a turn enqueues and a disconnect does not wait for.
 */
module DisturbedEndings {
  import opened Types
  import opened Text
  import opened Sequences
  import opened OrderedDict
  import opened Sessions
  import opened WorkingMemories
  import opened Lifecycle
  import opened Endings

  // ---- One disturbed ending ----

  /** Only turns are appended to the conversation, and its session is saved, as rollovers do. */
  ghost predicate AllTouch(ticks: seq<Tick>, id: string) {
    forall i :: 0 <= i < |ticks| ==> (ticks[i].event.Spoke? || ticks[i].event.Saved?) && ticks[i].event.id == id
  }

  /** The session after these appends and saves. */
  function TouchedBy(state: SessionState, ticks: seq<Tick>): SessionState {
    if ticks == [] then state
    else
      var before, t := TouchedBy(state, ticks[..|ticks| - 1]), ticks[|ticks| - 1];
      match t.event
      case Spoke(_, turn) => Touched(before.(workingBuffer := before.workingBuffer + [turn]), t.now)
      case Saved(_, saved) => Touched(saved, t.now)
      case _ => before
  }

  lemma {:induction false} TouchedByBoth(state: SessionState, a: seq<Tick>, b: seq<Tick>)
    ensures TouchedBy(state, a + b) == TouchedBy(TouchedBy(state, a), b)
  {
    if b == [] {
      assert a + b == a;
    } else {
      TouchedByBoth(state, a, b[..|b| - 1]);
      assert (a + b)[..|a + b| - 1] == a + b[..|b| - 1];
    }
  }

  lemma {:induction false} TouchingLeaves(s: Service, c: Config, ticks: seq<Tick>, id: string)
    requires Distinct(s.life.sessions) && Has(s.life.sessions, id) && AllTouch(ticks, id)
    ensures var s' := RunFrom(s, c, ticks);
            && s'.endings == s.endings && s'.life.embedded == s.life.embedded && Distinct(s'.life.sessions)
            && Get(s'.life.sessions, id) == Some(TouchedBy(Get(s.life.sessions, id).value, ticks))
  {
    if ticks != [] {
      hide Distinct;
      var state := Get(s.life.sessions, id).value;
      TouchingLeaves(s, c, ticks[..|ticks| - 1], id);
      var d, later := RunFrom(s, c, ticks[..|ticks| - 1]).life.sessions, TouchedBy(state, ticks);
      PutProperties(d, id, later, id);
      PutDistinct(d, id, later);
    }
  }

  /** An ending, with this activity of its conversation before its text is written and before its mark is set. */
  function DisturbedEnding(s: Service, id: string, userId: string, peeked: real, before: seq<Tick>, wrote: real,
      between: seq<Tick>, marked: real): seq<Tick>
  {
    [Tick(EndBegan(id, userId), peeked)] + before + [Tick(Wrote(|s.endings|), wrote)] + between
        + [Tick(Marked(|s.endings|), marked)]
  }

  lemma FiveParts(s: Service, c: Config, first: Tick, before: seq<Tick>, second: Tick, between: seq<Tick>, third: Tick)
    ensures RunFrom(s, c, [first] + before + [second] + between + [third])
         == Happen(RunFrom(Happen(RunFrom(Happen(s, c, first), c, before), c, second), c, between), c, third)
  {
    hide Happen;
    RunMore(s, c, [first] + before + [second] + between, third);
    RunAppend(s, c, [first] + before + [second], between);
    RunMore(s, c, [first] + before, second);
    RunAppend(s, c, [first], before);
    RunMore(s, c, [], first);
    assert [] + [first] == [first];
  }

  /** What an ending leaves once it has written a text and set the mark. */
  lemma ClosingEnding(s: Service, c: Config, n: nat, id: string, text: string, wrote: real, between: seq<Tick>,
      marked: real)
    requires c.remembers && n < |s.endings| && s.endings[n] == Ending(id, text, Peeked)
    requires Distinct(s.life.sessions) && Has(s.life.sessions, id) && AllTouch(between, id)
    ensures var s' := Happen(RunFrom(Happen(s, c, Tick(Wrote(n), wrote)), c, between), c, Tick(Marked(n), marked));
            && Get(s'.life.sessions, id)
               == Some(TouchedBy(Get(s.life.sessions, id).value, between).(finalizedAt := Some(marked)))
            && s'.life.embedded == EmbedStep(s.life, true, id, text).embedded
  {
    hide Compose, Distinct, MarkStep, RunFrom, TouchedBy;
    var s1 := Happen(s, c, Tick(Wrote(n), wrote));
    TouchingLeaves(s1, c, between, id);
    MarkOthers(RunFrom(s1, c, between).life.sessions, id, marked, id);
  }

  /**
   One ending that overlaps appends to its conversation and saves of its session, in any number and order, sets the mark
   all the same. What the session then holds is embedded if and only if it has no text, or has the text of the peek; or,
   when there was nothing to embed at the peek, an earlier life of the conversation had left that very transcript.
   */
  lemma DisturbedEndingIff(s: Service, c: Config, id: string, userId: string, peeked: real, before: seq<Tick>,
      wrote: real, between: seq<Tick>, marked: real)
    requires c.remembers && Distinct(s.life.sessions) && AllTouch(before, id) && AllTouch(between, id)
    requires Has(s.life.sessions, id) && Get(s.life.sessions, id).value.userId == userId
    requires !Expired(Get(s.life.sessions, id).value, Some(c.ttl), peeked)
    ensures var s', state := RunFrom(s, c, DisturbedEnding(s, id, userId, peeked, before, wrote, between, marked)),
                             Get(s.life.sessions, id).value;
            var left := TouchedBy(state, before + between);
            && Get(s'.life.sessions, id) == Some(left.(finalizedAt := Some(marked)))
            && (Embedded(s'.life, id, left) <==>
                  || Transcript(left) == "" || Transcript(left) == Transcript(state)
                  || (Transcript(state) == "" && Embedded(s.life, id, left)))
  {
    hide Compose, Distinct, RunFrom, Happen, TouchedBy;
    var n, state := |s.endings|, Get(s.life.sessions, id).value;
    FiveParts(s, c, Tick(EndBegan(id, userId), peeked), before, Tick(Wrote(n), wrote), between,
        Tick(Marked(n), marked));
    var s1 := Happen(s, c, Tick(EndBegan(id, userId), peeked));
    Peeking(s, c, id, userId, peeked);
    TouchingLeaves(s1, c, before, id);
    ClosingEnding(RunFrom(s1, c, before), c, n, id, Transcript(state), wrote, between, marked);
    TouchedByBoth(state, before, between);
  }

  lemma Peeking(s: Service, c: Config, id: string, userId: string, peeked: real)
    requires Has(s.life.sessions, id) && Get(s.life.sessions, id).value.userId == userId
    requires !Expired(Get(s.life.sessions, id).value, Some(c.ttl), peeked)
    ensures Happen(s, c, Tick(EndBegan(id, userId), peeked))
         == s.(endings := s.endings + [Ending(id, Transcript(Get(s.life.sessions, id).value), Peeked)])
  {
    hide Transcript;
  }

  // ---- What appends and rollovers do to an ending ----

  ghost predicate AllSpoke(ticks: seq<Tick>, id: string) {
    forall i :: 0 <= i < |ticks| ==> ticks[i].event.Spoke? && ticks[i].event.id == id
  }

  function TurnsOf(ticks: seq<Tick>): seq<Turn> {
    if ticks == [] then []
    else
      var front, last := TurnsOf(ticks[..|ticks| - 1]), ticks[|ticks| - 1].event;
      if last.Spoke? then front + [last.turn] else front
  }

  lemma {:induction false} SpeakingGrows(state: SessionState, ticks: seq<Tick>, id: string)
    requires AllSpoke(ticks, id)
    ensures var left := TouchedBy(state, ticks);
            left.rollingSummary == state.rollingSummary && left.workingBuffer == state.workingBuffer + TurnsOf(ticks)
  {
    if ticks == [] {
      assert state.workingBuffer + [] == state.workingBuffer;
    } else {
      var front, t := ticks[..|ticks| - 1], ticks[|ticks| - 1];
      SpeakingGrows(state, front, id);
      AppendAssociative(state.workingBuffer, TurnsOf(front), [t.event.turn]);
    }
  }

  /** When only turns were appended, the transcript is that of the peek if and only if none of them has text. */
  lemma AppendsDisturbIff(state: SessionState, ticks: seq<Tick>, id: string)
    requires AllSpoke(ticks, id)
    ensures AllTouch(ticks, id)
    ensures var text := Transcript(TouchedBy(state, ticks));
            text == "" || text == Transcript(state) <==> !AnySpoken(TurnsOf(ticks))
  {
    hide Compose, AnySpoken, TouchedBy;
    SpeakingGrows(state, ticks, id);
    TranscriptGrowsIff(state.rollingSummary, state.workingBuffer, TurnsOf(ticks));
  }

  /**
   What a task or a turn does to the conversation in the meantime: a rollover, which may come to nothing, or a turn.
   */
  datatype Activity = Rolls(budget: int, reply: Reply) | Speaks(turn: Turn)

  /** The appends and saves of this activity, each rollover run through at once. */
  function TicksOf(state: SessionState, id: string, activities: seq<Activity>, now: real): seq<Tick> {
    if activities == [] then []
    else
      var front := TicksOf(state, id, activities[..|activities| - 1], now);
      match activities[|activities| - 1]
      case Speaks(turn) => front + [Tick(Spoke(id, turn), now)]
      case Rolls(budget, reply) =>
        var rolled := Rolled(TouchedBy(state, front), budget, reply);
        if rolled.Some? then front + [Tick(Saved(id, rolled.value), now)] else front
  }

  /** No rollover succeeds, and no turn has text. */
  ghost predicate Idle(state: SessionState, id: string, activities: seq<Activity>, now: real) {
    forall i :: 0 <= i < |activities| ==>
      match activities[i]
      case Speaks(turn) => turn.text == ""
      case Rolls(budget, reply) =>
        Rolled(TouchedBy(state, TicksOf(state, id, activities[..i], now)), budget, reply) == None
  }

  lemma {:induction false} IdleKeeps(state: SessionState, id: string, activities: seq<Activity>, now: real)
    requires Idle(state, id, activities, now)
    ensures AllSpoke(TicksOf(state, id, activities, now), id)
              && !AnySpoken(TurnsOf(TicksOf(state, id, activities, now)))
  {
    if activities != [] {
      hide Rolled, TouchedBy;
      var front, last := activities[..|activities| - 1], activities[|activities| - 1];
      assert forall i :: 0 <= i < |front| ==> front[i] == activities[i] && front[..i] == activities[..i];
      IdleKeeps(state, id, front, now);
      var ticks := TicksOf(state, id, front, now);
      if last.Speaks? {
        assert (ticks + [Tick(Spoke(id, last.turn), now)])[..|ticks|] == ticks;
      }
    }
  }

  /** So an ending during which no rollover succeeded and no turn with text was appended embeds what it marks. */
  lemma IdleEndingEmbeds(s: Service, c: Config, id: string, userId: string, peeked: real, activities: seq<Activity>,
      marked: real)
    requires c.remembers && Distinct(s.life.sessions)
    requires Has(s.life.sessions, id) && Get(s.life.sessions, id).value.userId == userId
    requires !Expired(Get(s.life.sessions, id).value, Some(c.ttl), peeked)
    requires Idle(Get(s.life.sessions, id).value, id, activities, marked)
    ensures var ticks := TicksOf(Get(s.life.sessions, id).value, id, activities, marked);
            var s' := RunFrom(s, c, DisturbedEnding(s, id, userId, peeked, ticks, marked, [], marked));
            Get(s'.life.sessions, id).Some? && Embedded(s'.life, id, Get(s'.life.sessions, id).value)
  {
    hide Compose, Distinct, RunFrom, TouchedBy, TicksOf, Idle, AllSpoke, AnySpoken, DisturbedEnding;
    var state := Get(s.life.sessions, id).value;
    var ticks := TicksOf(state, id, activities, marked);
    IdleKeeps(state, id, activities, marked);
    AppendsDisturbIff(state, ticks, id);
    assert ticks + [] == ticks;
    DisturbedEndingIff(s, c, id, userId, peeked, ticks, marked, [], marked);
    MarkedIsSame(TouchedBy(state, ticks), Some(marked));
  }

  /**
   A rollover that succeeds in the meantime leaves the transcript as it was if and only if its summary is, up to white
   space at the beginning (or at both ends, when the turns it keeps have no text), the old summary and the very lines of
   the turns it evicts.
   */
  lemma RolloverDisturbsIff(state: SessionState, budget: int, reply: Reply, id: string, now: real)
    requires Rolled(state, budget, reply).Some?
    ensures var rolled := Rolled(state, budget, reply).value;
            var ticks, folded := [Tick(Saved(id, rolled), now)],
                Lines(state.rollingSummary, Evicted(state.workingBuffer, budget));
            && AllTouch(ticks, id)
            && (Transcript(TouchedBy(state, ticks)) == Transcript(state) <==>
                  if SpokenLines(rolled.workingBuffer) != [] then StripLeft(rolled.rollingSummary) == StripLeft(folded)
                  else Strip(rolled.rollingSummary) == Strip(folded))
  {
    hide SpokenLines, StripLeft, StripRight, Join, KeepFrom;
    var rolled := Rolled(state, budget, reply).value;
    var ticks := [Tick(Saved(id, rolled), now)];
    assert ticks[..0] == [];
    SplitIsLongest(state.workingBuffer, budget);
    FoldKeepsIff(rolled.rollingSummary, state.rollingSummary, Evicted(state.workingBuffer, budget),
        rolled.workingBuffer);
  }
}
