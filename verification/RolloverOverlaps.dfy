/**
 Rollovers that overlap turns and each other (memory/working.py, agent/loop.py): each loads the session, awaits the
 summarizer, and saves over whatever is stored by then. Any number of them may be in flight.
 */
module RolloverOverlaps {
  import opened Types
  import opened Sequences
  import opened WorkingMemories

  /** Turns with the order in which they were appended, so that equal turns are told apart. */
  type Entries = seq<(nat, Turn)>

  function Plain(entries: Entries): (turns: seq<Turn>)
    ensures |turns| == |entries| && forall i :: 0 <= i < |turns| ==> turns[i] == entries[i].1
  {
    seq(|entries|, i requires 0 <= i < |entries| => entries[i].1)
  }

  function Numbered(log: seq<Turn>): (entries: Entries)
    ensures |entries| == |log| && forall i :: 0 <= i < |log| ==> entries[i] == (i, log[i])
  {
    seq(|log|, i requires 0 <= i < |log| => (i, log[i]))
  }

  /** What a rollover loaded, and how many turns had been folded and appended by then. */
  datatype Reading = Reading(summary: string, entries: Entries, folded: nat, appended: nat)

  /**
   The stored session, every turn appended to it, those that saved rollovers folded away, and the rollovers in flight.
   */
  datatype Shared = Shared(summary: string, entries: Entries, log: seq<Turn>, folded: Entries, held: map<nat, Reading>)

  datatype Part = Appends(turn: Turn) | Loads(worker: nat) | Saves(worker: nat, reply: Reply)

  /** The session with this summary and buffer; nothing else of it matters to a rollover. */
  function SessionOf(base: SessionState, summary: string, entries: Entries): SessionState {
    base.(rollingSummary := summary, workingBuffer := Plain(entries))
  }

  function Outcome(base: SessionState, budget: int, mine: Reading, reply: Reply): Option<SessionState> {
    Rolled(SessionOf(base, mine.summary, mine.entries), budget, reply)
  }

  function Cut(budget: int, mine: Reading): (k: nat)
    ensures k <= |mine.entries|
  {
    KeepFrom(Plain(mine.entries), budget, |mine.entries|)
  }

  function PartStep(s: Shared, base: SessionState, budget: int, p: Part): Shared {
    match p
    case Appends(turn) => s.(entries := s.entries + [(|s.log|, turn)], log := s.log + [turn])
    case Loads(w) => s.(held := s.held[w := Reading(s.summary, s.entries, |s.folded|, |s.log|)])
    case Saves(w, reply) =>
      if w !in s.held then s
      else
        var mine := s.held[w];
        match Outcome(base, budget, mine, reply)
        case None => s.(held := s.held - {w})
        case Some(rolled) =>
          s.(summary := rolled.rollingSummary, entries := mine.entries[Cut(budget, mine)..],
             folded := s.folded + mine.entries[..Cut(budget, mine)], held := s.held - {w})
  }

  function AfterParts(s: Shared, base: SessionState, budget: int, run: seq<Part>): Shared {
    if run == [] then s else PartStep(AfterParts(s, base, budget, run[..|run| - 1]), base, budget, run[|run| - 1])
  }

  function Opening(base: SessionState): Shared {
    Shared(base.rollingSummary, Numbered(base.workingBuffer), base.workingBuffer, [], map[])
  }

  /** What is saved is the rollover's outcome: its summary, and the turns it keeps. */
  lemma SaveIsOutcome(s: Shared, base: SessionState, budget: int, w: nat, reply: Reply)
    requires w in s.held && Outcome(base, budget, s.held[w], reply).Some?
    ensures var s', rolled := PartStep(s, base, budget, Saves(w, reply)), Outcome(base, budget, s.held[w], reply).value;
            SessionOf(base, s'.summary, s'.entries) == rolled
                && Plain(s.held[w].entries[..Cut(budget, s.held[w])]) != []
  {
    var mine := s.held[w];
    assert Plain(mine.entries[Cut(budget, mine)..]) == Plain(mine.entries)[Cut(budget, mine)..];
    assert Plain(mine.entries[..Cut(budget, mine)]) == Plain(mine.entries)[..Cut(budget, mine)];
  }

  /** A save over turns that were appended, or folded away by another rollover, since this one loaded. */
  predicate Stale(s: Shared, base: SessionState, budget: int, p: Part) {
    && p.Saves? && p.worker in s.held && Outcome(base, budget, s.held[p.worker], p.reply).Some?
    && (s.held[p.worker].folded < |s.folded| || s.held[p.worker].appended < |s.log|)
  }

  ghost predicate NoneStale(s: Shared, base: SessionState, budget: int, run: seq<Part>) {
    run == [] ||
    (var front := run[..|run| - 1];
     NoneStale(s, base, budget, front) && !Stale(AfterParts(s, base, budget, front), base, budget, run[|run| - 1]))
  }

  /** Every turn appended is folded away or in the buffer, once and in order. */
  ghost predicate Whole(s: Shared) {
    s.folded + s.entries == Numbered(s.log)
  }

  // ---- While no save is stale ----

  ghost predicate ReadingFits(s: Shared, mine: Reading) {
    && mine.folded <= |s.folded| && mine.folded <= mine.appended <= |s.log|
    && mine.entries == Numbered(s.log)[mine.folded..mine.appended]
  }

  ghost predicate Good(s: Shared) {
    Whole(s) && |s.folded| <= |s.log| && forall w :: w in s.held ==> ReadingFits(s, s.held[w])
  }

  lemma NumberedMore(log: seq<Turn>, turn: Turn)
    ensures Numbered(log + [turn]) == Numbered(log) + [(|log|, turn)]
  {
  }

  lemma FitsLater(s: Shared, s': Shared, mine: Reading)
    requires ReadingFits(s, mine) && |s.folded| <= |s'.folded| && s.log <= s'.log
    ensures ReadingFits(s', mine)
  {
    assert Numbered(s.log)[mine.folded..mine.appended] == Numbered(s'.log)[mine.folded..mine.appended];
  }

  lemma AppendGood(s: Shared, base: SessionState, budget: int, turn: Turn)
    requires Good(s)
    ensures Good(PartStep(s, base, budget, Appends(turn)))
  {
    hide ReadingFits;
    var s' := PartStep(s, base, budget, Appends(turn));
    NumberedMore(s.log, turn);
    AppendAssociative(s.folded, s.entries, [(|s.log|, turn)]);
    forall w | w in s'.held ensures ReadingFits(s', s'.held[w]) {
      FitsLater(s, s', s.held[w]);
    }
  }

  lemma LoadGood(s: Shared, base: SessionState, budget: int, w: nat)
    requires Good(s)
    ensures Good(PartStep(s, base, budget, Loads(w)))
  {
    var s' := PartStep(s, base, budget, Loads(w));
    assert s.entries == Numbered(s.log)[|s.folded|..|s.log|];
    forall v | v in s'.held ensures ReadingFits(s', s'.held[v]) {
      if v != w {
        assert ReadingFits(s, s.held[v]);
      }
    }
  }

  lemma CutWhole(s: Shared, mine: Reading, k: nat)
    requires Good(s) && ReadingFits(s, mine) && mine.folded == |s.folded| && mine.appended == |s.log|
              && k <= |mine.entries|
    ensures (s.folded + mine.entries[..k]) + mine.entries[k..] == Numbered(s.log) && |s.folded| + k <= |s.log|
  {
    assert s.entries == Numbered(s.log)[|s.folded|..|s.log|];
    assert mine.entries[..k] + mine.entries[k..] == mine.entries;
    AppendAssociative(s.folded, mine.entries[..k], mine.entries[k..]);
  }

  lemma SaveGood(s: Shared, base: SessionState, budget: int, p: Part)
    requires Good(s) && p.Saves? && !Stale(s, base, budget, p)
    ensures Good(PartStep(s, base, budget, p))
  {
    hide Outcome, Cut, ReadingFits;
    var s' := PartStep(s, base, budget, p);
    if p.worker in s.held && Outcome(base, budget, s.held[p.worker], p.reply).Some? {
      var mine := s.held[p.worker];
      FitsBounds(s, mine);
      CutWhole(s, mine, Cut(budget, mine));
    }
    forall w | w in s'.held ensures ReadingFits(s', s'.held[w]) {
      FitsLater(s, s', s.held[w]);
    }
  }

  lemma FitsBounds(s: Shared, mine: Reading)
    requires ReadingFits(s, mine)
    ensures mine.folded <= |s.folded| && mine.appended <= |s.log|
  {
  }

  // ---- From the first stale save on ----

  /** A turn that is in neither place, and that only rollovers hold which would fold away another one again. */
  ghost predicate Lost(s: Shared, e: (nat, Turn)) {
    && e.0 < |s.log| && e.1 == s.log[e.0] && e !in s.folded && e !in s.entries
    && forall w :: w in s.held && e in s.held[w].entries ==> s.held[w].entries[0] in s.folded
  }

  ghost predicate Broken(s: Shared) {
    !NoRepeats(s.folded) || exists e :: Lost(s, e)
  }

  lemma WholeIsNotBroken(s: Shared)
    requires Whole(s)
    ensures NoRepeats(s.folded) && forall e: (nat, Turn) :: !Lost(s, e)
  {
    var all := Numbered(s.log);
    forall i, j | 0 <= i < j < |s.folded| ensures s.folded[i] != s.folded[j] {
      assert all[i] == s.folded[i] && all[j] == s.folded[j];
    }
    forall e: (nat, Turn) ensures !Lost(s, e) {
      if e.0 < |s.log| && e.1 == s.log[e.0] {
        assert all[e.0] == e;
        assert e in s.folded + s.entries;
      }
    }
  }

  lemma NotBroken(s: Shared)
    requires NoRepeats(s.folded) && forall e: (nat, Turn) :: !Lost(s, e)
    ensures !Broken(s)
  {
  }

  lemma Folds(a: Entries, b: Entries, e: (nat, Turn))
    requires e in a && e in b
    ensures !NoRepeats(a + b)
  {
    var i :| 0 <= i < |a| && a[i] == e;
    var j :| 0 <= j < |b| && b[j] == e;
    assert (a + b)[i] == (a + b)[|a| + j];
  }

  lemma RepeatsStay(a: Entries, b: Entries)
    requires !NoRepeats(a)
    ensures !NoRepeats(a + b)
  {
    var i, j :| 0 <= i < j < |a| && a[i] == a[j];
    assert (a + b)[i] == (a + b)[j];
  }

  /** The first stale save repeats a folded turn, or loses the first turn appended since its load. */
  lemma StaleBreaks(s: Shared, base: SessionState, budget: int, p: Part)
    requires Good(s) && Stale(s, base, budget, p)
    ensures Broken(PartStep(s, base, budget, p))
  {
    hide Outcome, Cut;
    var mine, s', all := s.held[p.worker], PartStep(s, base, budget, p), Numbered(s.log);
    var k := Cut(budget, mine);
    assert ReadingFits(s, mine);
    SaveIsOutcome(s, base, budget, p.worker, p.reply);
    assert mine.entries[0] == all[mine.folded] && mine.entries[0] in mine.entries[..k];
    if mine.folded < |s.folded| {
      assert (s.folded + s.entries)[mine.folded] == all[mine.folded];
      Folds(s.folded, mine.entries[..k], mine.entries[0]);
    } else {
      LosesNext(s, s', mine, k, p.worker);
    }
  }

  lemma LosesNext(s: Shared, s': Shared, mine: Reading, k: nat, w: nat)
    requires Good(s) && ReadingFits(s, mine) && mine.folded == |s.folded| && mine.appended < |s.log|
              && 0 < k <= |mine.entries|
    requires s'.folded == s.folded + mine.entries[..k] && s'.entries == mine.entries[k..] && s'.log == s.log
    requires s'.held == s.held - {w}
    ensures Lost(s', (mine.appended, s.log[mine.appended]))
  {
    var all, e := Numbered(s.log), (mine.appended, s.log[mine.appended]);
    assert s'.folded == all[..mine.folded + k] by {
      assert s.folded == (s.folded + s.entries)[..|s.folded|];
      assert mine.entries[..k] == all[mine.folded..mine.folded + k];
    }
    assert s'.entries == all[mine.folded + k..mine.appended];
    forall v | v in s'.held && e in s'.held[v].entries ensures s'.held[v].entries[0] in s'.folded {
      var other := s.held[v];
      assert ReadingFits(s, other);
      var i :| 0 <= i < |other.entries| && other.entries[i] == e;
      assert other.entries[0] == all[other.folded] == s'.folded[other.folded];
    }
  }

  lemma RepeatsStep(s: Shared, base: SessionState, budget: int, p: Part)
    requires !NoRepeats(s.folded)
    ensures !NoRepeats(PartStep(s, base, budget, p).folded)
  {
    hide Outcome, Cut, NoRepeats;
    if p.Saves? && p.worker in s.held {
      RepeatsStay(s.folded, s.held[p.worker].entries[..Cut(budget, s.held[p.worker])]);
    }
  }

  lemma LostStep(s: Shared, base: SessionState, budget: int, p: Part, e: (nat, Turn))
    requires Lost(s, e)
    ensures Lost(PartStep(s, base, budget, p), e) || !NoRepeats(PartStep(s, base, budget, p).folded)
  {
    hide Outcome, Cut, NoRepeats;
    if p.Saves? && p.worker in s.held && Outcome(base, budget, s.held[p.worker], p.reply).Some? {
      var mine := s.held[p.worker];
      var k := Cut(budget, mine);
      SaveIsOutcome(s, base, budget, p.worker, p.reply);
      assert mine.entries == mine.entries[..k] + mine.entries[k..];
      if e in mine.entries {
        assert mine.entries[..k][0] == mine.entries[0];
        Folds(s.folded, mine.entries[..k], mine.entries[0]);
      }
    }
  }

  lemma BrokenStep(s: Shared, base: SessionState, budget: int, p: Part)
    requires Broken(s)
    ensures Broken(PartStep(s, base, budget, p))
  {
    hide PartStep, NoRepeats, Lost;
    if !NoRepeats(s.folded) {
      RepeatsStep(s, base, budget, p);
    } else {
      var e :| Lost(s, e);
      LostStep(s, base, budget, p, e);
    }
  }

  // ---- Whole runs ----

  lemma GoodStep(s: Shared, base: SessionState, budget: int, p: Part)
    requires Good(s) && !Stale(s, base, budget, p)
    ensures Good(PartStep(s, base, budget, p))
  {
    hide Good, PartStep, Stale;
    match p
    case Appends(turn) => AppendGood(s, base, budget, turn);
    case Loads(w) => LoadGood(s, base, budget, w);
    case Saves(w, reply) => SaveGood(s, base, budget, p);
  }

  lemma {:induction false} RunIsGoodOrBroken(base: SessionState, budget: int, run: seq<Part>)
    ensures var s := AfterParts(Opening(base), base, budget, run);
            if NoneStale(Opening(base), base, budget, run) then Good(s) else Broken(s)
  {
    if run == [] {
      assert [] + Numbered(base.workingBuffer) == Numbered(base.workingBuffer);
    } else {
      hide Good, Broken, PartStep, Stale, Opening;
      var front, p := run[..|run| - 1], run[|run| - 1];
      RunIsGoodOrBroken(base, budget, front);
      var s := AfterParts(Opening(base), base, budget, front);
      if !NoneStale(Opening(base), base, budget, front) {
        BrokenStep(s, base, budget, p);
      } else if Stale(s, base, budget, p) {
        StaleBreaks(s, base, budget, p);
      } else {
        GoodStep(s, base, budget, p);
      }
    }
  }

  /**
   However appends and any number of rollovers of a session overlap, and however their summaries turn out: every turn is
   folded away exactly once or still in the buffer, in order, if and only if no rollover saved over turns that were
   appended, or folded away by another one, since it loaded.
   */
  lemma RolloversConserveIff(base: SessionState, budget: int, run: seq<Part>)
    ensures Whole(AfterParts(Opening(base), base, budget, run)) <==> NoneStale(Opening(base), base, budget, run)
  {
    hide Whole, Broken, NoneStale, AfterParts, Opening;
    RunIsGoodOrBroken(base, budget, run);
    var s := AfterParts(Opening(base), base, budget, run);
    if Whole(s) {
      WholeIsNotBroken(s);
      NotBroken(s);
    }
  }
}
