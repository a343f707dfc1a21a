/**
 One conversation over whole runs of turns and rollovers: what the loop persists (agent/loop.py), what rollovers fold
 away (memory/working.py), and what every stored buffer and every assembled message list keeps.
 */
module Conversations {
  import opened Types
  import opened Text
  import opened Sequences
  import opened OrderedDict
  import opened ToolExecution
  import opened ToolFanOut
  import opened FanOutHistory
  import opened Sessions
  import opened WorkingMemories
  import opened Budgeter
  import opened ContextBuilding

  // ---- Persisting a turn ----

  /** The turns one run of the loop appends: the user's, the final text's if there is any, and the tool turns. */
  function RecordOf(userMessage: string, texts: seq<string>, toolTurns: seq<Turn>, at: real): (turns: seq<Turn>)
    ensures turns != [] && turns[0].role == User
  {
    var finalText := Strip(Join(texts, "\n"));
    [Turn(User, userMessage, [], None, at)]
    + (if finalText != "" then [Turn(Assistant, finalText, [], None, at)] else [])
    + toolTurns
  }

  /** Appending turns one by one; the first failure stops it. */
  function AppendAll(d: Table, id: string, turns: seq<Turn>, now: real): (Table, bool) {
    if turns == [] then (d, true)
    else
      var (d', ok) := AppendAll(d, id, turns[..|turns| - 1], now);
      if ok then AppendStep(d', id, turns[|turns| - 1], now) else (d', false)
  }

  class Agent {
    const store: InMemorySessionStore

    constructor (store: InMemorySessionStore)
      ensures this.store == store
    {
      this.store := store;
    }

    /** Appends a finished turn to working memory; false stands for the missing-session error. */
    method Persist(id: string, userMessage: string, texts: seq<string>, toolTurns: seq<Turn>, now: real)
        returns (ok: bool)
      modifies store
      ensures (store.sessions, ok)
                == AppendAll(old(store.sessions), id, RecordOf(userMessage, texts, toolTurns, now), now)
    {
      hide AppendAll, AppendStep;
      ghost var d := store.sessions;
      ghost var turns := RecordOf(userMessage, texts, toolTurns, now);
      NothingAppended(d, id, turns, now);
      AppendedNext(d, id, turns, 0, now);
      ok := store.AppendTurn(id, Turn(User, userMessage, [], None, now), now);
      ghost var n := 1;
      if !ok {
        FailureStays(d, id, turns, 1, now);
        return;
      }
      var finalText := Strip(Join(texts, "\n"));
      if finalText != "" {
        AppendedNext(d, id, turns, 1, now);
        ok := store.AppendTurn(id, Turn(Assistant, finalText, [], None, now), now);
        n := 2;
        if !ok {
          FailureStays(d, id, turns, 2, now);
          return;
        }
      }
      for k := 0 to |toolTurns|
        invariant n == |turns| - |toolTurns|
        invariant ok && (store.sessions, ok) == AppendAll(d, id, turns[..n + k], now)
      {
        assert turns[n + k] == toolTurns[k];
        AppendedNext(d, id, turns, n + k, now);
        ok := store.AppendTurn(id, toolTurns[k], now);
        if !ok {
          FailureStays(d, id, turns, n + k + 1, now);
          return;
        }
      }
      assert turns[..n + |toolTurns|] == turns;
    }
  }

  lemma NothingAppended(d: Table, id: string, turns: seq<Turn>, now: real)
    ensures AppendAll(d, id, turns[..0], now) == (d, true)
  {
  }

  lemma AppendedNext(d: Table, id: string, turns: seq<Turn>, n: nat, now: real)
    requires n < |turns| && AppendAll(d, id, turns[..n], now).1
    ensures AppendAll(d, id, turns[..n + 1], now) == AppendStep(AppendAll(d, id, turns[..n], now).0, id, turns[n], now)
  {
    assert turns[..n + 1][..n] == turns[..n];
  }

  lemma {:induction false} FailureStays(d: Table, id: string, turns: seq<Turn>, n: nat, now: real)
    requires n <= |turns| && !AppendAll(d, id, turns[..n], now).1
    ensures AppendAll(d, id, turns, now) == AppendAll(d, id, turns[..n], now)
    decreases |turns|
  {
    if n == |turns| {
      assert turns[..n] == turns;
    } else {
      var front := turns[..|turns| - 1];
      assert front[..n] == turns[..n];
      FailureStays(d, id, front, n, now);
    }
  }

  /** Appending to a session that exists always succeeds, adds the turns at the end of its buffer, and unmarks it. */
  lemma {:induction false} AppendAllAdds(d: Table, id: string, turns: seq<Turn>, now: real)
    requires Get(d, id).Some? && turns != []
    ensures AppendAll(d, id, turns, now).1
    ensures var state := Get(d, id).value;
            Get(AppendAll(d, id, turns, now).0, id) ==
            Some(Touched(state.(workingBuffer := state.workingBuffer + turns), now))
    decreases |turns|
  {
    var front, last := turns[..|turns| - 1], turns[|turns| - 1];
    SplitLast(turns);
    var state := Get(d, id).value;
    var s1 := if front == [] then state else Touched(state.(workingBuffer := state.workingBuffer + front), now);
    if front != [] {
      AppendAllAdds(d, id, front, now);
    }
    var d1 := AppendAll(d, id, front, now).0;
    assert Get(d1, id) == Some(s1);
    PutProperties(d1, id, Touched(s1.(workingBuffer := s1.workingBuffer + [last]), now), id);
    AppendAssociative(state.workingBuffer, front, [last]);
  }

  // ---- Runs of one conversation ----

  /**
   How a turn's record reaches the store. When persisting raises after its first `first` appends, the loop's handler
   persists the record again, and that may itself stop after `second`.
   */
  datatype Writes = Once | Again(first: nat, second: nat)

  datatype ConversationEvent =
    | TurnEnds(userMessage: string, texts: seq<string>, batches: seq<(seq<ToolCall>, seq<Outcome>)>, at: real,
        writes: Writes)
    | Rollover(reply: Reply)

  ghost predicate WellFormed(e: ConversationEvent) {
    e.TurnEnds? ==> forall b :: b in e.batches ==> |b.0| == |b.1|
  }

  /** The tool turns of one run of the loop: those of each batch of calls, in order. */
  function ToolTurns(batches: seq<(seq<ToolCall>, seq<Outcome>)>): seq<Turn>
    requires forall b :: b in batches ==> |b.0| == |b.1|
  {
    if batches == [] then [] else TurnsFor(batches[0].0, batches[0].1) + ToolTurns(batches[1..])
  }

  function Upto<T>(s: seq<T>, n: nat): seq<T> {
    if n < |s| then s[..n] else s
  }

  function Appended(record: seq<Turn>, writes: Writes): seq<Turn> {
    match writes
    case Once => record
    case Again(first, second) => Upto(record, first) + Upto(record, second)
  }

  /** The stored state with its history: every turn ever appended, and what each successful rollover folded away. */
  datatype Ledger = Ledger(state: SessionState, appended: seq<Turn>, folds: seq<seq<Turn>>)

  function Happens(l: Ledger, budget: int, e: ConversationEvent): Ledger
    requires WellFormed(e)
  {
    match e
    case TurnEnds(userMessage, texts, batches, at, writes) =>
      var turns := Appended(RecordOf(userMessage, texts, ToolTurns(batches), at), writes);
      l.(state := l.state.(workingBuffer := l.state.workingBuffer + turns), appended := l.appended + turns)
    case Rollover(reply) =>
      match Rolled(l.state, budget, reply)
      case None => l
      case Some(state) => l.(state := state, folds := l.folds + [Evicted(l.state.workingBuffer, budget)])
  }

  ghost function History(l: Ledger, budget: int, run: seq<ConversationEvent>): Ledger
    requires forall e :: e in run ==> WellFormed(e)
  {
    if run == [] then l else Happens(History(l, budget, run[..|run| - 1]), budget, run[|run| - 1])
  }

  ghost predicate Fresh(l: Ledger) {
    l.state.workingBuffer == [] && l.appended == [] && l.folds == []
  }

  function Flatten<T>(parts: seq<seq<T>>): seq<T> {
    if parts == [] then [] else Flatten(parts[..|parts| - 1]) + parts[|parts| - 1]
  }

  /** The transcript lines that the summarizer was given, rollover by rollover. */
  function FoldedLines(folds: seq<seq<Turn>>): seq<string> {
    if folds == [] then [] else FoldedLines(folds[..|folds| - 1]) + SpokenLines(folds[|folds| - 1])
  }

  ghost predicate Conserved(l: Ledger) {
    && Flatten(l.folds) + l.state.workingBuffer == l.appended
    && (forall f :: f in l.folds ==> Join(SpokenLines(f), "\n") != "")
  }

  lemma FlattenOne<T>(parts: seq<seq<T>>, part: seq<T>)
    ensures Flatten(parts + [part]) == Flatten(parts) + part
  {
    assert (parts + [part])[..|parts|] == parts;
  }

  /** Every line of every evicted turn is given to the summarizer exactly once, in order. */
  lemma {:induction false} FoldedOnce(folds: seq<seq<Turn>>)
    ensures FoldedLines(folds) == SpokenLines(Flatten(folds))
  {
    if folds != [] {
      FoldedOnce(folds[..|folds| - 1]);
      SpokenAppend(Flatten(folds[..|folds| - 1]), folds[|folds| - 1]);
    }
  }

  lemma ConservedStep(l: Ledger, budget: int, e: ConversationEvent)
    requires Conserved(l) && WellFormed(e)
    ensures Conserved(Happens(l, budget, e))
  {
    match e
    case TurnEnds(userMessage, texts, batches, at, writes) =>
      var turns := Appended(RecordOf(userMessage, texts, ToolTurns(batches), at), writes);
      AppendAssociative(Flatten(l.folds), l.state.workingBuffer, turns);
    case Rollover(reply) =>
      if Rolled(l.state, budget, reply).Some? {
        RollConserves(l, budget, reply);
      }
  }

  lemma RollConserves(l: Ledger, budget: int, reply: Reply)
    requires Conserved(l) && Rolled(l.state, budget, reply).Some?
    ensures Conserved(Happens(l, budget, Rollover(reply)))
  {
    hide KeepFrom, SpokenLines, Join, Flatten;
    var buffer := l.state.workingBuffer;
    var evicted, kept := Evicted(buffer, budget), Kept(buffer, budget);
    assert evicted + kept == buffer;
    FlattenOne(l.folds, evicted);
    AppendAssociative(Flatten(l.folds), evicted, kept);
  }

  /**
   Over every run in which rollovers do not overlap turns, all turns ever appended are the turns that successful
   rollovers evicted followed by the current buffer, in order; and every text evicted went to the summarizer in exactly
   one successful rollover, which had something to summarize.
   */
  lemma {:induction false} TurnsConserved(l: Ledger, budget: int, run: seq<ConversationEvent>)
    requires Fresh(l) && forall e :: e in run ==> WellFormed(e)
    ensures Conserved(History(l, budget, run))
    ensures FoldedLines(History(l, budget, run).folds) == SpokenLines(Flatten(History(l, budget, run).folds))
  {
    if run != [] {
      TurnsConserved(l, budget, run[..|run| - 1]);
      ConservedStep(History(l, budget, run[..|run| - 1]), budget, run[|run| - 1]);
    }
    FoldedOnce(History(l, budget, run).folds);
  }

  /**
   A rollover that loaded `snapshot` and saves while the store holds `current` overwrites it. Conservation survives if
   and only if the buffer did not change in between; turns that were appended meanwhile are the ones lost.
   */
  lemma OverlapConservesIff(l: Ledger, snapshot: SessionState, budget: int, reply: Reply, late: seq<Turn>)
    requires Conserved(l) && Rolled(snapshot, budget, reply).Some?
    ensures var after := l.(state := Rolled(snapshot, budget, reply).value,
                            folds := l.folds + [Evicted(snapshot.workingBuffer, budget)]);
            && (Conserved(after) <==> l.state.workingBuffer == snapshot.workingBuffer)
            && (l.state.workingBuffer == snapshot.workingBuffer + late ==>
                  l.appended == Flatten(after.folds) + after.state.workingBuffer + late)
  {
    hide KeepFrom, SpokenLines, Join, Flatten;
    var evicted, kept := Evicted(snapshot.workingBuffer, budget), Kept(snapshot.workingBuffer, budget);
    assert evicted + kept == snapshot.workingBuffer;
    FlattenOne(l.folds, evicted);
    AppendAssociative(Flatten(l.folds), evicted, kept);
    SamePrefix(Flatten(l.folds), snapshot.workingBuffer, l.state.workingBuffer);
    AppendAssociative(Flatten(l.folds), snapshot.workingBuffer, late);
  }

  lemma SamePrefix<T>(front: seq<T>, a: seq<T>, b: seq<T>)
    ensures front + a == front + b <==> a == b
  {
    if front + a == front + b {
      assert a == (front + a)[|front|..];
      assert b == (front + b)[|front|..];
    }
  }

  /**
   A record written again after a failure is in the buffer exactly once if and only if one of the two tries wrote
   nothing.
   */
  lemma ExactlyOnceIff(record: seq<Turn>, first: nat, second: nat)
    requires record != [] && record[0].role == User && first <= |record| && second <= |record|
    requires forall i :: 1 <= i < |record| ==> record[i].role != User
    ensures Appended(record, Again(first, second)) == record
            <==> (first == 0 && second == |record|) || (first == |record| && second == 0)
  {
    var twice := Appended(record, Again(first, second));
    if first > 0 && second > 0 {
      assert twice[first] == record[0];
    }
  }

  // ---- Tool results stay with their calls ----

  /** A tool turn the loop can have stored, directly after the turn that holds its call. */
  predicate Answers(call: Turn, result: Turn) {
    && call.role == Assistant && call.text == "" && |call.toolCalls| == 1
    && result.toolCallId == Some(call.toolCalls[0].id)
    && |result.text| <= 513
  }

  ghost predicate Paired(buffer: seq<Turn>) {
    forall i :: 0 <= i < |buffer| && buffer[i].role == Role.Tool ==> i > 0 && Answers(buffer[i - 1], buffer[i])
  }

  lemma PairedAppend(a: seq<Turn>, b: seq<Turn>)
    requires Paired(a) && Paired(b)
    ensures Paired(a + b)
  {
    var c := a + b;
    forall i | 0 <= i < |c| && c[i].role == Role.Tool ensures i > 0 && Answers(c[i - 1], c[i]) {
      if i >= |a| {
        assert b[i - |a|] == c[i];
        assert b[i - |a| - 1] == c[i - 1];
      }
    }
  }

  lemma PairedPrefix(a: seq<Turn>, n: nat)
    requires Paired(a)
    ensures Paired(Upto(a, n))
  {
  }

  /** A part of the buffer's end is paired exactly when it does not begin with a tool turn. */
  lemma PairedSuffix(a: seq<Turn>, k: nat)
    requires Paired(a) && k <= |a|
    ensures Paired(a[k..]) <==> k == |a| || a[k].role != Role.Tool
  {
    var s := a[k..];
    if k < |a| {
      assert s[0] == a[k];
    }
    assert forall i {:trigger s[i]} :: 0 < i < |s| ==> s[i] == a[k + i] && s[i - 1] == a[k + i - 1];
  }

  lemma {:induction false} BatchPaired(calls: seq<ToolCall>, outcomes: seq<Outcome>)
    requires |calls| == |outcomes|
    ensures Paired(TurnsFor(calls, outcomes))
    ensures forall t :: t in TurnsFor(calls, outcomes) ==> t.role != User
  {
    if calls != [] {
      BatchPaired(calls[1..], outcomes[1..]);
      PairedAppend(SlotOf(calls[0], outcomes[0]).turns, TurnsFor(calls[1..], outcomes[1..]));
    }
  }

  lemma {:induction false} ToolTurnsPaired(batches: seq<(seq<ToolCall>, seq<Outcome>)>)
    requires forall b :: b in batches ==> |b.0| == |b.1|
    ensures Paired(ToolTurns(batches))
    ensures forall t :: t in ToolTurns(batches) ==> t.role != User
  {
    if batches != [] {
      ToolTurnsPaired(batches[1..]);
      BatchPaired(batches[0].0, batches[0].1);
      PairedAppend(TurnsFor(batches[0].0, batches[0].1), ToolTurns(batches[1..]));
    }
  }

  lemma RecordPaired(userMessage: string, texts: seq<string>, batches: seq<(seq<ToolCall>, seq<Outcome>)>, at: real,
      writes: Writes)
    requires forall b :: b in batches ==> |b.0| == |b.1|
    ensures var record := RecordOf(userMessage, texts, ToolTurns(batches), at);
            && Paired(Appended(record, writes))
            && forall i :: 1 <= i < |record| ==> record[i].role != User
  {
    ToolTurnsPaired(batches);
    var record := RecordOf(userMessage, texts, ToolTurns(batches), at);
    var opening := record[..|record| - |ToolTurns(batches)|];
    assert record == opening + ToolTurns(batches);
    PairedAppend(opening, ToolTurns(batches));
    if writes.Again? {
      PairedPrefix(record, writes.first);
      PairedPrefix(record, writes.second);
      PairedAppend(Upto(record, writes.first), Upto(record, writes.second));
    }
  }

  /**
   The rollover never begins the kept part with a tool turn: its call costs nothing, and it fits any budget of 128.
   */
  lemma {:induction false} KeepFromPaired(buffer: seq<Turn>, budget: int, at: nat)
    requires Paired(buffer) && budget >= 128 && at <= |buffer|
    requires at < |buffer| && buffer[at].role == Role.Tool ==> Tokens(buffer[at..]) <= budget
    ensures var k := KeepFrom(buffer, budget, at);
            k < |buffer| && buffer[k].role == Role.Tool ==> k == 0
    decreases at
  {
    if at > 0 {
      OneMore(buffer, at - 1);
      if at == |buffer| {
        assert buffer[at..] == [];
        if buffer[at - 1].role == Role.Tool {
          assert Answers(buffer[at - 2], buffer[at - 1]);
          assert Estimate(buffer[at - 1].text) <= 128;
        }
      }
      if at < |buffer| && Tokens(buffer[at..]) + Estimate(buffer[at - 1].text) > budget {
      } else {
        KeepFromPaired(buffer, budget, at - 1);
      }
    }
  }

  lemma KeptPaired(buffer: seq<Turn>, budget: int)
    requires Paired(buffer) && budget >= 128
    ensures Paired(Kept(buffer, budget))
  {
    KeepFromPaired(buffer, budget, |buffer|);
    PairedSuffix(buffer, KeepFrom(buffer, budget, |buffer|));
  }

  /** The allocation never does either, whatever remains for the buffer. */
  lemma {:induction false} NewestFromPaired(buffer: seq<Turn>, remaining: int, at: nat)
    requires Paired(buffer) && at <= |buffer|
    requires at < |buffer| && buffer[at].role == Role.Tool ==> Tokens(buffer[at..]) <= remaining
    ensures var k := NewestFrom(buffer, remaining, at);
            k < |buffer| && buffer[k].role == Role.Tool ==> k == 0
    decreases at
  {
    if at > 0 {
      OneMore(buffer, at - 1);
      if Estimate(buffer[at - 1].text) + Tokens(buffer[at..]) <= remaining {
        NewestFromPaired(buffer, remaining, at - 1);
      }
    }
  }

  lemma AllocatedPaired(inputs: BudgetInputs, budget: int)
    requires Paired(inputs.buffer) && Allocation(inputs, budget).Some?
    ensures Paired(Allocation(inputs, budget).value.buffer)
  {
    var r := Allocation(inputs, budget).value;
    var r2 := budget - Tier0(inputs) - Estimate(r.factualBlock) - Estimate(r.summary);
    NewestFromPaired(inputs.buffer, r2, |inputs.buffer|);
    PairedSuffix(inputs.buffer, NewestFrom(inputs.buffer, r2, |inputs.buffer|));
  }

  /** Every tool result message comes directly after an assistant message that holds its call. */
  ghost predicate ResultsFollowCalls(messages: seq<Message>) {
    forall i :: 0 <= i < |messages| && messages[i].ToolResultMessage? ==>
      && i > 0 && messages[i - 1].AssistantToolCalls?
      && exists c :: c in messages[i - 1].calls && c.id == messages[i].callId
  }

  lemma AssembledFollow(cfg: AgentConfig, s: Sources, r: BudgetResult)
    requires Paired(r.buffer)
    ensures ResultsFollowCalls(Assembled(cfg, s, r))
  {
    var messages := Assembled(cfg, s, r);
    forall i | 0 <= i < |messages| && messages[i].ToolResultMessage?
      ensures i > 0 && messages[i - 1].AssistantToolCalls?
      ensures exists c :: c in messages[i - 1].calls && c.id == messages[i].callId
    {
      assert messages[i] == TurnToMessage(r.buffer[i - 1]);
      assert Answers(r.buffer[i - 2], r.buffer[i - 1]);
      assert messages[i - 1] == TurnToMessage(r.buffer[i - 2]);
      assert r.buffer[i - 2].toolCalls[0] in messages[i - 1].calls;
    }
  }

  lemma PairedStep(l: Ledger, budget: int, e: ConversationEvent)
    requires Paired(l.state.workingBuffer) && WellFormed(e) && budget >= 128
    ensures Paired(Happens(l, budget, e).state.workingBuffer)
  {
    match e
    case TurnEnds(userMessage, texts, batches, at, writes) =>
      RecordPaired(userMessage, texts, batches, at, writes);
      PairedAppend(l.state.workingBuffer, Appended(RecordOf(userMessage, texts, ToolTurns(batches), at), writes));
    case Rollover(reply) => KeptPaired(l.state.workingBuffer, budget);
  }

  lemma {:induction false} PairedHistory(l: Ledger, budget: int, run: seq<ConversationEvent>)
    requires Fresh(l) && budget >= 128 && forall e :: e in run ==> WellFormed(e)
    ensures Paired(History(l, budget, run).state.workingBuffer)
  {
    if run != [] {
      PairedHistory(l, budget, run[..|run| - 1]);
      PairedStep(History(l, budget, run[..|run| - 1]), budget, run[|run| - 1]);
    }
  }

  /**
   Over every run of turns and rollovers that do not overlap, even of turns whose persistence failed partway, with a
   buffer budget of at least 128 tokens: every context built from the stored buffer has each tool result directly after
   the assistant message that holds its call.
   */
  lemma ToolResultsStayWithCalls(l: Ledger, budget: int, run: seq<ConversationEvent>, cfg: AgentConfig, s: Sources,
      tokens: int)
    requires Fresh(l) && budget >= 128 && forall e :: e in run ==> WellFormed(e)
    requires s.buffer == History(l, budget, run).state.workingBuffer
    requires Allocation(InputsOf(cfg, s), tokens).Some?
    ensures ResultsFollowCalls(Assembled(cfg, s, Allocation(InputsOf(cfg, s), tokens).value))
  {
    PairedHistory(l, budget, run);
    AllocatedPaired(InputsOf(cfg, s), tokens);
    AssembledFollow(cfg, s, Allocation(InputsOf(cfg, s), tokens).value);
  }

  function OneCall(call: ToolCall, observation: string): ConversationEvent {
    TurnEnds("hi", [], [([call], [Returned(true, observation, 0.0)])], 0.0, Once)
  }

  /** The buffer after a turn of one call: what the user said, the call, and its result. */
  lemma OneCallBuffer(l: Ledger, budget: int, call: ToolCall, observation: string)
    requires Fresh(l) && |observation| > DISPLAY_LIMIT
    ensures WellFormed(OneCall(call, observation))
    ensures var buffer := Happens(l, budget, OneCall(call, observation)).state.workingBuffer;
            && |buffer| == 3 && buffer[0].role == User && buffer[0].text != "" && buffer[1].text == ""
            && buffer[2].role == Role.Tool && |buffer[2].text| == 513
    ensures Happens(l, budget, OneCall(call, observation)).state.rollingSummary == l.state.rollingSummary
  {
    var outcome := Returned(true, observation, 0.0);
    var batches := [([call], [outcome])];
    assert TurnsFor([call], [outcome]) == SlotOf(call, outcome).turns by {
      assert [call][1..] == [] && [outcome][1..] == [];
    }
    assert ToolTurns(batches) == SlotOf(call, outcome).turns by {
      assert batches[1..] == [];
    }
    var buffer := RecordOf("hi", [], ToolTurns(batches), 0.0);
    assert buffer == [buffer[0], buffer[1], buffer[2]];
  }

  lemma RolledAlone(l: Ledger, budget: int)
    requires l.state.rollingSummary != "rolled" && budget < 128
    requires var buffer := l.state.workingBuffer;
             && |buffer| == 3 && buffer[0].role == User && buffer[0].text != "" && buffer[1].text == ""
             && buffer[2].role == Role.Tool && |buffer[2].text| == 513
    ensures Happens(l, budget, Rollover(Summary("rolled"))).state.workingBuffer == [l.state.workingBuffer[2]]
  {
    hide KeepFrom, SpokenLines, Join;
    var buffer := l.state.workingBuffer;
    ResultAloneIsKept(buffer, budget);
    LinesOfOpening(buffer[0], buffer[1]);
    assert Evicted(buffer, budget) == [buffer[0], buffer[1]];
  }

  /** 128 is the right bound: with any smaller budget there is a run after which a tool result has lost its call. */
  lemma SmallBudgetSeparates(l: Ledger, budget: int, call: ToolCall, observation: string)
    requires Fresh(l) && l.state.rollingSummary != "rolled" && budget < 128 && |observation| > DISPLAY_LIMIT
    ensures var run := [OneCall(call, observation), Rollover(Summary("rolled"))];
            && (forall e :: e in run ==> WellFormed(e))
            && !Paired(History(l, budget, run).state.workingBuffer)
  {
    hide Happens, WellFormed, OneCall;
    var e1, e2 := OneCall(call, observation), Rollover(Summary("rolled"));
    var run := [e1, e2];
    assert WellFormed(e2) by { RolloversWellFormed(Summary("rolled")); }
    OneCallBuffer(l, budget, call, observation);
    RolledAlone(Happens(l, budget, e1), budget);
    assert run[..1] == [e1] && [e1][..0] == [];
    assert History(l, budget, [e1]) == Happens(l, budget, e1);
    assert History(l, budget, run) == Happens(Happens(l, budget, e1), budget, e2);
    assert History(l, budget, run).state.workingBuffer[0].role == Role.Tool;
  }

  lemma RolloversWellFormed(reply: Reply)
    ensures WellFormed(Rollover(reply))
  {
  }

  lemma ResultAloneIsKept(buffer: seq<Turn>, budget: int)
    requires |buffer| == 3 && budget < 128 && |buffer[2].text| == 513
    ensures KeepFrom(buffer, budget, 3) == 2
  {
    assert buffer[3..] == [];
    OneMore(buffer, 2);
  }

  lemma LinesOfOpening(user: Turn, asked: Turn)
    requires user.role == User && user.text != "" && asked.text == ""
    ensures Join(SpokenLines([user, asked]), "\n") != ""
  {
    assert [user, asked][1..] == [asked] && [asked][1..] == [];
    assert SpokenLines([asked]) == [];
  }
}
