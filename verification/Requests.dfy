/**
 What the model is sent over whole histories of a conversation: persisting (agent/loop.py), rollovers
 (memory/working.py), budgeting and assembly (agent/budgeter.py, agent/context.py) and the loop's own exchanges
 together.
 */
module Requests {
  import opened Types
  import opened Text
  import opened ToolFanOut
  import opened FanOutHistory
  import opened WorkingMemories
  import opened Budgeter
  import opened ContextBuilding
  import opened Conversations
  import opened TurnLoop

  /** Every assistant turn with tool calls holds one call and is directly followed by its result. */
  ghost predicate CallsFollowed(buffer: seq<Turn>) {
    forall i :: 0 <= i < |buffer| && buffer[i].role == Assistant && buffer[i].toolCalls != [] ==>
      i + 1 < |buffer| && buffer[i + 1].role == Role.Tool && Conversations.Answers(buffer[i], buffer[i + 1])
  }

  lemma FollowedAppend(a: seq<Turn>, b: seq<Turn>)
    requires CallsFollowed(a) && CallsFollowed(b)
    ensures CallsFollowed(a + b)
  {
    var c := a + b;
    forall i | 0 <= i < |c| && c[i].role == Assistant && c[i].toolCalls != []
      ensures i + 1 < |c| && c[i + 1].role == Role.Tool && Conversations.Answers(c[i], c[i + 1])
    {
      if i < |a| {
        assert c[i] == a[i] && c[i + 1] == a[i + 1];
      } else {
        assert c[i] == b[i - |a|] && c[i + 1] == b[i - |a| + 1];
      }
    }
  }

  lemma FollowedSuffix(a: seq<Turn>, k: nat)
    requires CallsFollowed(a) && k <= |a|
    ensures CallsFollowed(a[k..])
  {
    var s := a[k..];
    forall i | 0 <= i < |s| && s[i].role == Assistant && s[i].toolCalls != []
      ensures i + 1 < |s| && s[i + 1].role == Role.Tool && Conversations.Answers(s[i], s[i + 1])
    {
      assert s[i] == a[k + i] && s[i + 1] == a[k + i + 1];
    }
  }

  lemma {:induction false} BatchFollowed(calls: seq<ToolCall>, outcomes: seq<Outcome>)
    requires |calls| == |outcomes|
    ensures CallsFollowed(TurnsFor(calls, outcomes))
  {
    if calls != [] {
      BatchFollowed(calls[1..], outcomes[1..]);
      FollowedAppend(SlotOf(calls[0], outcomes[0]).turns, TurnsFor(calls[1..], outcomes[1..]));
    }
  }

  lemma {:induction false} ToolTurnsFollowed(batches: seq<(seq<ToolCall>, seq<Outcome>)>)
    requires forall b :: b in batches ==> |b.0| == |b.1|
    ensures CallsFollowed(ToolTurns(batches))
  {
    if batches != [] {
      ToolTurnsFollowed(batches[1..]);
      BatchFollowed(batches[0].0, batches[0].1);
      FollowedAppend(TurnsFor(batches[0].0, batches[0].1), ToolTurns(batches[1..]));
    }
  }

  lemma RecordFollowed(userMessage: string, texts: seq<string>, batches: seq<(seq<ToolCall>, seq<Outcome>)>, at: real)
    requires forall b :: b in batches ==> |b.0| == |b.1|
    ensures CallsFollowed(RecordOf(userMessage, texts, ToolTurns(batches), at))
  {
    ToolTurnsFollowed(batches);
    var record := RecordOf(userMessage, texts, ToolTurns(batches), at);
    var opening := record[..|record| - |ToolTurns(batches)|];
    assert record == opening + ToolTurns(batches);
    FollowedAppend(opening, ToolTurns(batches));
  }

  /** A cut after n appends does not come right behind a call turn. */
  predicate CutsWell(record: seq<Turn>, n: nat) {
    n == 0 || n >= |record| || !(record[n - 1].role == Assistant && record[n - 1].toolCalls != [])
  }

  /**
   A persist that stops after n appends leaves a call without its result if and only if the n-th turn is a call turn:
   the one family of partial writes after which a provider is sent an unanswered call.
   */
  lemma PartialRecordFollowedIff(record: seq<Turn>, n: nat)
    requires CallsFollowed(record)
    ensures CallsFollowed(Upto(record, n)) <==>
              CutsWell(record, n)
  {
    if 0 < n < |record| {
      var part := record[..n];
      if !(record[n - 1].role == Assistant && record[n - 1].toolCalls != []) {
        forall i | 0 <= i < n && part[i].role == Assistant && part[i].toolCalls != []
          ensures i + 1 < n && part[i + 1].role == Role.Tool && Conversations.Answers(part[i], part[i + 1])
        {
          assert part[i] == record[i];
          assert i + 1 < n ==> part[i + 1] == record[i + 1];
        }
      } else {
        assert part[n - 1] == record[n - 1];
      }
    }
  }

  /** However often the turn was persisted, and however far each time, no call turn was left without its result. */
  ghost predicate WrittenWell(e: ConversationEvent)
    requires WellFormed(e)
  {
    e.TurnEnds? && e.writes.Again? ==>
      var record := RecordOf(e.userMessage, e.texts, ToolTurns(e.batches), e.at);
      CutsWell(record, e.writes.first) && CutsWell(record, e.writes.second)
  }

  ghost predicate CleanRun(run: seq<ConversationEvent>) {
    forall i :: 0 <= i < |run| ==> WellFormed(run[i]) && WrittenWell(run[i])
  }

  lemma WritesFollowed(record: seq<Turn>, writes: Writes)
    requires CallsFollowed(record)
    requires writes.Again? ==> CutsWell(record, writes.first) && CutsWell(record, writes.second)
    ensures CallsFollowed(Appended(record, writes))
  {
    hide CallsFollowed, CutsWell;
    match writes
    case Once =>
    case Again(first, second) =>
      PartialRecordFollowedIff(record, first);
      PartialRecordFollowedIff(record, second);
      FollowedAppend(Upto(record, first), Upto(record, second));
  }

  lemma FollowedStep(l: Ledger, budget: int, e: ConversationEvent)
    requires CallsFollowed(l.state.workingBuffer) && WellFormed(e) && WrittenWell(e)
    ensures CallsFollowed(Happens(l, budget, e).state.workingBuffer)
  {
    hide CallsFollowed;
    var buffer := l.state.workingBuffer;
    match e
    case TurnEnds(userMessage, texts, batches, at, writes) =>
      var record := RecordOf(userMessage, texts, ToolTurns(batches), at);
      RecordFollowed(userMessage, texts, batches, at);
      WritesFollowed(record, writes);
      FollowedAppend(buffer, Appended(record, writes));
    case Rollover(reply) => FollowedSuffix(buffer, KeepFrom(buffer, budget, |buffer|));
  }

  lemma {:induction false} FollowedHistory(l: Ledger, budget: int, run: seq<ConversationEvent>)
    requires Fresh(l) && CleanRun(run)
    ensures CallsFollowed(History(l, budget, run).state.workingBuffer)
  {
    if run != [] {
      FollowedHistory(l, budget, run[..|run| - 1]);
      FollowedStep(History(l, budget, run[..|run| - 1]), budget, run[|run| - 1]);
    }
  }

  // ---- From the buffer to the messages ----

  lemma TailPaired(buffer: seq<Turn>, k: nat)
    requires Paired(buffer) && 0 < k <= |buffer|
    requires k < |buffer| ==> !(buffer[k - 1].role == Assistant && buffer[k - 1].toolCalls != [])
    ensures Paired(buffer[k..])
  {
    PairedSuffix(buffer, k);
  }

  /** A turn holds at most one call. */
  ghost predicate SingleCalls(buffer: seq<Turn>) {
    forall i :: 0 <= i < |buffer| ==> |buffer[i].toolCalls| <= 1
  }

  /** A call turn at the head: answered when its result comes next and the rest is answered. */
  lemma CallHead(buffer: seq<Turn>)
    requires buffer != [] && Paired(buffer) && SingleCalls(buffer) && TurnToMessage(buffer[0]).AssistantToolCalls?
    ensures var answered := |buffer| > 1 && buffer[1].role == Role.Tool;
            && (WellAnswered(TurnsToMessages(buffer)) <==> answered && WellAnswered(TurnsToMessages(buffer[2..])))
            && (CallsFollowed(buffer) <==> answered && CallsFollowed(buffer[2..]))
            && (answered ==> Paired(buffer[2..]) && SingleCalls(buffer[2..]))
  {
    hide FirstAnswered, CallsFollowed, Paired, SingleCalls;
    var messages := TurnsToMessages(buffer);
    HeadAnsweredIff(buffer);
    assert messages[0] == TurnToMessage(buffer[0]) && |messages[0].calls| == 1;
    if |buffer| > 1 && buffer[1].role == Role.Tool {
      FollowedTail(buffer, 2);
      AfterResult(buffer);
      SinglesSuffix(buffer, 2);
      assert messages[2..] == TurnsToMessages(buffer[2..]);
    } else {
      HeadUnfollowed(buffer);
    }
  }

  lemma HeadUnfollowed(buffer: seq<Turn>)
    requires buffer != [] && buffer[0].role == Assistant && buffer[0].toolCalls != []
    requires !(|buffer| > 1 && buffer[1].role == Role.Tool)
    ensures !CallsFollowed(buffer)
  {
  }

  lemma AfterResult(buffer: seq<Turn>)
    requires Paired(buffer) && |buffer| > 1 && buffer[1].role == Role.Tool
    ensures Paired(buffer[2..])
  {
    assert |buffer| > 2 ==> buffer[2].role != Role.Tool;
    PairedSuffix(buffer, 2);
  }

  lemma PlainHead(buffer: seq<Turn>)
    requires buffer != [] && Paired(buffer) && SingleCalls(buffer) && !TurnToMessage(buffer[0]).AssistantToolCalls?
    ensures WellAnswered(TurnsToMessages(buffer)) <==> WellAnswered(TurnsToMessages(buffer[1..]))
    ensures CallsFollowed(buffer) <==> CallsFollowed(buffer[1..])
    ensures Paired(buffer[1..]) && SingleCalls(buffer[1..])
  {
    hide FirstAnswered, CallsFollowed, SingleCalls;
    var messages := TurnsToMessages(buffer);
    assert messages[0] == TurnToMessage(buffer[0]) && buffer[0].role != Role.Tool;
    FollowedTail(buffer, 1);
    TailPaired(buffer, 1);
    SinglesSuffix(buffer, 1);
    assert messages[1..] == TurnsToMessages(buffer[1..]);
  }

  lemma {:induction false} BufferAnsweredIff(buffer: seq<Turn>)
    requires Paired(buffer) && SingleCalls(buffer)
    ensures WellAnswered(TurnsToMessages(buffer)) <==> CallsFollowed(buffer)
    decreases |buffer|
  {
    if buffer != [] {
      hide FirstAnswered, CallsFollowed, Paired, SingleCalls, WellAnswered;
      if TurnToMessage(buffer[0]).AssistantToolCalls? {
        CallHead(buffer);
        if |buffer| > 1 && buffer[1].role == Role.Tool {
          BufferAnsweredIff(buffer[2..]);
        }
      } else {
        PlainHead(buffer);
        BufferAnsweredIff(buffer[1..]);
      }
    }
  }

  lemma SinglesSuffix(buffer: seq<Turn>, k: nat)
    requires SingleCalls(buffer) && k <= |buffer|
    ensures SingleCalls(buffer[k..])
  {
  }

  /** A call at the head is answered exactly when a result comes next. */
  lemma HeadAnsweredIff(buffer: seq<Turn>)
    requires buffer != [] && Paired(buffer) && SingleCalls(buffer) && TurnToMessage(buffer[0]).AssistantToolCalls?
    ensures buffer[0].role == Assistant && |buffer[0].toolCalls| == 1
    ensures FirstAnswered(TurnsToMessages(buffer)) <==> |buffer| > 1 && buffer[1].role == Role.Tool
  {
    var messages, calls := TurnsToMessages(buffer), buffer[0].toolCalls;
    assert messages[0] == TurnToMessage(buffer[0]) && |calls| == 1;
    if |buffer| > 1 {
      assert messages[1] == TurnToMessage(buffer[1]);
      if buffer[1].role == Role.Tool {
        assert Conversations.Answers(buffer[0], buffer[1]);
      }
    }
  }

  /** What comes before position k, nothing or a call with its result, decides nothing about the rest. */
  lemma FollowedTail(buffer: seq<Turn>, k: nat)
    requires Paired(buffer) && 1 <= k <= 2 && k <= |buffer|
    requires k == 1 ==> !(buffer[0].role == Assistant && buffer[0].toolCalls != [])
    requires k == 2 ==> buffer[1].role == Role.Tool
    ensures CallsFollowed(buffer) <==> CallsFollowed(buffer[k..])
  {
    if CallsFollowed(buffer) {
      FollowedSuffix(buffer, k);
    }
    if CallsFollowed(buffer[k..]) {
      forall i | 0 <= i < |buffer| && buffer[i].role == Assistant && buffer[i].toolCalls != []
        ensures i + 1 < |buffer| && buffer[i + 1].role == Role.Tool && Conversations.Answers(buffer[i], buffer[i + 1])
      {
        if i >= k {
          assert buffer[i] == buffer[k..][i - k] && buffer[i + 1] == buffer[k..][i - k + 1];
        }
      }
    }
  }

  lemma {:induction false} LastAnsweredIff(messages: seq<Message>, last: Message)
    requires last.UserMessage?
    ensures WellAnswered(messages + [last]) <==> WellAnswered(messages)
    decreases |messages|
  {
    var all := messages + [last];
    if messages == [] {
      assert all[1..] == [];
    } else if messages[0].AssistantToolCalls? {
      var n := 1 + |messages[0].calls|;
      FirstWithLast(messages, last);
      if n <= |messages| {
        assert all[n..] == messages[n..] + [last];
        LastAnsweredIff(messages[n..], last);
      }
    } else {
      assert all[1..] == messages[1..] + [last];
      LastAnsweredIff(messages[1..], last);
    }
  }

  lemma FirstWithLast(messages: seq<Message>, last: Message)
    requires messages != [] && messages[0].AssistantToolCalls? && last.UserMessage?
    ensures FirstAnswered(messages + [last]) <==> FirstAnswered(messages)
  {
    var all, calls := messages + [last], messages[0].calls;
    if |messages| <= |calls| {
      assert all[|messages|] == last && !AnswersCall(last, calls[|messages| - 1]);
    } else if FirstAnswered(all) {
      forall k | 1 <= k <= |calls| ensures AnswersCall(messages[k], calls[k - 1]) {
        assert all[k] == messages[k];
      }
    }
    if FirstAnswered(messages) {
      FirstStaysAnswered(messages, [last], all);
    }
  }

  lemma AssembledAnsweredIff(cfg: AgentConfig, s: Sources, r: BudgetResult)
    requires Paired(r.buffer) && SingleCalls(r.buffer)
    ensures WellAnswered(Assembled(cfg, s, r)) <==> CallsFollowed(r.buffer)
  {
    hide CallsFollowed, Paired, SingleCalls;
    var all := Assembled(cfg, s, r);
    BufferAnsweredIff(r.buffer);
    LastAnsweredIff(TurnsToMessages(r.buffer), all[|all| - 1]);
    assert all[1..] == TurnsToMessages(r.buffer) + [all[|all| - 1]];
  }

  // ---- Over whole histories ----

  lemma {:induction false} BatchSingle(calls: seq<ToolCall>, outcomes: seq<Outcome>)
    requires |calls| == |outcomes|
    ensures SingleCalls(TurnsFor(calls, outcomes))
  {
    if calls != [] {
      BatchSingle(calls[1..], outcomes[1..]);
    }
  }

  lemma {:induction false} ToolTurnsSingle(batches: seq<(seq<ToolCall>, seq<Outcome>)>)
    requires forall b :: b in batches ==> |b.0| == |b.1|
    ensures SingleCalls(ToolTurns(batches))
  {
    if batches != [] {
      ToolTurnsSingle(batches[1..]);
      BatchSingle(batches[0].0, batches[0].1);
    }
  }

  lemma SinglesAppend(a: seq<Turn>, b: seq<Turn>)
    requires SingleCalls(a) && SingleCalls(b)
    ensures SingleCalls(a + b)
  {
  }

  lemma WritesSingle(record: seq<Turn>, writes: Writes)
    requires SingleCalls(record)
    ensures SingleCalls(Appended(record, writes))
  {
    if writes.Again? {
      assert SingleCalls(Upto(record, writes.first)) && SingleCalls(Upto(record, writes.second));
      SinglesAppend(Upto(record, writes.first), Upto(record, writes.second));
    }
  }

  lemma RecordSingle(userMessage: string, texts: seq<string>, batches: seq<(seq<ToolCall>, seq<Outcome>)>, at: real)
    requires forall b :: b in batches ==> |b.0| == |b.1|
    ensures SingleCalls(RecordOf(userMessage, texts, ToolTurns(batches), at))
  {
    ToolTurnsSingle(batches);
    var record := RecordOf(userMessage, texts, ToolTurns(batches), at);
    var opening := record[..|record| - |ToolTurns(batches)|];
    assert record == opening + ToolTurns(batches);
    SinglesAppend(opening, ToolTurns(batches));
  }

  lemma SingleStep(l: Ledger, budget: int, e: ConversationEvent)
    requires SingleCalls(l.state.workingBuffer) && WellFormed(e)
    ensures SingleCalls(Happens(l, budget, e).state.workingBuffer)
  {
    hide SingleCalls;
    var buffer := l.state.workingBuffer;
    match e
    case TurnEnds(userMessage, texts, batches, at, writes) =>
      var record := RecordOf(userMessage, texts, ToolTurns(batches), at);
      RecordSingle(userMessage, texts, batches, at);
      WritesSingle(record, writes);
      SinglesAppend(buffer, Appended(record, writes));
    case Rollover(reply) => SinglesSuffix(buffer, KeepFrom(buffer, budget, |buffer|));
  }

  lemma {:induction false} SingleHistory(l: Ledger, budget: int, run: seq<ConversationEvent>)
    requires Fresh(l) && forall e :: e in run ==> WellFormed(e)
    ensures SingleCalls(History(l, budget, run).state.workingBuffer)
  {
    if run != [] {
      SingleHistory(l, budget, run[..|run| - 1]);
      SingleStep(History(l, budget, run[..|run| - 1]), budget, run[|run| - 1]);
    }
  }

  lemma AllocatedSingle(inputs: BudgetInputs, budget: int)
    requires SingleCalls(inputs.buffer) && Allocation(inputs, budget).Some?
    ensures SingleCalls(Allocation(inputs, budget).value.buffer)
  {
    hide SingleCalls;
    var r2 := budget - Tier0(inputs) - Estimate(Allocation(inputs, budget).value.factualBlock)
              - Estimate(Allocation(inputs, budget).value.summary);
    SinglesSuffix(inputs.buffer, NewestFrom(inputs.buffer, r2, |inputs.buffer|));
  }

  /**
   After every run, turns persisted partly or twice included: a context built from the stored buffer has all its calls
   answered, once each and in order, if and only if in the part of the buffer it takes every call turn is followed by
   its result.
   */
  lemma ContextAnsweredIff(l: Ledger, budget: int, run: seq<ConversationEvent>, cfg: AgentConfig, s: Sources,
      tokens: int)
    requires Fresh(l) && budget >= 128 && forall e :: e in run ==> WellFormed(e)
    requires s.buffer == History(l, budget, run).state.workingBuffer
    requires Allocation(InputsOf(cfg, s), tokens).Some?
    ensures var r := Allocation(InputsOf(cfg, s), tokens).value;
            WellAnswered(Assembled(cfg, s, r)) <==> CallsFollowed(r.buffer)
  {
    hide CallsFollowed, WellAnswered, Paired, SingleCalls;
    PairedHistory(l, budget, run);
    SingleHistory(l, budget, run);
    AllocatedPaired(InputsOf(cfg, s), tokens);
    AllocatedSingle(InputsOf(cfg, s), tokens);
    AssembledAnsweredIff(cfg, s, Allocation(InputsOf(cfg, s), tokens).value);
  }

  /** So it has them after every run in which no persist, first or repeated, stopped right behind a call turn. */
  lemma ContextAnswered(l: Ledger, budget: int, run: seq<ConversationEvent>, cfg: AgentConfig, s: Sources, tokens: int)
    requires Fresh(l) && budget >= 128 && CleanRun(run)
    requires s.buffer == History(l, budget, run).state.workingBuffer
    requires Allocation(InputsOf(cfg, s), tokens).Some?
    ensures WellAnswered(Assembled(cfg, s, Allocation(InputsOf(cfg, s), tokens).value))
  {
    hide CallsFollowed, WellAnswered, Paired;
    forall e | e in run ensures WellFormed(e) {
      var i :| 0 <= i < |run| && run[i] == e;
    }
    FollowedHistory(l, budget, run);
    AllocatedFollowed(InputsOf(cfg, s), tokens);
    ContextAnsweredIff(l, budget, run, cfg, s, tokens);
  }

  lemma AllocatedFollowed(inputs: BudgetInputs, budget: int)
    requires CallsFollowed(inputs.buffer) && Allocation(inputs, budget).Some?
    ensures CallsFollowed(Allocation(inputs, budget).value.buffer)
  {
    hide CallsFollowed;
    var r2 := budget - Tier0(inputs) - Estimate(Allocation(inputs, budget).value.factualBlock)
              - Estimate(Allocation(inputs, budget).value.summary);
    FollowedSuffix(inputs.buffer, NewestFrom(inputs.buffer, r2, |inputs.buffer|));
  }

  /**
   End to end: after any clean run, every request the loop sends in the next turn, whatever the model asks for and
   however its tool calls end, has each assistant message with calls directly followed by exactly one result per call,
   in order.
   */
  lemma EveryRequestOfAHistory(l: Ledger, budget: int, run: seq<ConversationEvent>, cfg: AgentConfig, s: Sources,
      tokens: int, env: Environment, max: int, k: nat)
    requires Fresh(l) && budget >= 128 && CleanRun(run)
    requires s.buffer == History(l, budget, run).state.workingBuffer
    requires Allocation(InputsOf(cfg, s), tokens).Some?
    requires Proper(env) && AllAnswers(Received(env, 1, max)) && k <= |Received(env, 1, max)|
    ensures WellAnswered(RequestAt(Assembled(cfg, s, Allocation(InputsOf(cfg, s), tokens).value), env, max, k))
  {
    hide CallsFollowed, WellAnswered, Paired, Proper, RequestAt;
    ContextAnswered(l, budget, run, cfg, s, tokens);
    EveryRequestAnswered(Assembled(cfg, s, Allocation(InputsOf(cfg, s), tokens).value), env, max, k);
  }
}
