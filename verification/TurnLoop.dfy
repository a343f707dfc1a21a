/**
 The iteration loop of one turn (agent/loop.py): ask the model, run its tool calls, until it answers or a limit stops
 it.
 */
module TurnLoop {
  import opened Types
  import opened Sequences
  import opened OrderedDict
  import opened ToolFanOut
  import opened FanOutHistory
  import opened Sessions
  import opened Conversations

  datatype Usage = Usage(prompt: int, completion: int, total: int)

  function Accumulate(a: Usage, b: Usage): Usage {
    Usage(a.prompt + b.prompt, a.completion + b.completion, a.total + b.total)
  }

  /**
   What one request to the model yields: no terminal event, an exception, or an answer whose calls end as `outcomes`
   says.
   */
  datatype ModelReply =
    | NoTerminal
    | Raises
    | Answer(text: string, calls: seq<ToolCall>, outcomes: seq<Outcome>, usage: Usage)

  datatype Stop = Completed | NoResponse | BudgetExceeded | MaxIterations | Failed

  /** The model's reply in each iteration, and whether the turn's time budget is spent when it begins. */
  datatype Environment = Environment(replies: nat -> ModelReply, late: nat -> bool)

  ghost predicate Proper(env: Environment) {
    forall n: nat :: env.replies(n).Answer? ==> |env.replies(n).calls| == |env.replies(n).outcomes|
  }

  ghost predicate AllAnswers(got: seq<ModelReply>) {
    forall i :: 0 <= i < |got| ==> got[i].Answer? && |got[i].calls| == |got[i].outcomes|
  }

  /** The answers received from iteration n on. */
  function Received(env: Environment, n: nat, max: int): seq<ModelReply>
    decreases max - n
  {
    if n > max || env.late(n) || !env.replies(n).Answer? then []
    else [env.replies(n)] + if env.replies(n).calls == [] then [] else Received(env, n + 1, max)
  }

  function StopFrom(env: Environment, n: nat, max: int): Stop
    decreases max - n
  {
    if n > max then MaxIterations
    else if env.late(n) then BudgetExceeded
    else match env.replies(n)
      case NoTerminal => NoResponse
      case Raises => Failed
      case Answer(_, calls, _, _) => if calls == [] then Stop.Completed else StopFrom(env, n + 1, max)
  }

  /** The texts that are not empty. */
  function Spoken(got: seq<ModelReply>): seq<string>
    requires AllAnswers(got)
  {
    if got == [] then []
    else
      var front, text := Spoken(got[..|got| - 1]), got[|got| - 1].text;
      if text != "" then front + [text] else front
  }

  /** The batches of calls that were run. */
  function BatchesOf(got: seq<ModelReply>): (batches: seq<(seq<ToolCall>, seq<Outcome>)>)
    requires AllAnswers(got)
    ensures forall b :: b in batches ==> |b.0| == |b.1|
  {
    if got == [] then []
    else
      var front, last := BatchesOf(got[..|got| - 1]), got[|got| - 1];
      if last.calls != [] then front + [(last.calls, last.outcomes)] else front
  }

  function Exchange(answer: ModelReply): seq<Message>
    requires answer.Answer? && |answer.calls| == |answer.outcomes|
  {
    if answer.calls == [] then []
    else [AssistantToolCalls(answer.calls, if answer.text == "" then None else Some(answer.text))]
         + MessagesFor(answer.calls, answer.outcomes)
  }

  /** What the answers add to the messages: each with calls is replayed with one observation a call. */
  function Exchanges(got: seq<ModelReply>): seq<Message>
    requires AllAnswers(got)
  {
    if got == [] then [] else Exchanges(got[..|got| - 1]) + Exchange(got[|got| - 1])
  }

  function Used(got: seq<ModelReply>): Usage
    requires AllAnswers(got)
  {
    if got == [] then Usage(0, 0, 0) else Accumulate(Used(got[..|got| - 1]), got[|got| - 1].usage)
  }

  datatype LoopState = LoopState(messages: seq<Message>, texts: seq<string>, toolTurns: seq<Turn>, usage: Usage)

  ghost function StateOf(opening: seq<Message>, got: seq<ModelReply>): LoopState
    requires AllAnswers(got)
  {
    LoopState(opening + Exchanges(got), Spoken(got), ToolTurns(BatchesOf(got)), Used(got))
  }

  lemma {:induction false} ToolTurnsLast(batches: seq<(seq<ToolCall>, seq<Outcome>)>, b: (seq<ToolCall>, seq<Outcome>))
    requires |b.0| == |b.1| && forall x :: x in batches ==> |x.0| == |x.1|
    ensures ToolTurns(batches + [b]) == ToolTurns(batches) + TurnsFor(b.0, b.1)
  {
    if batches == [] {
      assert batches + [b] == [b];
      assert [b][1..] == [];
    } else {
      assert (batches + [b])[1..] == batches[1..] + [b];
      ToolTurnsLast(batches[1..], b);
    }
  }

  /** One more answer. */
  function WithAnswer(s: LoopState, answer: ModelReply): LoopState
    requires answer.Answer? && |answer.calls| == |answer.outcomes|
  {
    LoopState(
      s.messages + Exchange(answer),
      if answer.text != "" then s.texts + [answer.text] else s.texts,
      if answer.calls != [] then s.toolTurns + TurnsFor(answer.calls, answer.outcomes) else s.toolTurns,
      Accumulate(s.usage, answer.usage))
  }

  lemma OneAnswerMore(opening: seq<Message>, got: seq<ModelReply>, answer: ModelReply)
    requires AllAnswers(got) && answer.Answer? && |answer.calls| == |answer.outcomes|
    ensures AllAnswers(got + [answer])
    ensures StateOf(opening, got + [answer]) == WithAnswer(StateOf(opening, got), answer)
  {
    hide Exchange, TurnsFor, ToolTurns;
    var more := got + [answer];
    assert more[..|more| - 1] == got;
    AppendAssociative(opening, Exchanges(got), Exchange(answer));
    if answer.calls != [] {
      ToolTurnsLast(BatchesOf(got), (answer.calls, answer.outcomes));
    }
  }

  lemma {:induction false} ReceivedAnswers(env: Environment, n: nat, max: int)
    requires Proper(env)
    ensures AllAnswers(Received(env, n, max))
    decreases max - n
  {
    if n <= max {
      ReceivedAnswers(env, n + 1, max);
    }
  }

  /** An iteration that brings no answer ends the loop. */
  lemma NoAnswer(env: Environment, n: nat, max: int)
    requires n > max || env.late(n) || !env.replies(n).Answer?
    ensures Received(env, n, max) == []
    ensures StopFrom(env, n, max) ==
              if n > max then MaxIterations else if env.late(n) then BudgetExceeded
              else if env.replies(n).NoTerminal? then NoResponse else Failed
  {
  }

  /** An iteration that brings an answer ends the loop if the answer has no calls. */
  lemma AnswerNext(env: Environment, n: nat, max: int, got: seq<ModelReply>)
    requires n <= max && !env.late(n) && env.replies(n).Answer?
    ensures env.replies(n).calls == [] ==>
              got + Received(env, n, max) == got + [env.replies(n)] && StopFrom(env, n, max) == Stop.Completed
    ensures env.replies(n).calls != [] ==>
              && got + Received(env, n, max) == (got + [env.replies(n)]) + Received(env, n + 1, max)
              && StopFrom(env, n, max) == StopFrom(env, n + 1, max)
  {
    AppendAssociative(got, [env.replies(n)], Received(env, n + 1, max));
  }

  lemma NothingNext<T>(got: seq<T>)
    ensures got + [] == got && [] + got == got
  {
  }

  /**
   The loop. `iterations` is the number of iterations begun; the last of them may have ended without an answer.
   `opening` is the assembled context.
   */
  method RunLoop(opening: seq<Message>, env: Environment, max: int)
    returns (messages: seq<Message>, texts: seq<string>, toolTurns: seq<Turn>, usage: Usage, iterations: nat,
        stop: Stop)
    requires Proper(env)
    ensures AllAnswers(Received(env, 1, max))
    ensures LoopState(messages, texts, toolTurns, usage) == StateOf(opening, Received(env, 1, max))
    ensures stop == StopFrom(env, 1, max)
    ensures iterations == |Received(env, 1, max)| + if stop.Completed? || stop.MaxIterations? then 0 else 1
  {
    hide StateOf, Exchange, TurnsFor, Received, StopFrom, AllAnswers, Accumulate;
    messages, texts, toolTurns, usage, iterations := opening, [], [], Usage(0, 0, 0), 0;
    stop := MaxIterations;
    ghost var got: seq<ModelReply> := [];
    OpeningState(opening);
    ReceivedAnswers(env, 1, max);
    while iterations < max
      invariant AllAnswers(got) && LoopState(messages, texts, toolTurns, usage) == StateOf(opening, got)
      invariant iterations == |got| && iterations <= (if max < 0 then 0 else max)
      invariant got + Received(env, iterations + 1, max) == Received(env, 1, max)
      invariant stop == MaxIterations && StopFrom(env, iterations + 1, max) == StopFrom(env, 1, max)
    {
      iterations := iterations + 1;
      NothingNext(got);
      if env.late(iterations) {
        NoAnswer(env, iterations, max);
        stop := BudgetExceeded;
        return;
      }
      var reply := env.replies(iterations);
      if !reply.Answer? {
        NoAnswer(env, iterations, max);
        stop := if reply.NoTerminal? then NoResponse else Failed;
        return;
      }
      OneAnswerMore(opening, got, reply);
      AnswerNext(env, iterations, max, got);
      ghost var before := LoopState(messages, texts, toolTurns, usage);
      got := got + [reply];
      usage := Accumulate(usage, reply.usage);
      if reply.text != "" {
        texts := texts + [reply.text];
      }
      if reply.calls == [] {
        NoExchange(reply);
        NothingNext(messages);
        assert LoopState(messages, texts, toolTurns, usage) == WithAnswer(before, reply);
        stop := Stop.Completed;
        return;
      }
      messages := messages + Exchange(reply);
      toolTurns := toolTurns + TurnsFor(reply.calls, reply.outcomes);
      assert LoopState(messages, texts, toolTurns, usage) == WithAnswer(before, reply);
    }
    NothingNext(got);
    NoAnswer(env, iterations + 1, max);
  }

  lemma OpeningState(opening: seq<Message>)
    ensures AllAnswers([]) && StateOf(opening, []) == LoopState(opening, [], [], Usage(0, 0, 0))
  {
  }

  lemma NoExchange(answer: ModelReply)
    requires answer.Answer? && |answer.calls| == |answer.outcomes| && answer.calls == []
    ensures Exchange(answer) == []
  {
  }

  /**
   The sessions after a turn. A persist in the loop that raises, and anything that raises after it, is followed by
   another in the handler; when the loop itself raised, the handler's persist is the only one.
   */
  function TurnWrites(d: Table, id: string, record: seq<Turn>, now: real, loopRaised: bool, raisesLate: bool): Table {
    var (first, ok) := AppendAll(d, id, record, now);
    if loopRaised || (ok && !raisesLate) then first else AppendAll(first, id, record, now).0
  }

  /** The whole turn: `raisesLate` says whether something raises between the persist and the end of the turn. */
  method RunTurn(agent: Agent, id: string, userMessage: string, opening: seq<Message>, env: Environment, max: int,
      now: real, raisesLate: bool)
    returns (stop: Stop, usage: Usage, iterations: nat)
    requires Proper(env)
    modifies agent.store
    ensures AllAnswers(Received(env, 1, max))
    ensures var got, loopStop := Received(env, 1, max), StopFrom(env, 1, max);
            var record := RecordOf(userMessage, Spoken(got), ToolTurns(BatchesOf(got)), now);
            && usage == Used(got)
            && iterations == |got| + (if loopStop.Completed? || loopStop.MaxIterations? then 0 else 1)
            && agent.store.sessions
                == TurnWrites(old(agent.store.sessions), id, record, now, loopStop.Failed?, raisesLate)
            && stop == (if AppendAll(old(agent.store.sessions), id, record, now).1
                && !raisesLate then loopStop else Failed)
  {
    var messages, texts, toolTurns;
    messages, texts, toolTurns, usage, iterations, stop := RunLoop(opening, env, max);
    var ok := agent.Persist(id, userMessage, texts, toolTurns, now);
    if !stop.Failed? && (!ok || raisesLate) {
      var again := agent.Persist(id, userMessage, texts, toolTurns, now);
    }
    if !ok || raisesLate {
      stop := Failed;
    }
  }

  // ---- What every turn keeps ----

  /** The first message, if it has calls, is directly followed by their results. */
  ghost predicate FirstAnswered(messages: seq<Message>)
    requires messages != [] && messages[0].AssistantToolCalls?
  {
    var calls := messages[0].calls;
    && |messages| > |calls|
    && forall k :: 1 <= k <= |calls| ==> AnswersCall(messages[k], calls[k - 1])
  }

  predicate AnswersCall(m: Message, call: ToolCall) {
    m.ToolResultMessage? && m.callId == call.id
  }

  /** Every assistant message with tool calls is directly followed by one result per call, in the order of the calls. */
  ghost predicate WellAnswered(messages: seq<Message>)
    decreases |messages|
  {
    messages == [] ||
    match messages[0]
    case ToolResultMessage(_, _) => false
    case AssistantToolCalls(calls, _) =>
      FirstAnswered(messages) && WellAnswered(messages[1 + |calls|..])
    case _ => WellAnswered(messages[1..])
  }

  lemma {:induction false} MessagesForAt(calls: seq<ToolCall>, outcomes: seq<Outcome>)
    requires |calls| == |outcomes|
    ensures |MessagesFor(calls, outcomes)| == |calls|
    ensures forall i :: 0 <= i < |calls| ==> AnswersCall(MessagesFor(calls, outcomes)[i], calls[i])
  {
    if calls != [] {
      MessagesForAt(calls[1..], outcomes[1..]);
    }
  }

  lemma FirstStaysAnswered(a: seq<Message>, b: seq<Message>, c: seq<Message>)
    requires a != [] && a[0].AssistantToolCalls? && FirstAnswered(a) && c == a + b
    ensures c != [] && c[0] == a[0] && FirstAnswered(c)
  {
    var calls := a[0].calls;
    forall k | 1 <= k <= |calls| ensures AnswersCall(c[k], calls[k - 1]) {
      assert c[k] == a[k];
    }
  }

  lemma {:induction false} AnsweredThen(a: seq<Message>, b: seq<Message>)
    requires WellAnswered(a) && WellAnswered(b)
    ensures WellAnswered(a + b)
    decreases |a|
  {
    hide FirstAnswered;
    if a == [] {
      assert a + b == b;
    } else if a[0].AssistantToolCalls? {
      FirstIsAnswered(a);
      var n := 1 + |a[0].calls|;
      AnsweredThen(a[n..], b);
      assert (a + b)[n..] == a[n..] + b;
      FirstStaysAnswered(a, b, a + b);
    } else {
      AnsweredThen(a[1..], b);
      assert (a + b)[1..] == a[1..] + b;
      assert (a + b)[0] == a[0];
    }
  }

  lemma FirstIsAnswered(a: seq<Message>)
    requires a != [] && a[0].AssistantToolCalls? && FirstAnswered(a)
    ensures |a| > |a[0].calls|
  {
  }

  lemma ExchangeAnswered(answer: ModelReply)
    requires answer.Answer? && |answer.calls| == |answer.outcomes|
    ensures WellAnswered(Exchange(answer))
  {
    if answer.calls != [] {
      MessagesForAt(answer.calls, answer.outcomes);
      var messages := Exchange(answer);
      assert messages[1..] == MessagesFor(answer.calls, answer.outcomes);
      assert messages[1 + |answer.calls|..] == [];
    }
  }

  lemma {:induction false} ExchangesAnswered(got: seq<ModelReply>)
    requires AllAnswers(got)
    ensures WellAnswered(Exchanges(got))
  {
    if got != [] {
      ExchangesAnswered(got[..|got| - 1]);
      ExchangeAnswered(got[|got| - 1]);
      AnsweredThen(Exchanges(got[..|got| - 1]), Exchange(got[|got| - 1]));
    }
  }

  /** Request number k (from 0) of a turn is sent the context and the exchanges of the answers before it. */
  function RequestAt(opening: seq<Message>, env: Environment, max: int, k: nat): seq<Message>
    requires AllAnswers(Received(env, 1, max)) && k <= |Received(env, 1, max)|
  {
    opening + Exchanges(Received(env, 1, max)[..k])
  }

  /** Every request of a turn has all its tool calls answered, once each and in order, whatever the calls' outcomes. */
  lemma EveryRequestAnswered(opening: seq<Message>, env: Environment, max: int, k: nat)
    requires Proper(env) && AllAnswers(Received(env, 1, max)) && k <= |Received(env, 1, max)| && WellAnswered(opening)
    ensures WellAnswered(RequestAt(opening, env, max, k))
  {
    ExchangesAnswered(Received(env, 1, max)[..k]);
    AnsweredThen(opening, Exchanges(Received(env, 1, max)[..k]));
  }

  ghost predicate Accounts(got: seq<ModelReply>, stop: Stop, n: nat, max: int)
    requires AllAnswers(got)
  {
    var limit := if n > max then 0 else max - n + 1;
    && (forall i :: 0 <= i < |got| - 1 ==> got[i].calls != [])
    && (stop.Completed? <==> got != [] && got[|got| - 1].calls == [])
    && (stop.MaxIterations? ==> |got| == limit)
    && |got| + (if stop.NoResponse? || stop.Failed? then 1 else 0) <= limit
  }

  lemma AccountsMore(first: ModelReply, rest: seq<ModelReply>, stop: Stop, n: nat, max: int)
    requires first.Answer? && |first.calls| == |first.outcomes| && first.calls != [] && AllAnswers(rest) && n <= max
    requires Accounts(rest, stop, n + 1, max)
    ensures AllAnswers([first] + rest) && Accounts([first] + rest, stop, n, max)
  {
  }

  /**
   Only the last answer can be without calls, and a turn completes exactly when it is; a turn that hits the iteration
   cap used up every iteration; and there are never more requests to the model than iterations.
   */
  lemma {:induction false} CompletesIff(env: Environment, n: nat, max: int)
    requires Proper(env)
    ensures AllAnswers(Received(env, n, max)) && Accounts(Received(env, n, max), StopFrom(env, n, max), n, max)
    decreases max - n
  {
    ReceivedAnswers(env, n, max);
    if n <= max && !env.late(n) && env.replies(n).Answer? && env.replies(n).calls != [] {
      hide Accounts;
      CompletesIff(env, n + 1, max);
      AccountsMore(env.replies(n), Received(env, n + 1, max), StopFrom(env, n + 1, max), n, max);
    }
  }

  /** Over the in-memory store a persist fails only for a session that is gone, so persisting again adds nothing. */
  lemma {:induction false} FailedPersistAddsNothing(d: Table, id: string, turns: seq<Turn>, now: real)
    requires turns != []
    ensures AppendAll(d, id, turns, now).1 <==> OrderedDict.Has(d, id)
    ensures !AppendAll(d, id, turns, now).1 ==> AppendAll(d, id, turns, now).0 == d
  {
    var front := turns[..|turns| - 1];
    if front == [] {
      assert AppendAll(d, id, front, now) == (d, true);
    } else {
      FailedPersistAddsNothing(d, id, front, now);
      if OrderedDict.Has(d, id) {
        AppendAllAdds(d, id, turns, now);
      }
    }
  }

  /**
   A turn of a live session adds its record exactly once, whichever way the loop stops, if and only if nothing raises
   after a persist that the loop itself came to; if something does, the record is there twice.
   */
  lemma TurnRecordedOnceIff(d: Table, id: string, record: seq<Turn>, now: real, loopRaised: bool, raisesLate: bool)
    requires Get(d, id).Some? && record != []
    ensures var buffer, left := Get(d, id).value.workingBuffer,
              Get(TurnWrites(d, id, record, now, loopRaised, raisesLate), id);
            && left.Some?
            && (left.value.workingBuffer == buffer + record <==> loopRaised || !raisesLate)
            && (!loopRaised && raisesLate ==> left.value.workingBuffer == buffer + record + record)
  {
    hide AppendAll;
    AppendAllAdds(d, id, record, now);
    var first := AppendAll(d, id, record, now).0;
    AppendAllAdds(first, id, record, now);
    var buffer := Get(d, id).value.workingBuffer;
    assert |buffer + record + record| > |buffer + record|;
  }
}
