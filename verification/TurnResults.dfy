/** What one turn says, records, costs and why it stops (agent/loop.py), read off the model's replies alone. */
module TurnResults {
  import opened Types
  import opened Text
  import opened Sequences
  import opened ToolExecution
  import opened ToolFanOut
  import opened FanOutHistory
  import opened Conversations
  import opened TurnLoop

  // ---- Why the loop stops ----

  /** `got` are the replies from iteration n on, all in time and all with calls but perhaps the last. */
  ghost predicate RepliesFrom(env: Environment, n: nat, max: int, got: seq<ModelReply>) {
    forall i :: 0 <= i < |got| ==> ReplyAt(env, n + i, max, got[i], i == |got| - 1)
  }

  ghost predicate ReplyAt(env: Environment, n: nat, max: int, reply: ModelReply, last: bool) {
    n <= max && !env.late(n) && reply == env.replies(n) && reply.Answer? && (!last ==> reply.calls != [])
  }

  /** The reason the loop ends with after these replies, from what its next iteration would meet. */
  ghost predicate EndsBecause(env: Environment, n: nat, max: int, got: seq<ModelReply>, stop: Stop) {
    var next := n + |got|;
    if got != [] && got[|got| - 1].Answer? && got[|got| - 1].calls == [] then stop == Stop.Completed
    else
      && (stop == MaxIterations <==> next > max)
      && (stop == BudgetExceeded <==> next <= max && env.late(next))
      && (stop == NoResponse <==> next <= max && !env.late(next) && env.replies(next).NoTerminal?)
      && (stop == Failed <==> next <= max && !env.late(next) && env.replies(next).Raises?)
  }

  /**
   The loop receives the model's replies one after the other and ends because the last has no calls or because of what
   the next iteration meets: the cap, the spent budget, a stream without a terminal event, or an exception.
   */
  lemma {:induction false} StopsBecause(env: Environment, n: nat, max: int)
    requires Proper(env)
    ensures RepliesFrom(env, n, max, Received(env, n, max))
    ensures EndsBecause(env, n, max, Received(env, n, max), StopFrom(env, n, max))
    decreases max - n
  {
    if n <= max && !env.late(n) && env.replies(n).Answer? && env.replies(n).calls != [] {
      hide Proper;
      StopsBecause(env, n + 1, max);
      RepliesMore(env, n, max, Received(env, n + 1, max));
      EndsMore(env, n, max, Received(env, n + 1, max), StopFrom(env, n + 1, max));
    }
  }

  lemma RepliesMore(env: Environment, n: nat, max: int, rest: seq<ModelReply>)
    requires n <= max && !env.late(n) && env.replies(n).Answer? && env.replies(n).calls != []
    requires RepliesFrom(env, n + 1, max, rest)
    ensures RepliesFrom(env, n, max, [env.replies(n)] + rest)
  {
    hide ReplyAt;
    var got := [env.replies(n)] + rest;
    FirstReply(env, n, max, rest == []);
    forall i | 0 <= i < |got| ensures ReplyAt(env, n + i, max, got[i], i == |got| - 1) {
      if i > 0 {
        assert ReplyAt(env, n + 1 + (i - 1), max, rest[i - 1], i - 1 == |rest| - 1);
        assert n + 1 + (i - 1) == n + i;
      }
    }
  }

  lemma FirstReply(env: Environment, n: nat, max: int, last: bool)
    requires n <= max && !env.late(n) && env.replies(n).Answer? && env.replies(n).calls != []
    ensures ReplyAt(env, n, max, env.replies(n), last)
  {
  }

  lemma EndsMore(env: Environment, n: nat, max: int, rest: seq<ModelReply>, stop: Stop)
    requires env.replies(n).Answer? && env.replies(n).calls != [] && EndsBecause(env, n + 1, max, rest, stop)
    ensures EndsBecause(env, n, max, [env.replies(n)] + rest, stop)
  {
    var got := [env.replies(n)] + rest;
    assert rest != [] ==> got[|got| - 1] == rest[|rest| - 1];
    assert n + |got| == n + 1 + |rest|;
  }

  // ---- What it costs ----

  /** The usage of a turn is that of its replies together. */
  lemma {:induction false} UsageAdds(a: seq<ModelReply>, b: seq<ModelReply>)
    requires AllAnswers(a) && AllAnswers(b)
    ensures AllAnswers(a + b) && |a| == 1 ==> Used(a) == a[0].usage
    ensures AllAnswers(a + b) && Used(a + b).prompt == Used(a).prompt + Used(b).prompt
    ensures AllAnswers(a + b) && Used(a + b).completion == Used(a).completion + Used(b).completion
    ensures AllAnswers(a + b) && Used(a + b).total == Used(a).total + Used(b).total
  {
    if |a| == 1 {
      assert a[..0] == [];
      assert Used(a[..0]) == Usage(0, 0, 0);
    }
    if b == [] {
      assert a + b == a;
    } else {
      assert (a + b)[..|a + b| - 1] == a + b[..|b| - 1];
      UsageAdds(a, b[..|b| - 1]);
    }
  }

  // ---- What it says ----

  /** Everything the model said in a turn, without the white space. */
  function Said(got: seq<ModelReply>): string
    requires AllAnswers(got)
  {
    if got == [] then "" else Solids(got[0].text) + Said(got[1..])
  }

  lemma {:induction false} SaidLast(got: seq<ModelReply>)
    requires AllAnswers(got) && got != []
    ensures Said(got) == Said(got[..|got| - 1]) + Solids(got[|got| - 1].text)
  {
    if |got| > 1 {
      SaidLast(got[1..]);
      assert got[1..][..|got[1..]| - 1] == got[..|got| - 1][1..];
      AppendAssociative(Solids(got[0].text), Said(got[..|got| - 1][1..]), Solids(got[|got| - 1].text));
    }
  }

  lemma {:induction false} AllSolidsLast(texts: seq<string>, text: string)
    ensures AllSolids(texts + [text]) == AllSolids(texts) + Solids(text)
  {
    hide Solids;
    if texts == [] {
      assert texts + [text] == [text];
      assert [text][1..] == [];
      assert AllSolids([text][1..]) == "";
      assert AllSolids([text]) == Solids(text) + "";
    } else {
      AllSolidsLast(texts[1..], text);
      assert (texts + [text])[1..] == texts[1..] + [text];
      AppendAssociative(Solids(texts[0]), AllSolids(texts[1..]), Solids(text));
    }
  }

  /** The answer that a turn records has every character of every reply but white space, in order. */
  lemma {:induction false} AllIsSaid(got: seq<ModelReply>)
    requires AllAnswers(got)
    ensures AllSolids(Spoken(got)) == Said(got)
  {
    if got == [] {
    } else {
      AllIsSaid(got[..|got| - 1]);
      SaidLast(got);
      AllSolidsLast(Spoken(got[..|got| - 1]), got[|got| - 1].text);
    }
  }

  // ---- Which calls it records ----

  datatype Executed = Executed(call: ToolCall, observation: string, at: real)

  function OneReturned(call: ToolCall, outcome: Outcome): seq<Executed> {
    match outcome case Returned(_, observation, at) => [Executed(call, observation, at)] case _ => []
  }

  /** The calls of one reply whose handlers returned. */
  function ReturnedCalls(calls: seq<ToolCall>, outcomes: seq<Outcome>): seq<Executed>
    requires |calls| == |outcomes|
  {
    if calls == [] then [] else OneReturned(calls[0], outcomes[0]) + ReturnedCalls(calls[1..], outcomes[1..])
  }

  function AllReturned(got: seq<ModelReply>): seq<Executed>
    requires AllAnswers(got)
  {
    if got == [] then []
    else AllReturned(got[..|got| - 1]) + ReturnedCalls(got[|got| - 1].calls, got[|got| - 1].outcomes)
  }

  /** Two turns for each call: the call itself, and its result as displayed, both at the time it returned. */
  ghost predicate TwoTurnsEach(turns: seq<Turn>, executed: seq<Executed>) {
    && |turns| == 2 * |executed|
    && forall k :: 0 <= k < |executed| ==> TwoTurns(turns[2 * k], turns[2 * k + 1], executed[k])
  }

  predicate TwoTurns(first: Turn, second: Turn, e: Executed) {
    && first == Turn(Assistant, "", [e.call], None, e.at)
    && second == Turn(Role.Tool, Truncate(e.observation), [], Some(e.call.id), e.at)
  }

  lemma TwoTurnsAppend(a: seq<Turn>, x: seq<Executed>, b: seq<Turn>, y: seq<Executed>)
    requires TwoTurnsEach(a, x) && TwoTurnsEach(b, y)
    ensures TwoTurnsEach(a + b, x + y)
  {
    hide TwoTurns;
    forall k | 0 <= k < |x + y| ensures TwoTurns((a + b)[2 * k], (a + b)[2 * k + 1], (x + y)[k]) {
      if k >= |x| {
        var l := k - |x|;
        assert (a + b)[2 * k] == b[2 * l] && (a + b)[2 * k + 1] == b[2 * l + 1] && (x + y)[k] == y[l];
      }
    }
  }

  lemma {:induction false} ReturnedAreRecorded(calls: seq<ToolCall>, outcomes: seq<Outcome>)
    requires |calls| == |outcomes|
    ensures TwoTurnsEach(TurnsFor(calls, outcomes), ReturnedCalls(calls, outcomes))
  {
    if calls == [] {
    } else {
      ReturnedAreRecorded(calls[1..], outcomes[1..]);
      OneIsRecorded(calls[0], outcomes[0]);
      TwoTurnsAppend(SlotOf(calls[0], outcomes[0]).turns, OneReturned(calls[0], outcomes[0]),
          TurnsFor(calls[1..], outcomes[1..]), ReturnedCalls(calls[1..], outcomes[1..]));
    }
  }

  lemma OneIsRecorded(call: ToolCall, outcome: Outcome)
    ensures TwoTurnsEach(SlotOf(call, outcome).turns, OneReturned(call, outcome))
  {
  }

  /** The tool turns that a turn records are those of the calls that returned, in the order of the calls. */
  lemma {:induction false} ReturnedCallsAreRecorded(got: seq<ModelReply>)
    requires AllAnswers(got)
    ensures TwoTurnsEach(ToolTurns(BatchesOf(got)), AllReturned(got))
  {
    hide TwoTurnsEach, TurnsFor, ReturnedCalls, ToolTurns;
    if got == [] {
      NothingRecorded();
    } else {
      var front, last := got[..|got| - 1], got[|got| - 1];
      ReturnedCallsAreRecorded(front);
      ReturnedAreRecorded(last.calls, last.outcomes);
      TwoTurnsAppend(ToolTurns(BatchesOf(front)), AllReturned(front), TurnsFor(last.calls, last.outcomes),
          ReturnedCalls(last.calls, last.outcomes));
      if last.calls != [] {
        ToolTurnsLast(BatchesOf(front), (last.calls, last.outcomes));
      } else {
        NoneReturned();
        NothingNext(AllReturned(front));
      }
    }
  }

  lemma NothingRecorded()
    ensures ToolTurns([]) == [] && TwoTurnsEach([], [])
  {
  }

  lemma NoneReturned()
    ensures ReturnedCalls([], []) == [] && TurnsFor([], []) == []
  {
  }

  // ---- What the model is told next ----

  /** The message tells the model how the call ended; an observation is told whole. */
  predicate Tells(m: Message, call: ToolCall, outcome: Outcome) {
    && m.ToolResultMessage? && m.callId == call.id
    && (outcome.Returned? ==> m.text == outcome.observation)
  }

  /** From message number `at` on: what the model said with its calls, and one result a call. */
  ghost predicate ReplayedAt(messages: seq<Message>, at: nat, answer: ModelReply)
    requires answer.Answer? && |answer.calls| == |answer.outcomes|
  {
    && at + |answer.calls| < |messages|
    && messages[at].AssistantToolCalls? && messages[at].calls == answer.calls
    && TextSpoken(messages[at].spoken) == answer.text
    && forall j :: 0 <= j < |answer.calls| ==> Tells(messages[at + 1 + j], answer.calls[j], answer.outcomes[j])
  }

  function TextSpoken(spoken: Option<string>): string {
    if spoken.Some? then spoken.value else ""
  }

  lemma {:induction false} MessagesTell(calls: seq<ToolCall>, outcomes: seq<Outcome>, j: nat)
    requires |calls| == |outcomes| && j < |calls|
    ensures |MessagesFor(calls, outcomes)| == |calls| && Tells(MessagesFor(calls, outcomes)[j], calls[j], outcomes[j])
  {
    MessagesForAt(calls, outcomes);
    if j > 0 {
      MessagesTell(calls[1..], outcomes[1..], j - 1);
    }
  }

  lemma ExchangeReplays(answer: ModelReply)
    requires answer.Answer? && |answer.calls| == |answer.outcomes| && answer.calls != []
    ensures ReplayedAt(Exchange(answer), 0, answer)
  {
    hide Tells;
    forall j | 0 <= j < |answer.calls|
      ensures |MessagesFor(answer.calls, answer.outcomes)| == |answer.calls|
      ensures Tells(MessagesFor(answer.calls, answer.outcomes)[j], answer.calls[j], answer.outcomes[j])
    {
      MessagesTell(answer.calls, answer.outcomes, j);
    }
  }

  lemma ReplayedWithin(front: seq<Message>, messages: seq<Message>, at: nat, back: seq<Message>, answer: ModelReply)
    requires answer.Answer? && |answer.calls| == |answer.outcomes| && ReplayedAt(messages, at, answer)
    ensures ReplayedAt(front + messages + back, |front| + at, answer)
  {
    hide Tells;
    var all := front + messages + back;
    assert all[|front| + at] == messages[at];
    forall j | 0 <= j < |answer.calls| ensures Tells(all[|front| + at + 1 + j], answer.calls[j], answer.outcomes[j]) {
      assert all[|front| + at + 1 + j] == messages[at + 1 + j];
    }
  }

  lemma {:induction false} Replayed(got: seq<ModelReply>, i: nat) returns (at: nat)
    requires AllAnswers(got) && i < |got| && got[i].calls != []
    ensures ReplayedAt(Exchanges(got), at, got[i])
  {
    hide ReplayedAt, Exchange;
    var front, last := got[..|got| - 1], got[|got| - 1];
    if i == |front| {
      ExchangeReplays(last);
      ReplayedWithin(Exchanges(front), Exchange(last), 0, [], last);
      at := |Exchanges(front)|;
      NothingNext(Exchanges(got));
    } else {
      at := Replayed(front, i);
      ReplayedWithin([], Exchanges(front), at, Exchange(last), got[i]);
      NothingNext(Exchanges(front));
    }
  }

  /**
   Every later request of the turn begins with the assembled context and carries an earlier reply with calls: its text,
   its calls, and directly after them what became of each.
   */
  lemma RequestTells(opening: seq<Message>, env: Environment, max: int, k: nat, i: nat) returns (at: nat)
    requires Proper(env) && AllAnswers(Received(env, 1, max)) && i < k <= |Received(env, 1, max)|
    requires Received(env, 1, max)[i].calls != []
    ensures opening <= RequestAt(opening, env, max, k) && at >= |opening|
    ensures ReplayedAt(RequestAt(opening, env, max, k), at, Received(env, 1, max)[i])
  {
    hide ReplayedAt, Exchanges;
    var got := Received(env, 1, max)[..k];
    at := Replayed(got, i);
    ReplayedWithin(opening, Exchanges(got), at, [], got[i]);
    NothingNext(opening + Exchanges(got));
    at := |opening| + at;
  }
}
