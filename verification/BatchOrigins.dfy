/**
 Where batches come from (agent/loop.py): each is one reply's calls, in their order, asked about or started one by one.
 */
module BatchOrigins {
  import opened Types
  import opened ToolFanOut
  import opened FanOutHistory
  import opened ApprovalSafety

  function OpenedBy(a: Action): seq<(string, seq<ToolCall>)> {
    match a
    case Open(conversation, calls) => [(conversation, calls)]
    case _ => []
  }

  /** The conversations and calls of the batches opened, in order. */
  function Opened(actions: seq<Action>): seq<(string, seq<ToolCall>)> {
    if actions == [] then [] else OpenedBy(actions[0]) + Opened(actions[1..])
  }

  predicate Origin(batch: Batch, begun: (string, seq<ToolCall>)) {
    batch.conversation == begun.0 && CallsOf(batch) == begun.1
  }

  /** The batches from number n on are those opened. */
  ghost predicate OriginsFrom(s: World, n: nat, begun: seq<(string, seq<ToolCall>)>) {
    |s.batches| == n + |begun| && forall k :: 0 <= k < |begun| ==> Origin(s.batches[n + k], begun[k])
  }

  lemma OriginStays(s: World, a: Action, b: nat)
    requires Enabled(s, a) && b < |s.batches|
    ensures b < |Step(s, a).batches| && Step(s, a).batches[b].conversation == s.batches[b].conversation
    ensures CallsOf(Step(s, a).batches[b]) == CallsOf(s.batches[b])
  {
  }

  lemma OneBatchMore(s: World, a: Action)
    requires Enabled(s, a)
    ensures var s' := Step(s, a);
            if a.Open? then |s'.batches| == |s.batches| + 1
                && Origin(s'.batches[|s.batches|], (a.conversation, a.calls))
            else |s'.batches| == |s.batches|
  {
  }

  lemma {:induction false} OriginKept(s: World, actions: seq<Action>, b: nat)
    requires CanRun(s, actions) && b < |s.batches|
    ensures var s' := Run(s, actions);
            b < |s'.batches| && Origin(s'.batches[b], (s.batches[b].conversation, CallsOf(s.batches[b])))
    decreases |actions|
  {
    hide Step, Enabled;
    if actions != [] {
      OriginStays(s, actions[0], b);
      OriginKept(Step(s, actions[0]), actions[1..], b);
    }
  }

  lemma {:induction false} OpenedFrom(s: World, actions: seq<Action>)
    requires CanRun(s, actions)
    ensures OriginsFrom(Run(s, actions), |s.batches|, Opened(actions))
    decreases |actions|
  {
    hide Step, Enabled, Origin;
    if actions == [] {
    } else {
      var s', rest := Step(s, actions[0]), actions[1..];
      OneBatchMore(s, actions[0]);
      OpenedFrom(s', rest);
      match actions[0]
      case Open(conversation, calls) =>
        OriginKept(s', rest, |s.batches|);
        OriginIs(s'.batches[|s.batches|], (conversation, calls));
        FirstOrigin(Run(s, actions), |s.batches|, (conversation, calls), Opened(rest));
      case _ => assert Opened(actions) == Opened(rest);
    }
  }

  lemma OriginIs(batch: Batch, begun: (string, seq<ToolCall>))
    requires Origin(batch, begun)
    ensures (batch.conversation, CallsOf(batch)) == begun
  {
  }

  lemma FirstOrigin(s: World, n: nat, first: (string, seq<ToolCall>), rest: seq<(string, seq<ToolCall>)>)
    requires n < |s.batches| && Origin(s.batches[n], first) && OriginsFrom(s, n + 1, rest)
    ensures OriginsFrom(s, n, [first] + rest)
  {
    hide Origin;
    forall k | 0 <= k < |[first] + rest| ensures Origin(s.batches[n + k], ([first] + rest)[k]) {
      assert k > 0 ==> n + k == n + 1 + (k - 1);
    }
  }

  /** In every reachable state the batches are those opened, each with its conversation and its calls in their order. */
  lemma BatchesAreOpened(gatedTools: set<string>, actions: seq<Action>)
    requires CanRun(Initial(gatedTools), actions)
    ensures var s, begun := Run(Initial(gatedTools), actions), Opened(actions);
            && |s.batches| == |begun|
            && forall b :: 0 <= b < |begun| ==>
                 s.batches[b].conversation == begun[b].0 && CallsOf(s.batches[b]) == begun[b].1
  {
    OpenedFrom(Initial(gatedTools), actions);
    var s, begun := Run(Initial(gatedTools), actions), Opened(actions);
    forall b | 0 <= b < |begun| ensures s.batches[b].conversation == begun[b].0 && CallsOf(s.batches[b]) == begun[b].1
    {
      assert Origin(s.batches[0 + b], begun[b]);
    }
  }

  /** So a completed batch leaves one result message for each call that was opened with it, in that order. */
  lemma OneResultPerCall(gatedTools: set<string>, actions: seq<Action>, b: nat)
    requires CanRun(Initial(gatedTools), actions)
    requires b < |Run(Initial(gatedTools), actions).batches|
    requires Run(Initial(gatedTools), actions).batches[b].phase == Completed
    ensures b < |Opened(actions)|
    ensures var messages, calls := Run(Initial(gatedTools), actions).batches[b].messages, Opened(actions)[b].1;
            && |messages| == |calls|
            && forall i :: 0 <= i < |calls| ==> messages[i].ToolResultMessage? && messages[i].callId == calls[i].id
  {
    hide Run, CanRun, Opened;
    BatchesAreOpened(gatedTools, actions);
    CompletedHistory(gatedTools, actions, b);
    var batch := Run(Initial(gatedTools), actions).batches[b];
    ResultPerCall(CallsOf(batch), OutcomesOf(batch));
  }

  lemma {:induction false} ResultPerCall(calls: seq<ToolCall>, outcomes: seq<Outcome>)
    requires |calls| == |outcomes|
    ensures |MessagesFor(calls, outcomes)| == |calls|
    ensures forall i :: 0 <= i < |calls| ==>
              MessagesFor(calls, outcomes)[i].ToolResultMessage?
                  && MessagesFor(calls, outcomes)[i].callId == calls[i].id
  {
    if calls != [] {
      ResultPerCall(calls[1..], outcomes[1..]);
    }
  }

  /**
   In every reachable state a call that begins is asked about if its tool is gated, and waits with an entry under its
   id; and otherwise starts at once.
   */
  lemma BeginAsksIff(gatedTools: set<string>, actions: seq<Action>, b: nat, i: nat)
    requires CanRun(Initial(gatedTools), actions) && Enabled(Run(Initial(gatedTools), actions), Begin(b, i))
    ensures var s := Run(Initial(gatedTools), actions);
            var call, s' := WorkerAt(s, b, i).call, Step(s, Begin(b, i));
            && Has(s', b, i)
            && if call.name in gatedTools
               then WorkerAt(s', b, i).pc == Waiting && s'.log == s.log
                    && s'.pending == s.pending[call.id := Entry(b, i, s.batches[b].conversation)]
                    && s'.batches[b].queue == s.batches[b].queue + [Emit(i, ApprovalRequired(call.id, call.name))]
               else WorkerAt(s', b, i).pc == Executing && s'.log == s.log + [Began(b, i)]
                    && s'.pending == s.pending
                    && s'.batches[b].queue == s.batches[b].queue + [Emit(i, CallStarted(call.id, call.name))]
  {
    hide Run, CanRun;
    GateIs(gatedTools, actions, b, i);
  }
}
