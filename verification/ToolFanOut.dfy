/**
 The concurrent tool fan-out and its approval gate (agent/loop.py), as a transition system.

 Each batch of tool calls runs one worker task a call. A worker pushes its events onto the batch's queue and ends with
 a done marker; the fan-in loop takes items off the queue. Calls that need approval wait on a future registered under
 their call id in a map that all batches share. A step runs from one suspension point to the next: putting an item on
 an unbounded queue does not suspend, so registering a future and announcing it is one step.
 */
module ToolFanOut {
  import opened Types
  import opened ToolExecution

  // ---- The vocabulary ----

  datatype Event =
    | ApprovalRequired(callId: string, name: string)
    | CallStarted(callId: string, name: string)
    | ResultShown(callId: string, name: string, ok: bool, content: string)

  /** What one finished call contributes to the turn's history. */
  datatype Slot = Slot(message: Message, turns: seq<Turn>)

  /** A queue item, tagged with the worker that put it there. */
  datatype Item = Emit(worker: nat, event: Event) | DoneMarker(worker: nat, slot: Slot)

  /** How a call ended. */
  datatype Outcome =
    | Denied
    | TimedOut
    | Returned(ok: bool, observation: string, at: real)
    | Raised(error: string)

  datatype Pc = NotStarted | Waiting | Executing | Finished(outcome: Outcome) | Cancelled

  datatype Worker = Worker(call: ToolCall, gated: bool, pc: Pc, future: Option<bool>)

  datatype Phase = FanIn | Closing | Closed | Completed | Crashed

  datatype Batch = Batch(
    conversation: string,
    workers: seq<Worker>,
    queue: seq<Item>,
    taken: seq<Item>,
    results: seq<Option<Slot>>,
    remaining: int,
    phase: Phase,
    messages: seq<Message>,
    turns: seq<Turn>)

  /** A pending approval: the future of worker `index` of batch `batch`, and the conversation that owns it. */
  datatype Entry = Entry(batch: nat, index: nat, conversation: string)

  /** What a run has seen of the approval gate. `hit` is the future whose entry the answer removed, if any. */
  datatype Record =
    | Answered(callId: string, approved: bool, conversation: string, hit: Option<(nat, nat)>)
    | Began(batch: nat, index: nat)

  /** `gatedTools` are the tools whose policy requires approval; policies never change while the service runs. */
  datatype World = World(gatedTools: set<string>, batches: seq<Batch>, pending: map<string, Entry>, log: seq<Record>)

  datatype Action =
    | Open(conversation: string, calls: seq<ToolCall>)
    | Resolve(callId: string, approved: bool, conversation: string)
    | Begin(b: nat, i: nat)
    | Wake(b: nat, i: nat)
    | Expire(b: nat, i: nat)
    | Return(b: nat, i: nat, ok: bool, observation: string, at: real)
    | Raise(b: nat, i: nat, error: string)
    | Cancel(b: nat, i: nat)
    | Take(b: nat)
    | Finish(b: nat)
    | Close(b: nat)
    | Reap(b: nat)

  // ---- What a worker puts on the queue ----

  function Reason(call: ToolCall, what: string): string {
    "tool '" + call.name + "' " + what
  }

  function SlotOf(call: ToolCall, outcome: Outcome): Slot {
    match outcome
    case Denied => Slot(ToolResultMessage(call.id, Reason(call, "— user denied approval")), [])
    case TimedOut => Slot(ToolResultMessage(call.id, Reason(call, "— approval request timed out")), [])
    case Raised(error) => Slot(ToolResultMessage(call.id, Reason(call, "failed unexpectedly: " + error)), [])
    case Returned(ok, observation, at) =>
      var execution := ExecutionOf(call, ok, observation);
      Slot(ToolResultMessage(call.id, execution.observation),
           [Turn(Assistant, "", [call], None, at), Turn(Role.Tool, execution.display, [], Some(call.id), at)])
  }

  /** The trace event that announces how a call ended. */
  function ResultOf(call: ToolCall, outcome: Outcome): Event {
    match outcome
    case Denied => ResultShown(call.id, call.name, false, Reason(call, "— user denied approval"))
    case TimedOut => ResultShown(call.id, call.name, false, Reason(call, "— approval request timed out"))
    case Raised(error) => ResultShown(call.id, call.name, false, Reason(call, "failed unexpectedly: " + error))
    case Returned(ok, observation, _) =>
      var execution := ExecutionOf(call, ok, observation);
      ResultShown(execution.callId, execution.name, execution.ok, execution.display)
  }

  function Ask(call: ToolCall, i: nat): Item { Emit(i, ApprovalRequired(call.id, call.name)) }
  function Start(call: ToolCall, i: nat): Item { Emit(i, CallStarted(call.id, call.name)) }

  function Ending(call: ToolCall, i: nat, outcome: Outcome): seq<Item> {
    [Emit(i, ResultOf(call, outcome)), DoneMarker(i, SlotOf(call, outcome))]
  }

  /** All that worker i has put on the queue when it stands where it stands. */
  function Emitted(w: Worker, i: nat): seq<Item> {
    var asked := if w.gated then [Ask(w.call, i)] else [];
    match w.pc
    case NotStarted => []
    case Waiting => [Ask(w.call, i)]
    case Executing => asked + [Start(w.call, i)]
    case Finished(outcome) =>
      (if outcome.Denied? || outcome.TimedOut? then [Ask(w.call, i)] else asked + [Start(w.call, i)])
      + Ending(w.call, i, outcome)
    case Cancelled => []
  }

  // ---- The steps ----

  predicate Has(s: World, b: nat, i: nat) {
    b < |s.batches| && i < |s.batches[b].workers|
  }

  function WorkerAt(s: World, b: nat, i: nat): Worker
    requires Has(s, b, i)
  {
    s.batches[b].workers[i]
  }

  predicate Running(s: World, b: nat) {
    b < |s.batches| && (s.batches[b].phase == FanIn || s.batches[b].phase == Closing)
  }

  predicate Live(w: Worker) { w.pc == NotStarted || w.pc == Waiting || w.pc == Executing }

  predicate NoneLive(workers: seq<Worker>) {
    forall w :: w in workers ==> !Live(w)
  }

  predicate Enabled(s: World, a: Action) {
    match a
    case Open(_, _) => true
    case Resolve(_, _, _) => true
    case Begin(b, i) => Running(s, b) && Has(s, b, i) && WorkerAt(s, b, i).pc == NotStarted
    case Wake(b, i) =>
      Running(s, b) && Has(s, b, i) && WorkerAt(s, b, i).pc == Waiting && WorkerAt(s, b, i).future.Some?
    case Expire(b, i) => Running(s, b) && Has(s, b, i) && WorkerAt(s, b, i).pc == Waiting
    case Return(b, i, _, _, _) => Running(s, b) && Has(s, b, i) && WorkerAt(s, b, i).pc == Executing
    case Raise(b, i, _) => Running(s, b) && Has(s, b, i) && WorkerAt(s, b, i).pc == Executing
    case Cancel(b, i) => Has(s, b, i) && s.batches[b].phase == Closing && Live(WorkerAt(s, b, i))
    case Take(b) =>
      b < |s.batches| && s.batches[b].phase == FanIn && s.batches[b].remaining > 0 && s.batches[b].queue != []
    case Finish(b) => b < |s.batches| && s.batches[b].phase == FanIn && s.batches[b].remaining <= 0
    case Close(b) => b < |s.batches| && s.batches[b].phase == FanIn
    case Reap(b) =>
      b < |s.batches| && s.batches[b].phase == Closing && NoneLive(s.batches[b].workers)
  }

  function NewBatch(gatedTools: set<string>, conversation: string, calls: seq<ToolCall>): Batch {
    Batch(conversation,
          seq(|calls|, i requires 0 <= i < |calls| => Worker(calls[i], calls[i].name in gatedTools, NotStarted, None)),
          [], [], seq(|calls|, i => None), |calls|, FanIn, [], [])
  }

  function PutBatch(s: World, b: nat, batch: Batch): World
    requires b < |s.batches|
  {
    s.(batches := s.batches[b := batch])
  }

  /** Worker i of batch b becomes w and puts `items` on its queue. */
  function MoveWorker(batch: Batch, i: nat, w: Worker, items: seq<Item>): Batch
    requires i < |batch.workers|
  {
    batch.(workers := batch.workers[i := w], queue := batch.queue + items)
  }

  function Move(s: World, b: nat, i: nat, w: Worker, items: seq<Item>): World
    requires Has(s, b, i)
  {
    PutBatch(s, b, MoveWorker(s.batches[b], i, w, items))
  }

  function Forget(s: World, callId: string): World {
    s.(pending := s.pending - {callId})
  }

  function Note(s: World, r: Record): World {
    s.(log := s.log + [r])
  }

  /** The call is past its gate: it is announced and handed to the registry. */
  function StartExecution(s: World, b: nat, i: nat): World
    requires Has(s, b, i)
  {
    var w := WorkerAt(s, b, i);
    Note(Move(s, b, i, w.(pc := Executing), [Start(w.call, i)]), Began(b, i))
  }

  function EndCall(s: World, b: nat, i: nat, outcome: Outcome): World
    requires Has(s, b, i)
  {
    var w := WorkerAt(s, b, i);
    Move(s, b, i, w.(pc := Finished(outcome)), Ending(w.call, i, outcome))
  }

  /** The gate: an answer removes the entry first, and settles the future only for the owning conversation. */
  function ResolveApproval(s: World, callId: string, approved: bool, conversation: string): World {
    if callId in s.pending then
      var e := s.pending[callId];
      var s1 := Note(Forget(s, callId), Answered(callId, approved, conversation, Some((e.batch, e.index))));
      if e.conversation == conversation && Has(s1, e.batch, e.index) && WorkerAt(s1, e.batch, e.index).future.None? then
        Move(s1, e.batch, e.index, WorkerAt(s1, e.batch, e.index).(future := Some(approved)), [])
      else s1
    else Note(s, Answered(callId, approved, conversation, None))
  }

  function TakeItem(batch: Batch): Batch
    requires batch.queue != []
  {
    var item := batch.queue[0];
    var rest := batch.(queue := batch.queue[1..], taken := batch.taken + [item]);
    if item.DoneMarker? && item.worker < |batch.results| then
      rest.(results := batch.results[item.worker := Some(item.slot)], remaining := batch.remaining - 1)
    else rest
  }

  function MessagesIn(results: seq<Option<Slot>>): seq<Message> {
    if results == [] then []
    else (if results[0].Some? then [results[0].value.message] else []) + MessagesIn(results[1..])
  }

  function TurnsIn(results: seq<Option<Slot>>): seq<Turn> {
    if results == [] then []
    else (if results[0].Some? then results[0].value.turns else []) + TurnsIn(results[1..])
  }

  /** The loop over the slots after the fan-in: an unfilled slot would make it fail. */
  function CollectResults(batch: Batch): Batch {
    if None in batch.results then batch.(phase := Crashed)
    else batch.(phase := Completed, messages := MessagesIn(batch.results), turns := TurnsIn(batch.results))
  }

  function Step(s: World, a: Action): World
    requires Enabled(s, a)
  {
    match a
    case Open(conversation, calls) => s.(batches := s.batches + [NewBatch(s.gatedTools, conversation, calls)])
    case Resolve(callId, approved, conversation) => ResolveApproval(s, callId, approved, conversation)
    case Begin(b, i) =>
      var w := WorkerAt(s, b, i);
      if w.gated then
        var s1 := s.(pending := s.pending[w.call.id := Entry(b, i, s.batches[b].conversation)]);
        Move(s1, b, i, w.(pc := Waiting), [Ask(w.call, i)])
      else StartExecution(s, b, i)
    case Wake(b, i) =>
      var w := WorkerAt(s, b, i);
      var s1 := Forget(s, w.call.id);
      if w.future.value then StartExecution(s1, b, i) else EndCall(s1, b, i, Denied)
    case Expire(b, i) => EndCall(Forget(s, WorkerAt(s, b, i).call.id), b, i, TimedOut)
    case Return(b, i, ok, observation, at) => EndCall(s, b, i, Returned(ok, observation, at))
    case Raise(b, i, error) => EndCall(s, b, i, Raised(error))
    case Cancel(b, i) =>
      var w := WorkerAt(s, b, i);
      var s1 := if w.pc == Waiting then Forget(s, w.call.id) else s;
      Move(s1, b, i, w.(pc := Cancelled), [])
    case Take(b) => PutBatch(s, b, TakeItem(s.batches[b]))
    case Finish(b) => PutBatch(s, b, CollectResults(s.batches[b]))
    case Close(b) => PutBatch(s, b, s.batches[b].(phase := Closing))
    case Reap(b) => PutBatch(s, b, s.batches[b].(phase := Closed))
  }

  function Initial(gatedTools: set<string>): World { World(gatedTools, [], map[], []) }

  ghost predicate CanRun(s: World, actions: seq<Action>)
    decreases |actions|
  {
    actions != [] ==> Enabled(s, actions[0]) && CanRun(Step(s, actions[0]), actions[1..])
  }

  /** The state a schedule leads to. */
  ghost function Run(s: World, actions: seq<Action>): World
    requires CanRun(s, actions)
    decreases |actions|
  {
    if actions == [] then s else Run(Step(s, actions[0]), actions[1..])
  }
}
