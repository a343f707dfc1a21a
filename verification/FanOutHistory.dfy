/**
 What every schedule of a batch keeps, and what a completed batch leaves behind: each worker's events in order with
 one done marker at the end, every slot filled, and a history that depends on the outcomes alone.
 */
module FanOutHistory {
  import opened Types
  import opened Sequences
  import opened ToolFanOut

  /** The items of worker i, in order. */
  function Project(items: seq<Item>, i: nat): seq<Item> {
    if items == [] then []
    else (if items[0].worker == i then [items[0]] else []) + Project(items[1..], i)
  }

  lemma {:induction false} ProjectAppend(a: seq<Item>, b: seq<Item>, i: nat)
    ensures Project(a + b, i) == Project(a, i) + Project(b, i)
  {
    if a == [] {
      assert a + b == b;
    } else {
      assert (a + b)[1..] == a[1..] + b;
      ProjectAppend(a[1..], b, i);
      AppendAssociative(if a[0].worker == i then [a[0]] else [], Project(a[1..], i), Project(b, i));
    }
  }

  lemma {:induction false} ProjectOwn(items: seq<Item>, k: nat, i: nat)
    requires AllFrom(items, k)
    ensures Project(items, i) == if i == k then items else []
  {
    if items != [] {
      ProjectOwn(items[1..], k, i);
    }
  }

  function CountOpen(results: seq<Option<Slot>>): nat {
    if results == [] then 0 else (if results[0].None? then 1 else 0) + CountOpen(results[1..])
  }

  lemma {:induction false} FillingOne(results: seq<Option<Slot>>, k: nat, slot: Slot)
    requires k < |results| && results[k] == None
    ensures CountOpen(results[k := Some(slot)]) == CountOpen(results) - 1
  {
    var after := results[k := Some(slot)];
    if k == 0 {
      assert after[1..] == results[1..];
    } else {
      assert after[1..] == results[1..][k - 1 := Some(slot)];
      FillingOne(results[1..], k - 1, slot);
    }
  }

  lemma {:induction false} NoneOpen(results: seq<Option<Slot>>)
    ensures CountOpen(results) == 0 <==> None !in results
  {
    if results != [] {
      NoneOpen(results[1..]);
    }
  }

  lemma {:induction false} AllOpen(n: nat)
    ensures CountOpen(seq(n, i => None)) == n
  {
    if n > 0 {
      AllOpen(n - 1);
      var all: seq<Option<Slot>> := seq(n, i => None);
      assert all[1..] == seq(n - 1, i => None);
    }
  }

  // ---- The invariant of one batch ----

  predicate WasAsked(w: Worker) {
    w.pc == Waiting || (w.pc.Finished? && (w.pc.outcome.Denied? || w.pc.outcome.TimedOut?))
  }

  /** The slot that worker i has filled, given what the fan-in has taken from it. */
  function Filled(w: Worker, i: nat, mine: seq<Item>): Option<Slot> {
    if w.pc.Finished? && mine == Emitted(w, i) then Some(SlotOf(w.call, w.pc.outcome)) else None
  }

  /** Worker i: what was taken, followed by what is queued, is what it has emitted; its slot is filled by its marker. */
  ghost predicate WorkerFlow(w: Worker, i: nat, taken: seq<Item>, queue: seq<Item>, result: Option<Slot>) {
    && w.pc != Cancelled
    && (WasAsked(w) ==> w.gated)
    && Project(taken, i) + Project(queue, i) == Emitted(w, i)
    && result == Filled(w, i, Project(taken, i))
  }

  ghost predicate Flow(batch: Batch) {
    && |batch.results| == |batch.workers|
    && batch.remaining == CountOpen(batch.results)
    && (forall i :: 0 <= i < |batch.workers| ==>
          WorkerFlow(batch.workers[i], i, batch.taken, batch.queue, batch.results[i]))
    && (forall item :: item in batch.queue ==> item.worker < |batch.workers|)
  }

  ghost predicate BatchInv(batch: Batch) {
    match batch.phase
    case FanIn => Flow(batch)
    case Completed =>
      && Flow(batch) && None !in batch.results
      && batch.messages == MessagesIn(batch.results) && batch.turns == TurnsIn(batch.results)
    case Crashed => false
    case _ => true
  }

  lemma MarkerIsLast(w: Worker, i: nat, j: nat)
    requires j < |Emitted(w, i)|
    ensures Emitted(w, i)[j].worker == i
    ensures Emitted(w, i)[j].DoneMarker? <==> w.pc.Finished? && j == |Emitted(w, i)| - 1
    ensures Emitted(w, i)[j].DoneMarker? ==> Emitted(w, i)[j].slot == SlotOf(w.call, w.pc.outcome)
  {
  }

  // ---- One worker moves ----

  ghost predicate AllFrom(items: seq<Item>, k: nat) {
    forall item :: item in items ==> item.worker == k
  }

  /** Worker w becomes w' by putting `items` on the queue. */
  ghost predicate Moves(w: Worker, w': Worker, i: nat, items: seq<Item>) {
    && w'.pc != Cancelled && (WasAsked(w') ==> w'.gated)
    && Emitted(w', i) == Emitted(w, i) + items
    && AllFrom(items, i)
    && (if items == [] then w'.call == w.call && w'.pc == w.pc && w'.gated == w.gated else !w.pc.Finished?)
  }

  lemma OwnFlow(w: Worker, w': Worker, i: nat, taken: seq<Item>, queue: seq<Item>, result: Option<Slot>,
      items: seq<Item>)
    requires WorkerFlow(w, i, taken, queue, result) && Moves(w, w', i, items)
    ensures WorkerFlow(w', i, taken, queue + items, result)
  {
    ProjectAppend(queue, items, i);
    ProjectOwn(items, i, i);
    AppendAssociative(Project(taken, i), Project(queue, i), items);
    assert |Project(taken, i)| <= |Emitted(w, i)|;
  }

  lemma OtherFlow(w: Worker, i: nat, taken: seq<Item>, queue: seq<Item>, result: Option<Slot>, k: nat, items: seq<Item>)
    requires WorkerFlow(w, i, taken, queue, result) && k != i
    requires AllFrom(items, k)
    ensures WorkerFlow(w, i, taken, queue + items, result)
  {
    ProjectAppend(queue, items, i);
    ProjectOwn(items, k, i);
  }

  lemma FlowMove(batch: Batch, k: nat, w': Worker, items: seq<Item>)
    requires Flow(batch) && k < |batch.workers| && Moves(batch.workers[k], w', k, items)
    ensures Flow(MoveWorker(batch, k, w', items))
  {
    var after := MoveWorker(batch, k, w', items);
    assert AllFrom(items, k);
    forall i | 0 <= i < |after.workers|
      ensures WorkerFlow(after.workers[i], i, after.taken, after.queue, after.results[i])
    {
      hide WorkerFlow, Moves, AllFrom;
      if i == k {
        OwnFlow(batch.workers[k], w', k, batch.taken, batch.queue, batch.results[k], items);
      } else {
        OtherFlow(batch.workers[i], i, batch.taken, batch.queue, batch.results[i], k, items);
      }
    }
  }

  // ---- The fan-in takes one item ----

  lemma TakeOwn(w: Worker, i: nat, taken: seq<Item>, queue: seq<Item>, result: Option<Slot>)
    requires queue != [] && queue[0].worker == i
    requires WorkerFlow(w, i, taken, queue, result)
    ensures result == None
    ensures var item := queue[0];
            WorkerFlow(w, i, taken + [item], queue[1..], if item.DoneMarker? then Some(item.slot) else None)
  {
    var item := queue[0];
    ProjectAppend(taken, [item], i);
    var mine := Project(taken, i);
    assert Project([item], i) == [item];
    assert Project(queue, i) == [item] + Project(queue[1..], i);
    AppendAssociative(mine, [item], Project(queue[1..], i));
    assert Emitted(w, i)[|mine|] == item;
    MarkerIsLast(w, i, |mine|);
    if item.DoneMarker? {
      assert |mine + [item]| == |Emitted(w, i)|;
      assert mine + [item] == Emitted(w, i);
    }
  }

  lemma TakeOther(w: Worker, i: nat, taken: seq<Item>, queue: seq<Item>, result: Option<Slot>)
    requires queue != [] && queue[0].worker != i
    requires WorkerFlow(w, i, taken, queue, result)
    ensures WorkerFlow(w, i, taken + [queue[0]], queue[1..], result)
  {
    ProjectAppend(taken, [queue[0]], i);
  }

  lemma TakeKeepsWorker(batch: Batch, i: nat)
    requires Flow(batch) && batch.queue != [] && i < |batch.workers|
    ensures var after := TakeItem(batch);
            |after.results| == |batch.workers|
                && WorkerFlow(after.workers[i], i, after.taken, after.queue, after.results[i])
  {
    hide WorkerFlow;
    if i == batch.queue[0].worker {
      TakeOwn(batch.workers[i], i, batch.taken, batch.queue, batch.results[i]);
    } else {
      TakeOther(batch.workers[i], i, batch.taken, batch.queue, batch.results[i]);
    }
  }

  lemma FlowTake(batch: Batch)
    requires Flow(batch) && batch.queue != []
    ensures Flow(TakeItem(batch))
  {
    hide WorkerFlow;
    var item, after := batch.queue[0], TakeItem(batch);
    var k := item.worker;
    TakeOwn(batch.workers[k], k, batch.taken, batch.queue, batch.results[k]);
    if item.DoneMarker? {
      FillingOne(batch.results, k, item.slot);
    }
    forall i | 0 <= i < |after.workers|
      ensures WorkerFlow(after.workers[i], i, after.taken, after.queue, after.results[i])
    {
      TakeKeepsWorker(batch, i);
    }
  }

  // ---- Every step ----

  ghost predicate Inv(s: World) {
    forall b :: 0 <= b < |s.batches| ==> BatchInv(s.batches[b])
  }

  lemma NewBatchFlow(gatedTools: set<string>, conversation: string, calls: seq<ToolCall>)
    ensures Flow(NewBatch(gatedTools, conversation, calls))
  {
    AllOpen(|calls|);
  }

  /** The transitions of a worker that put something on the queue. */
  lemma WorkerSteps(w: Worker, i: nat, outcome: Outcome)
    requires WasAsked(w) ==> w.gated
    ensures w.pc == NotStarted && w.gated ==> Moves(w, w.(pc := Waiting), i, [Ask(w.call, i)])
    ensures w.pc == Waiting || (w.pc == NotStarted && !w.gated) ==> Moves(w, w.(pc := Executing), i, [Start(w.call, i)])
    ensures w.pc == Waiting && (outcome.Denied? || outcome.TimedOut?) ==>
              Moves(w, w.(pc := Finished(outcome)), i, Ending(w.call, i, outcome))
    ensures w.pc == Executing && (outcome.Returned? || outcome.Raised?) ==>
              Moves(w, w.(pc := Finished(outcome)), i, Ending(w.call, i, outcome))
    ensures forall f :: w.pc != Cancelled ==> Moves(w, w.(future := f), i, [])
  {
  }

  lemma InvPut(s: World, b: nat, batch: Batch)
    requires Inv(s) && b < |s.batches| && BatchInv(batch)
    ensures Inv(PutBatch(s, b, batch))
  {
  }

  lemma InvMove(s: World, b: nat, i: nat, w': Worker, items: seq<Item>)
    requires Inv(s) && Has(s, b, i) && Running(s, b)
    requires s.batches[b].phase == FanIn ==> Moves(WorkerAt(s, b, i), w', i, items)
    ensures Inv(Move(s, b, i, w', items))
  {
    if s.batches[b].phase == FanIn {
      FlowMove(s.batches[b], i, w', items);
    }
    InvPut(s, b, MoveWorker(s.batches[b], i, w', items));
  }

  lemma InvFuture(s: World, b: nat, i: nat, f: Option<bool>)
    requires Inv(s) && Has(s, b, i)
    ensures Inv(Move(s, b, i, WorkerAt(s, b, i).(future := f), []))
  {
    var batch, w := s.batches[b], WorkerAt(s, b, i);
    assert BatchInv(batch);
    if batch.phase == FanIn || batch.phase == Completed {
      assert WorkerFlow(w, i, batch.taken, batch.queue, batch.results[i]);
      WorkerSteps(w, i, Denied);
      FlowMove(batch, i, w.(future := f), []);
    }
    InvPut(s, b, MoveWorker(batch, i, w.(future := f), []));
  }

  lemma InvWorker(s: World, a: Action)
    requires Inv(s) && Enabled(s, a) && (a.Begin? || a.Wake? || a.Expire? || a.Return? || a.Raise?)
    ensures Inv(Step(s, a))
  {
    var b, i := a.b, a.i;
    var batch, w := s.batches[b], WorkerAt(s, b, i);
    assert BatchInv(batch);
    if batch.phase == FanIn {
      assert WorkerFlow(w, i, batch.taken, batch.queue, batch.results[i]);
    }
    match a
    case Begin(_, _) =>
      if batch.phase == FanIn { WorkerSteps(w, i, Denied); }
      if w.gated {
        InvMove(s, b, i, w.(pc := Waiting), [Ask(w.call, i)]);
      } else {
        InvMove(s, b, i, w.(pc := Executing), [Start(w.call, i)]);
      }
    case Wake(_, _) =>
      if batch.phase == FanIn { WorkerSteps(w, i, Denied); }
      if w.future.value {
        InvMove(s, b, i, w.(pc := Executing), [Start(w.call, i)]);
      } else {
        InvEnd(s, b, i, Denied);
      }
    case Expire(_, _) => InvEnd(s, b, i, TimedOut);
    case Return(_, _, ok, observation, at) => InvEnd(s, b, i, Returned(ok, observation, at));
    case Raise(_, _, error) => InvEnd(s, b, i, Raised(error));
  }

  lemma InvEnd(s: World, b: nat, i: nat, outcome: Outcome)
    requires Inv(s) && Has(s, b, i) && Running(s, b)
    requires if outcome.Denied? || outcome.TimedOut? then WorkerAt(s, b, i).pc == Waiting
             else WorkerAt(s, b, i).pc == Executing
    ensures Inv(EndCall(s, b, i, outcome))
  {
    var batch, w := s.batches[b], WorkerAt(s, b, i);
    assert BatchInv(batch);
    if batch.phase == FanIn {
      assert WorkerFlow(w, i, batch.taken, batch.queue, batch.results[i]);
      WorkerSteps(w, i, outcome);
    }
    InvMove(s, b, i, w.(pc := Finished(outcome)), Ending(w.call, i, outcome));
  }

  /** Every step of every batch keeps the flow invariant, whatever the other batches do. */
  lemma InvStep(s: World, a: Action)
    requires Inv(s) && Enabled(s, a)
    ensures Inv(Step(s, a))
  {
    match a
    case Open(conversation, calls) => NewBatchFlow(s.gatedTools, conversation, calls);
    case Resolve(callId, approved, conversation) =>
      if callId in s.pending {
        var e := s.pending[callId];
        if Has(s, e.batch, e.index) {
          InvFuture(s, e.batch, e.index, Some(approved));
        }
      }
    case Take(b) =>
      FlowTake(s.batches[b]);
      InvPut(s, b, TakeItem(s.batches[b]));
    case Finish(b) =>
      NoneOpen(s.batches[b].results);
      InvPut(s, b, CollectResults(s.batches[b]));
    case Close(b) => InvPut(s, b, s.batches[b].(phase := Closing));
    case Reap(b) => InvPut(s, b, s.batches[b].(phase := Closed));
    case Cancel(b, i) => InvMove(s, b, i, WorkerAt(s, b, i).(pc := Cancelled), []);
    case _ => InvWorker(s, a);
  }

  lemma {:induction false} InvRun(s: World, actions: seq<Action>)
    requires Inv(s) && CanRun(s, actions)
    ensures Inv(Run(s, actions))
    decreases |actions|
  {
    if actions != [] {
      InvStep(s, actions[0]);
      InvRun(Step(s, actions[0]), actions[1..]);
    }
  }

  // ---- What a completed batch leaves behind ----

  /** The history a batch of calls with these outcomes must leave. */
  function MessagesFor(calls: seq<ToolCall>, outcomes: seq<Outcome>): seq<Message>
    requires |calls| == |outcomes|
  {
    if calls == [] then [] else [SlotOf(calls[0], outcomes[0]).message] + MessagesFor(calls[1..], outcomes[1..])
  }

  function TurnsFor(calls: seq<ToolCall>, outcomes: seq<Outcome>): seq<Turn>
    requires |calls| == |outcomes|
  {
    if calls == [] then [] else SlotOf(calls[0], outcomes[0]).turns + TurnsFor(calls[1..], outcomes[1..])
  }

  function CallsOf(batch: Batch): seq<ToolCall> {
    seq(|batch.workers|, i requires 0 <= i < |batch.workers| => batch.workers[i].call)
  }

  function OutcomesOf(batch: Batch): seq<Outcome>
    requires forall w :: w in batch.workers ==> w.pc.Finished?
  {
    seq(|batch.workers|, i requires 0 <= i < |batch.workers| => batch.workers[i].pc.outcome)
  }

  lemma {:induction false} SlotsInOrder(results: seq<Option<Slot>>, calls: seq<ToolCall>, outcomes: seq<Outcome>)
    requires |results| == |calls| == |outcomes|
    requires forall i :: 0 <= i < |results| ==> results[i] == Some(SlotOf(calls[i], outcomes[i]))
    ensures MessagesIn(results) == MessagesFor(calls, outcomes)
    ensures TurnsIn(results) == TurnsFor(calls, outcomes)
  {
    if results != [] {
      SlotsInOrder(results[1..], calls[1..], outcomes[1..]);
    }
  }

  lemma CompletedWorker(batch: Batch, i: nat)
    requires BatchInv(batch) && batch.phase == Completed && i < |batch.workers|
    ensures batch.workers[i].pc.Finished? && Project(batch.taken, i) == Emitted(batch.workers[i], i)
    ensures |batch.results| == |batch.workers|
    ensures batch.results[i] == Some(SlotOf(batch.workers[i].call, batch.workers[i].pc.outcome))
    ensures Project(batch.queue, i) == []
  {
    assert WorkerFlow(batch.workers[i], i, batch.taken, batch.queue, batch.results[i]);
    assert batch.results[i] in batch.results;
  }

  lemma CompletedSizes(batch: Batch)
    requires BatchInv(batch) && batch.phase == Completed
    ensures |batch.results| == |batch.workers|
    ensures batch.messages == MessagesIn(batch.results) && batch.turns == TurnsIn(batch.results)
    ensures forall item :: item in batch.queue ==> item.worker < |batch.workers|
  {
  }

  lemma HeadProjects(queue: seq<Item>)
    ensures queue != [] ==> Project(queue, queue[0].worker) != []
  {
  }

  lemma CompletedBatch(batch: Batch)
    requires BatchInv(batch) && batch.phase == Completed
    ensures forall w :: w in batch.workers ==> w.pc.Finished?
    ensures batch.messages == MessagesFor(CallsOf(batch), OutcomesOf(batch))
    ensures batch.turns == TurnsFor(CallsOf(batch), OutcomesOf(batch))
    ensures batch.queue == []
    ensures forall i :: 0 <= i < |batch.workers| ==> Project(batch.taken, i) == Emitted(batch.workers[i], i)
  {
    hide BatchInv, MessagesFor, TurnsFor, MessagesIn, TurnsIn, Emitted;
    CompletedSizes(batch);
    forall i | 0 <= i < |batch.workers|
      ensures batch.workers[i].pc.Finished? && Project(batch.taken, i) == Emitted(batch.workers[i], i)
      ensures batch.results[i] == Some(SlotOf(batch.workers[i].call, batch.workers[i].pc.outcome))
      ensures Project(batch.queue, i) == []
    {
      CompletedWorker(batch, i);
    }
    SlotsInOrder(batch.results, CallsOf(batch), OutcomesOf(batch));
    assert batch.queue != [] ==> batch.queue[0] in batch.queue;
    HeadProjects(batch.queue);
  }

  /**
   In any schedule, a batch that completes has every worker finished, every slot filled and nothing left on the queue;
   each worker's items ended with its one done marker; and the messages and turns appended are those of the calls'
   outcomes, in the order of the calls, even when call ids repeat.
   */
  lemma CompletedHistory(gatedTools: set<string>, actions: seq<Action>, b: nat)
    requires CanRun(Initial(gatedTools), actions)
    requires var s := Run(Initial(gatedTools), actions);
             b < |s.batches| && s.batches[b].phase == Completed
    ensures var batch := Run(Initial(gatedTools), actions).batches[b];
            && (forall w :: w in batch.workers ==> w.pc.Finished?)
            && batch.messages == MessagesFor(CallsOf(batch), OutcomesOf(batch))
            && batch.turns == TurnsFor(CallsOf(batch), OutcomesOf(batch))
            && batch.queue == []
            && forall i :: 0 <= i < |batch.workers| ==> Project(batch.taken, i) == Emitted(batch.workers[i], i)
  {
    hide Run, CanRun, BatchInv, MessagesFor, TurnsFor, Emitted, Project;
    InvRun(Initial(gatedTools), actions);
    CompletedBatch(Run(Initial(gatedTools), actions).batches[b]);
  }

  /** A finished worker's items hold exactly one done marker, and it is the last of them. */
  lemma OneMarkerLast(w: Worker, i: nat)
    requires w.pc.Finished?
    ensures var items := Emitted(w, i);
            && items != []
            && forall j :: 0 <= j < |items| ==> (items[j].DoneMarker? <==> j == |items| - 1)
  {
    forall j | 0 <= j < |Emitted(w, i)| ensures Emitted(w, i)[j].DoneMarker? <==> j == |Emitted(w, i)| - 1 {
      MarkerIsLast(w, i, j);
    }
  }

  /** Two completed batches with the same calls and outcomes leave the same history, whatever their schedules. */
  lemma HistoryIgnoresSchedule(gated1: set<string>, run1: seq<Action>, b1: nat, gated2: set<string>, run2: seq<Action>,
      b2: nat)
    requires CanRun(Initial(gated1), run1) && CanRun(Initial(gated2), run2)
    requires var s := Run(Initial(gated1), run1); b1 < |s.batches| && s.batches[b1].phase == Completed
    requires var s := Run(Initial(gated2), run2); b2 < |s.batches| && s.batches[b2].phase == Completed
    requires var w1, w2 := Run(Initial(gated1), run1).batches[b1].workers,
              Run(Initial(gated2), run2).batches[b2].workers;
             |w1| == |w2| && forall i :: 0 <= i < |w1| ==> w1[i].call == w2[i].call && w1[i].pc == w2[i].pc
    ensures var x1, x2 := Run(Initial(gated1), run1).batches[b1], Run(Initial(gated2), run2).batches[b2];
            x1.messages == x2.messages && x1.turns == x2.turns
  {
    CompletedHistory(gated1, run1, b1);
    CompletedHistory(gated2, run2, b2);
    var x1, x2 := Run(Initial(gated1), run1).batches[b1], Run(Initial(gated2), run2).batches[b2];
    assert CallsOf(x1) == CallsOf(x2);
    assert OutcomesOf(x1) == OutcomesOf(x2);
  }

  /** The loop over the slots never meets an unfilled one. */
  lemma NeverCrashes(gatedTools: set<string>, actions: seq<Action>, b: nat)
    requires CanRun(Initial(gatedTools), actions)
    ensures var s := Run(Initial(gatedTools), actions); b < |s.batches| ==> s.batches[b].phase != Crashed
  {
    InvRun(Initial(gatedTools), actions);
  }
}
