/** The fan-in loop terminates: a batch's work is bounded whatever the schedule, and it is never stuck. */
module FanOutProgress {
  import opened Types
  import opened ToolFanOut
  import opened FanOutHistory

  /** The steps a worker and the items it will still put on the queue can cost. */
  function Weight(w: Worker): nat {
    match w.pc
    case NotStarted => 7
    case Waiting => 5
    case Executing => 3
    case Finished(_) => 0
    case Cancelled => 0
  }

  function Weights(workers: seq<Worker>): nat {
    if workers == [] then 0 else Weight(workers[0]) + Weights(workers[1..])
  }

  /** Remaining worker steps, plus the queue, plus the ending of the batch. */
  function Cost(batch: Batch): nat {
    Weights(batch.workers) + |batch.queue| +
    match batch.phase { case FanIn => 2 case Closing => 1 case _ => 0 }
  }

  lemma {:induction false} WeightsUpdate(workers: seq<Worker>, i: nat, w: Worker)
    requires i < |workers|
    ensures Weights(workers[i := w]) == Weights(workers) - Weight(workers[i]) + Weight(w)
  {
    var after := workers[i := w];
    if i == 0 {
      assert after[1..] == workers[1..];
    } else {
      assert after[1..] == workers[1..][i - 1 := w];
      WeightsUpdate(workers[1..], i - 1, w);
    }
  }

  /** The batch a step works on; opening a batch and answering an approval work on none. */
  function Target(a: Action): Option<nat> {
    match a
    case Open(_, _) => None
    case Resolve(_, _, _) => None
    case Begin(b, _) => Some(b)
    case Wake(b, _) => Some(b)
    case Expire(b, _) => Some(b)
    case Return(b, _, _, _, _) => Some(b)
    case Raise(b, _, _) => Some(b)
    case Cancel(b, _) => Some(b)
    case Take(b) => Some(b)
    case Finish(b) => Some(b)
    case Close(b) => Some(b)
    case Reap(b) => Some(b)
  }

  lemma MoveCost(batch: Batch, i: nat, w: Worker, items: seq<Item>)
    requires i < |batch.workers|
    ensures Cost(MoveWorker(batch, i, w, items)) == Cost(batch) - Weight(batch.workers[i]) + Weight(w) + |items|
  {
    WeightsUpdate(batch.workers, i, w);
  }

  lemma WorkerStepCost(s: World, a: Action)
    requires Enabled(s, a) && (a.Begin? || a.Wake? || a.Expire? || a.Return? || a.Raise? || a.Cancel?)
    ensures Cost(Step(s, a).batches[a.b]) < Cost(s.batches[a.b])
    ensures forall c :: 0 <= c < |s.batches| && c != a.b ==> Step(s, a).batches[c] == s.batches[c]
  {
    hide Cost;
    var s', b, i := Step(s, a), a.b, a.i;
    var batch, w := s.batches[b], WorkerAt(s, b, i);
    match a
    case Begin(_, _) =>
      MoveCost(batch, i, w.(pc := Waiting), [Ask(w.call, i)]);
      MoveCost(batch, i, w.(pc := Executing), [Start(w.call, i)]);
    case Wake(_, _) =>
      MoveCost(batch, i, w.(pc := Executing), [Start(w.call, i)]);
      MoveCost(batch, i, w.(pc := Finished(Denied)), Ending(w.call, i, Denied));
    case Expire(_, _) => MoveCost(batch, i, w.(pc := Finished(TimedOut)), Ending(w.call, i, TimedOut));
    case Return(_, _, ok, observation, at) =>
      var outcome := Returned(ok, observation, at);
      MoveCost(batch, i, w.(pc := Finished(outcome)), Ending(w.call, i, outcome));
    case Raise(_, _, error) => MoveCost(batch, i, w.(pc := Finished(Raised(error))), Ending(w.call, i, Raised(error)));
    case Cancel(_, _) => MoveCost(batch, i, w.(pc := Cancelled), []);
  }

  ghost predicate Lowers(s: World, a: Action, b: nat)
    requires Enabled(s, a) && b < |s.batches|
  {
    && b < |Step(s, a).batches|
    && if Target(a) == Some(b) then Cost(Step(s, a).batches[b]) < Cost(s.batches[b])
       else Cost(Step(s, a).batches[b]) == Cost(s.batches[b])
  }

  lemma ResolveCost(s: World, a: Action, b: nat)
    requires Enabled(s, a) && b < |s.batches| && a.Resolve?
    ensures Lowers(s, a, b)
  {
    if a.callId in s.pending {
      var e := s.pending[a.callId];
      if e.batch == b && Has(s, b, e.index) {
        MoveCost(s.batches[b], e.index, WorkerAt(s, b, e.index).(future := Some(a.approved)), []);
      }
    }
  }

  lemma LoopCost(s: World, a: Action, b: nat)
    requires Enabled(s, a) && b < |s.batches| && (a.Open? || a.Take? || a.Finish? || a.Close? || a.Reap?)
    ensures Lowers(s, a, b)
  {
  }

  lemma WorkersCost(s: World, a: Action, b: nat)
    requires Enabled(s, a) && b < |s.batches|
    requires !(a.Open? || a.Resolve? || a.Take? || a.Finish? || a.Close? || a.Reap?)
    ensures Lowers(s, a, b)
  {
    WorkerStepCost(s, a);
  }

  /** A step lowers the cost of the batch it works on and leaves the cost of every other batch as it was. */
  lemma StepCost(s: World, a: Action, b: nat)
    requires Enabled(s, a) && b < |s.batches|
    ensures b < |Step(s, a).batches|
    ensures if Target(a) == Some(b) then Cost(Step(s, a).batches[b]) < Cost(s.batches[b])
            else Cost(Step(s, a).batches[b]) == Cost(s.batches[b])
  {
    hide Step, Enabled, Cost, Target;
    if a.Resolve? {
      ResolveCost(s, a, b);
    } else if a.Open? || a.Take? || a.Finish? || a.Close? || a.Reap? {
      LoopCost(s, a, b);
    } else {
      WorkersCost(s, a, b);
    }
  }

  function StepsOn(actions: seq<Action>, b: nat): nat {
    if actions == [] then 0 else (if Target(actions[0]) == Some(b) then 1 else 0) + StepsOn(actions[1..], b)
  }

  /** In any schedule a batch takes no more steps than its cost: the fan-in loop and its workers end. */
  lemma {:induction false} BoundedWork(s: World, actions: seq<Action>, b: nat)
    requires CanRun(s, actions) && b < |s.batches|
    ensures b < |Run(s, actions).batches|
    ensures StepsOn(actions, b) + Cost(Run(s, actions).batches[b]) <= Cost(s.batches[b])
    decreases |actions|
  {
    hide Cost, Enabled, Step;
    if actions != [] {
      StepCost(s, actions[0], b);
      BoundedWork(Step(s, actions[0]), actions[1..], b);
    }
  }

  /** A batch of n calls costs 7 n + 2 when it is opened. */
  lemma {:induction false} OpeningCost(gatedTools: set<string>, conversation: string, calls: seq<ToolCall>)
    ensures Cost(NewBatch(gatedTools, conversation, calls)) == 7 * |calls| + 2
  {
    if calls != [] {
      OpeningCost(gatedTools, conversation, calls[1..]);
      assert NewBatch(gatedTools, conversation, calls).workers[1..]
          == NewBatch(gatedTools, conversation, calls[1..]).workers;
    }
  }

  /** With an empty queue, a worker whose slot is open has not ended. */
  lemma UnfilledIsLive(w: Worker, i: nat, taken: seq<Item>)
    requires WorkerFlow(w, i, taken, [], None)
    ensures Live(w)
  {
    assert Project(taken, i) + [] == Project(taken, i);
  }

  /** While the fan-in loop runs, the batch can take a step that is not an abandonment. */
  lemma NeverStuck(gatedTools: set<string>, actions: seq<Action>, b: nat) returns (a: Action)
    requires CanRun(Initial(gatedTools), actions)
    requires var s := Run(Initial(gatedTools), actions); b < |s.batches| && s.batches[b].phase == FanIn
    ensures Enabled(Run(Initial(gatedTools), actions), a) && Target(a) == Some(b) && !a.Close?
  {
    InvRun(Initial(gatedTools), actions);
    assert BatchInv(Run(Initial(gatedTools), actions).batches[b]);
    a := EnabledStep(Run(Initial(gatedTools), actions), b);
  }

  lemma EnabledStep(s: World, b: nat) returns (a: Action)
    requires b < |s.batches| && s.batches[b].phase == FanIn && Flow(s.batches[b])
    ensures Enabled(s, a) && Target(a) == Some(b) && !a.Close?
  {
    hide Flow, NoneLive;
    var batch := s.batches[b];
    if batch.remaining <= 0 {
      a := Finish(b);
    } else if batch.queue != [] {
      a := Take(b);
    } else {
      var i := LiveWorker(batch);
      a := LiveStep(s, b, i);
    }
  }

  lemma LiveStep(s: World, b: nat, i: nat) returns (a: Action)
    requires Running(s, b) && Has(s, b, i) && Live(WorkerAt(s, b, i))
    ensures Enabled(s, a) && Target(a) == Some(b) && !a.Close?
  {
    match WorkerAt(s, b, i).pc
    case NotStarted => a := Begin(b, i);
    case Waiting => a := Expire(b, i);
    case Executing => a := Raise(b, i, "");
  }

  lemma LiveWorker(batch: Batch) returns (i: nat)
    requires Flow(batch) && batch.remaining > 0 && batch.queue == []
    ensures i < |batch.workers| && Live(batch.workers[i])
  {
    NoneOpen(batch.results);
    i :| 0 <= i < |batch.results| && batch.results[i] == None;
    UnfilledIsLive(batch.workers[i], i, batch.taken);
  }

  /** An abandoned batch is reaped: while it closes, a worker can be cancelled or the batch is done. */
  lemma ClosingEnds(s: World, b: nat) returns (a: Action)
    requires b < |s.batches| && s.batches[b].phase == Closing
    ensures Enabled(s, a) && Target(a) == Some(b)
  {
    if w :| w in s.batches[b].workers && Live(w) {
      var i :| 0 <= i < |s.batches[b].workers| && s.batches[b].workers[i] == w;
      a := Cancel(b, i);
    } else {
      a := Reap(b);
    }
  }
}
