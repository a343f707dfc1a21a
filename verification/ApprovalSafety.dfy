/**
 The approval gate over every schedule of every set of concurrent batches: nothing gated executes without an approval
 from its own conversation, no pending entry outlives its wait, and exactly when an approval can still arrive.
 */
module ApprovalSafety {
  import opened Types
  import opened ToolFanOut
  import opened FanOutHistory

  // ---- Every step's frame ----

  /** The worker a step works on, if any. */
  function TargetWorker(s: World, a: Action): Option<(nat, nat)>
    requires Enabled(s, a)
  {
    match a
    case Begin(b, i) => Some((b, i))
    case Wake(b, i) => Some((b, i))
    case Expire(b, i) => Some((b, i))
    case Return(b, i, _, _, _) => Some((b, i))
    case Raise(b, i, _) => Some((b, i))
    case Cancel(b, i) => Some((b, i))
    case Resolve(callId, _, _) =>
      if callId in s.pending then Some((s.pending[callId].batch, s.pending[callId].index)) else None
    case _ => None
  }

  ghost predicate Framed(s: World, a: Action, b: nat, i: nat)
    requires Enabled(s, a) && Has(s, b, i)
  {
    var s' := Step(s, a);
    && Has(s', b, i)
    && s'.batches[b].conversation == s.batches[b].conversation
    && WorkerAt(s', b, i).call == WorkerAt(s, b, i).call
    && WorkerAt(s', b, i).gated == WorkerAt(s, b, i).gated
    && (TargetWorker(s, a) != Some((b, i)) ==> WorkerAt(s', b, i) == WorkerAt(s, b, i))
    && s'.gatedTools == s.gatedTools
  }

  lemma LoopFrame(s: World, a: Action, b: nat, i: nat)
    requires Enabled(s, a) && Has(s, b, i) && (a.Open? || a.Take? || a.Finish? || a.Close? || a.Reap?)
    ensures Framed(s, a, b, i)
  {
  }

  lemma ResolveFrame(s: World, a: Action, b: nat, i: nat)
    requires Enabled(s, a) && Has(s, b, i) && a.Resolve?
    ensures Framed(s, a, b, i)
  {
  }

  lemma WaitFrame(s: World, a: Action, b: nat, i: nat)
    requires Enabled(s, a) && Has(s, b, i) && (a.Begin? || a.Wake? || a.Expire?)
    ensures Framed(s, a, b, i)
  {
  }

  lemma RunFrame(s: World, a: Action, b: nat, i: nat)
    requires Enabled(s, a) && Has(s, b, i) && (a.Return? || a.Raise? || a.Cancel?)
    ensures Framed(s, a, b, i)
  {
  }

  /** A step leaves every other worker as it was, and no step changes a call, its gating or its conversation. */
  lemma Frame(s: World, a: Action, b: nat, i: nat)
    requires Enabled(s, a) && Has(s, b, i)
    ensures var s' := Step(s, a);
            && Has(s', b, i)
            && s'.batches[b].conversation == s.batches[b].conversation
            && WorkerAt(s', b, i).call == WorkerAt(s, b, i).call
            && WorkerAt(s', b, i).gated == WorkerAt(s, b, i).gated
            && (TargetWorker(s, a) != Some((b, i)) ==> WorkerAt(s', b, i) == WorkerAt(s, b, i))
    ensures Step(s, a).gatedTools == s.gatedTools
  {
    hide Step, Enabled, TargetWorker;
    if a.Open? || a.Take? || a.Finish? || a.Close? || a.Reap? {
      LoopFrame(s, a, b, i);
    } else if a.Resolve? {
      ResolveFrame(s, a, b, i);
    } else if a.Begin? || a.Wake? || a.Expire? {
      WaitFrame(s, a, b, i);
    } else {
      RunFrame(s, a, b, i);
    }
  }

  /** A worker that a step adds has not started. */
  lemma NewWorkers(s: World, a: Action, b: nat, i: nat)
    requires Enabled(s, a) && Has(Step(s, a), b, i) && !Has(s, b, i)
    ensures WorkerAt(Step(s, a), b, i).pc == NotStarted && WorkerAt(Step(s, a), b, i).future == None
    ensures WorkerAt(Step(s, a), b, i).gated == (WorkerAt(Step(s, a), b, i).call.name in s.gatedTools)
    ensures a.Open?
  {
  }

  /** A worker is gated exactly when its tool is. */
  ghost predicate GatesOk(s: World) {
    forall b: nat, i: nat :: Has(s, b, i) ==> WorkerAt(s, b, i).gated == (WorkerAt(s, b, i).call.name in s.gatedTools)
  }

  lemma GatesStep(s: World, a: Action)
    requires GatesOk(s) && Enabled(s, a)
    ensures GatesOk(Step(s, a)) && Step(s, a).gatedTools == s.gatedTools
  {
    hide Step, Enabled;
    var s' := Step(s, a);
    ToolsStay(s, a);
    forall b: nat, i: nat | Has(s', b, i)
      ensures WorkerAt(s', b, i).gated == (WorkerAt(s', b, i).call.name in s'.gatedTools)
    {
      if Has(s, b, i) {
        Frame(s, a, b, i);
      } else {
        NewWorkers(s, a, b, i);
      }
    }
  }

  lemma ToolsStay(s: World, a: Action)
    requires Enabled(s, a)
    ensures Step(s, a).gatedTools == s.gatedTools
  {
  }

  lemma {:induction false} GatesRun(s: World, actions: seq<Action>)
    requires GatesOk(s) && CanRun(s, actions)
    ensures GatesOk(Run(s, actions)) && Run(s, actions).gatedTools == s.gatedTools
    decreases |actions|
  {
    hide Step, Enabled, GatesOk;
    if actions != [] {
      GatesStep(s, actions[0]);
      GatesRun(Step(s, actions[0]), actions[1..]);
    }
  }

  /** In every reachable state the workers behind the gate are those of the gated tools. */
  lemma GateIs(gatedTools: set<string>, actions: seq<Action>, b: nat, i: nat)
    requires CanRun(Initial(gatedTools), actions) && Has(Run(Initial(gatedTools), actions), b, i)
    ensures var w := WorkerAt(Run(Initial(gatedTools), actions), b, i); w.gated <==> w.call.name in gatedTools
  {
    hide Run, CanRun;
    GatesRun(Initial(gatedTools), actions);
  }

  lemma LogGrows(s: World, a: Action)
    requires Enabled(s, a)
    ensures s.log <= Step(s, a).log && |Step(s, a).log| <= |s.log| + 1
  {
  }

  // ---- Pending entries belong to waiting workers ----

  ghost predicate EntryOk(s: World, callId: string, e: Entry) {
    && Has(s, e.batch, e.index)
    && WorkerAt(s, e.batch, e.index).call.id == callId
    && WorkerAt(s, e.batch, e.index).pc == Waiting
    && WorkerAt(s, e.batch, e.index).future == None
    && e.conversation == s.batches[e.batch].conversation
  }

  ghost predicate PendingOk(s: World) {
    && (forall callId :: callId in s.pending ==> EntryOk(s, callId, s.pending[callId]))
    && (forall b: nat, i: nat :: Has(s, b, i) && WorkerAt(s, b, i).pc == NotStarted ==>
        WorkerAt(s, b, i).future == None)
  }

  /** No step takes a worker back to its start, and an answer reaches waiting workers only. */
  lemma UnstartedStays(s: World, a: Action, b: nat, i: nat)
    requires PendingOk(s) && Enabled(s, a) && Has(s, b, i) && Has(Step(s, a), b, i)
    requires WorkerAt(Step(s, a), b, i).pc == NotStarted
    ensures WorkerAt(Step(s, a), b, i) == WorkerAt(s, b, i)
  {
    Frame(s, a, b, i);
    if a.Resolve? && a.callId in s.pending {
      assert EntryOk(s, a.callId, s.pending[a.callId]);
    }
  }

  lemma PendingStep(s: World, a: Action)
    requires PendingOk(s) && Enabled(s, a)
    ensures PendingOk(Step(s, a))
  {
    var s' := Step(s, a);
    forall callId | callId in s'.pending ensures EntryOk(s', callId, s'.pending[callId]) {
      var e := s'.pending[callId];
      if callId in s.pending && s.pending[callId] == e {
        assert EntryOk(s, callId, e);
        Frame(s, a, e.batch, e.index);
      }
    }
    forall b: nat, i: nat | Has(s', b, i) && WorkerAt(s', b, i).pc == NotStarted
        ensures WorkerAt(s', b, i).future == None {
      if Has(s, b, i) {
        Frame(s, a, b, i);
        UnstartedStays(s, a, b, i);
      } else {
        NewWorkers(s, a, b, i);
      }
    }
  }

  // ---- Nothing gated executes without its own conversation's approval ----

  /** Among the first n records, the owning conversation approved this worker's own pending entry. */
  ghost predicate Approved(log: seq<Record>, n: nat, b: nat, i: nat, callId: string, conversation: string)
    requires n <= |log|
  {
    exists q :: 0 <= q < n && log[q] == Answered(callId, true, conversation, Some((b, i)))
  }

  predicate Executed(w: Worker) {
    w.pc == Executing || (w.pc.Finished? && (w.pc.outcome.Returned? || w.pc.outcome.Raised?))
  }

  ghost predicate WorkerApproved(s: World, b: nat, i: nat)
    requires Has(s, b, i)
  {
    var w := WorkerAt(s, b, i);
    && (w.future == Some(true) ==> Approved(s.log, |s.log|, b, i, w.call.id, s.batches[b].conversation))
    && (Executed(w) ==> Began(b, i) in s.log && (w.gated ==> w.future == Some(true)))
  }

  /** A record that a worker's execution began comes, if the worker is gated, after its approval. */
  ghost predicate RecordApproved(s: World, p: nat)
    requires p < |s.log|
  {
    s.log[p].Began? ==>
      var b, i := s.log[p].batch, s.log[p].index;
      && Has(s, b, i)
      && (WorkerAt(s, b, i).gated ==> Approved(s.log, p, b, i, WorkerAt(s, b, i).call.id, s.batches[b].conversation))
  }

  ghost predicate ApprovalOk(s: World) {
    && (forall b: nat, i: nat :: Has(s, b, i) ==> WorkerApproved(s, b, i))
    && (forall p :: 0 <= p < |s.log| ==> RecordApproved(s, p))
  }

  lemma ApprovedKept(log: seq<Record>, log': seq<Record>, n: nat, n': nat, b: nat, i: nat, callId: string,
      conversation: string)
    requires log <= log' && n <= |log| && n <= n' <= |log'|
    requires Approved(log, n, b, i, callId, conversation)
    ensures Approved(log', n', b, i, callId, conversation)
  {
    var q :| 0 <= q < n && log[q] == Answered(callId, true, conversation, Some((b, i)));
    assert log'[q] == log[q];
  }

  /** What a step does to the worker it works on, as far as the gate is concerned. */
  lemma TargetStep(s: World, a: Action, b: nat, i: nat)
    requires Enabled(s, a) && Has(s, b, i) && TargetWorker(s, a) == Some((b, i)) && PendingOk(s)
    ensures Has(Step(s, a), b, i)
    ensures var s', w := Step(s, a), WorkerAt(s, b, i);
            var w' := WorkerAt(s', b, i);
            && (w'.future == w.future ||
                (s'.log == s.log + [Answered(w.call.id, w'.future.value, s.batches[b].conversation, Some((b, i)))]))
            && (Executed(w') && !Executed(w) ==>
                  s'.log == s.log + [Began(b, i)] && (w.gated ==> w.future == Some(true)) && w'.future == w.future)
            && (Executed(w) ==> w'.future == w.future)
  {
    match a
    case Resolve(callId, _, _) => assert EntryOk(s, callId, s.pending[callId]);
    case Begin(_, _) =>
    case Wake(_, _) =>
    case Expire(_, _) =>
    case _ =>
  }

  lemma WorkerApprovalStep(s: World, a: Action, b: nat, i: nat)
    requires PendingOk(s) && Enabled(s, a) && Has(s, b, i) && WorkerApproved(s, b, i)
    ensures Has(Step(s, a), b, i) && WorkerApproved(Step(s, a), b, i)
  {
    hide Step, Enabled;
    Frame(s, a, b, i);
    LogGrows(s, a);
    var s', w := Step(s, a), WorkerAt(s, b, i);
    if w.future == Some(true) {
      ApprovedKept(s.log, s'.log, |s.log|, |s'.log|, b, i, w.call.id, s.batches[b].conversation);
    }
    if TargetWorker(s, a) == Some((b, i)) {
      TargetStep(s, a, b, i);
      assert s'.log != s.log ==> s'.log[|s.log|] == s'.log[|s'.log| - 1];
    }
  }

  /** A step that records the beginning of an execution does so for the worker it works on. */
  lemma BeganStep(s: World, a: Action)
    requires Enabled(s, a) && PendingOk(s) && |Step(s, a).log| > |s.log| && Step(s, a).log[|s.log|].Began?
    ensures var r := Step(s, a).log[|s.log|];
            && TargetWorker(s, a) == Some((r.batch, r.index)) && Has(s, r.batch, r.index)
            && (WorkerAt(s, r.batch, r.index).gated ==> WorkerAt(s, r.batch, r.index).future == Some(true))
  {
  }

  lemma RecordStep(s: World, a: Action, p: nat)
    requires PendingOk(s) && ApprovalOk(s) && Enabled(s, a) && p < |Step(s, a).log|
    ensures RecordApproved(Step(s, a), p)
  {
    hide Step, Enabled;
    LogGrows(s, a);
    var s' := Step(s, a);
    if s'.log[p].Began? {
      var b, i := s'.log[p].batch, s'.log[p].index;
      if p < |s.log| {
        assert s'.log[p] == s.log[p];
        assert RecordApproved(s, p);
        Frame(s, a, b, i);
        if WorkerAt(s, b, i).gated {
          ApprovedKept(s.log, s'.log, p, p, b, i, WorkerAt(s, b, i).call.id, s.batches[b].conversation);
        }
      } else {
        BeganStep(s, a);
        Frame(s, a, b, i);
        assert WorkerApproved(s, b, i);
        if WorkerAt(s, b, i).gated {
          ApprovedKept(s.log, s'.log, p, p, b, i, WorkerAt(s, b, i).call.id, s.batches[b].conversation);
        }
      }
    }
  }

  lemma ApprovalStep(s: World, a: Action)
    requires PendingOk(s) && ApprovalOk(s) && Enabled(s, a)
    ensures ApprovalOk(Step(s, a))
  {
    hide Step, Enabled;
    var s' := Step(s, a);
    forall b: nat, i: nat | Has(s', b, i) ensures WorkerApproved(s', b, i) {
      if Has(s, b, i) {
        WorkerApprovalStep(s, a, b, i);
      } else {
        NewWorkers(s, a, b, i);
      }
    }
    forall p | 0 <= p < |s'.log| ensures RecordApproved(s', p) {
      RecordStep(s, a, p);
    }
  }

  lemma {:induction false} SafeRun(s: World, actions: seq<Action>)
    requires PendingOk(s) && ApprovalOk(s) && CanRun(s, actions)
    ensures PendingOk(Run(s, actions)) && ApprovalOk(Run(s, actions))
    decreases |actions|
  {
    hide Step, Enabled, PendingOk, ApprovalOk;
    if actions != [] {
      PendingStep(s, actions[0]);
      ApprovalStep(s, actions[0]);
      SafeRun(Step(s, actions[0]), actions[1..]);
    }
  }

  /**
   In every reachable state of every set of concurrent batches, an execution of a gated tool began only after an
   answer that said yes, carried the call's own conversation and hit the call's own pending entry. A call that is
   executing, or that ended by executing, has such a record.
   */
  lemma GatedCallsNeedApproval(gatedTools: set<string>, actions: seq<Action>, b: nat, i: nat)
    requires CanRun(Initial(gatedTools), actions) && Has(Run(Initial(gatedTools), actions), b, i)
    requires WorkerAt(Run(Initial(gatedTools), actions), b, i).call.name in gatedTools
    ensures var s := Run(Initial(gatedTools), actions);
            var w := WorkerAt(s, b, i);
            && (forall p :: 0 <= p < |s.log| && s.log[p] == Began(b, i) ==>
                  exists q :: 0 <= q < p
                      && s.log[q] == Answered(w.call.id, true, s.batches[b].conversation, Some((b, i))))
            && (Executed(w) ==> Began(b, i) in s.log)
  {
    var s := Run(Initial(gatedTools), actions);
    SafeRun(Initial(gatedTools), actions);
    GateIs(gatedTools, actions, b, i);
    assert WorkerApproved(s, b, i);
    forall p | 0 <= p < |s.log| && s.log[p] == Began(b, i)
      ensures exists q :: 0 <= q < p &&
                s.log[q] == Answered(WorkerAt(s, b, i).call.id, true, s.batches[b].conversation, Some((b, i)))
    {
      assert RecordApproved(s, p);
    }
  }

  /** A closed batch has no worker left to run. */
  ghost predicate ClosedOk(s: World) {
    forall b: nat, i: nat :: Has(s, b, i) && s.batches[b].phase == Closed ==> !Live(WorkerAt(s, b, i))
  }

  /** A batch is closed by reaping it, and from then on none of its workers moves. */
  lemma ClosedFrame(s: World, a: Action, b: nat, i: nat)
    requires Enabled(s, a) && Has(s, b, i) && Has(Step(s, a), b, i) && Step(s, a).batches[b].phase == Closed
    ensures if s.batches[b].phase == Closed then WorkerAt(Step(s, a), b, i).pc == WorkerAt(s, b, i).pc
            else !Live(WorkerAt(Step(s, a), b, i))
  {
    match a
    case Reap(c) =>
      if c == b {
        assert WorkerAt(s, b, i) in s.batches[b].workers;
      }
    case Resolve(_, _, _) =>
    case _ =>
  }

  lemma ClosedStep(s: World, a: Action)
    requires ClosedOk(s) && Enabled(s, a)
    ensures ClosedOk(Step(s, a))
  {
    hide Step, Enabled;
    var s' := Step(s, a);
    forall b: nat, i: nat | Has(s', b, i) && s'.batches[b].phase == Closed ensures !Live(WorkerAt(s', b, i)) {
      if Has(s, b, i) {
        ClosedFrame(s, a, b, i);
      } else {
        NotClosedWhenNew(s, a, b, i);
      }
    }
  }

  lemma NotClosedWhenNew(s: World, a: Action, b: nat, i: nat)
    requires Enabled(s, a) && Has(Step(s, a), b, i) && !Has(s, b, i)
    ensures Step(s, a).batches[b].phase == FanIn
  {
  }

  lemma {:induction false} ClosedRun(s: World, actions: seq<Action>)
    requires ClosedOk(s) && CanRun(s, actions)
    ensures ClosedOk(Run(s, actions))
    decreases |actions|
  {
    hide Step, Enabled, ClosedOk;
    if actions != [] {
      ClosedStep(s, actions[0]);
      ClosedRun(Step(s, actions[0]), actions[1..]);
    }
  }

  /**
   Pending entries always belong to workers that are still waiting, even when call ids repeat; so a worker that was
   answered, timed out, was cancelled or never waited has none, and a completed or closed batch leaves none behind.
   */
  lemma NoEntryOutlivesItsWait(gatedTools: set<string>, actions: seq<Action>, callId: string)
    requires CanRun(Initial(gatedTools), actions) && callId in Run(Initial(gatedTools), actions).pending
    ensures var s := Run(Initial(gatedTools), actions);
            var e := s.pending[callId];
            && Has(s, e.batch, e.index)
            && WorkerAt(s, e.batch, e.index).pc == Waiting && WorkerAt(s, e.batch, e.index).call.id == callId
            && s.batches[e.batch].phase != Completed && s.batches[e.batch].phase != Closed
  {
    var s := Run(Initial(gatedTools), actions);
    SafeRun(Initial(gatedTools), actions);
    ClosedRun(Initial(gatedTools), actions);
    var e := s.pending[callId];
    assert EntryOk(s, callId, e);
    if s.batches[e.batch].phase == Completed {
      CompletedHistory(gatedTools, actions, e.batch);
    }
  }

  // ---- Exactly when an approval can still arrive ----

  /** An answer that carried another conversation removed this worker's entry. */
  ghost predicate Misanswered(log: seq<Record>, b: nat, i: nat, conversation: string) {
    exists r :: r in log && r.Answered? && r.hit == Some((b, i)) && r.conversation != conversation
  }

  /** The worker waits on an unsettled future. */
  predicate Unanswered(w: Worker) { w.pc == Waiting && w.future == None }

  predicate Registered(s: World, b: nat, i: nat)
    requires Has(s, b, i)
  {
    var w := WorkerAt(s, b, i);
    w.call.id in s.pending && s.pending[w.call.id].batch == b && s.pending[w.call.id].index == i
  }

  ghost predicate DistinctIds(s: World) {
    forall b: nat, i: nat, c: nat, j: nat :: Has(s, b, i) && Has(s, c, j) && (b, i) != (c, j) ==>
      WorkerAt(s, b, i).call.id != WorkerAt(s, c, j).call.id
  }

  /** Answers only ever hit workers that have registered, and an answered worker has no entry any more. */
  ghost predicate HitOk(s: World) {
    forall r :: r in s.log && r.Answered? && r.hit.Some? ==>
      var (b, i) := r.hit.value;
      && Has(s, b, i) && WorkerAt(s, b, i).pc != NotStarted && !Registered(s, b, i)
  }

  ghost predicate ReachOk(s: World) {
    && HitOk(s)
    && (DistinctIds(s) ==> forall b: nat, i: nat :: Has(s, b, i) && Unanswered(WorkerAt(s, b, i)) ==>
          Registered(s, b, i) || Misanswered(s.log, b, i, s.batches[b].conversation))
  }

  lemma EarlierIds(s: World, a: Action)
    requires Enabled(s, a) && DistinctIds(Step(s, a))
    ensures DistinctIds(s)
  {
    forall b: nat, i: nat, c: nat, j: nat | Has(s, b, i) && Has(s, c, j) && (b, i) != (c, j)
      ensures WorkerAt(s, b, i).call.id != WorkerAt(s, c, j).call.id
    {
      hide Step, Enabled;
      Frame(s, a, b, i);
      Frame(s, a, c, j);
    }
  }

  /** Only starting a gated worker registers it. */
  lemma RegisteredStep(s: World, a: Action, b: nat, i: nat)
    requires PendingOk(s) && Enabled(s, a) && Has(s, b, i) && Has(Step(s, a), b, i) && Registered(Step(s, a), b, i)
    ensures Registered(s, b, i) || (a == Begin(b, i) && WorkerAt(s, b, i).pc == NotStarted)
  {
    Frame(s, a, b, i);
  }

  lemma StartedStays(s: World, a: Action, b: nat, i: nat)
    requires Enabled(s, a) && Has(s, b, i) && Has(Step(s, a), b, i) && WorkerAt(s, b, i).pc != NotStarted
    ensures WorkerAt(Step(s, a), b, i).pc != NotStarted
  {
    Frame(s, a, b, i);
  }

  /** An answer that hits an entry removes it. */
  lemma AnswerStep(s: World, a: Action)
    requires PendingOk(s) && Enabled(s, a) && |Step(s, a).log| > |s.log|
    requires Step(s, a).log[|s.log|].Answered? && Step(s, a).log[|s.log|].hit.Some?
    ensures var (b, i) := Step(s, a).log[|s.log|].hit.value;
            && Has(Step(s, a), b, i) && WorkerAt(Step(s, a), b, i).pc != NotStarted && !Registered(Step(s, a), b, i)
  {
    match a
    case Resolve(callId, _, _) => assert EntryOk(s, callId, s.pending[callId]);
    case _ =>
  }

  lemma HitStep(s: World, a: Action)
    requires PendingOk(s) && HitOk(s) && Enabled(s, a)
    ensures HitOk(Step(s, a))
  {
    var s' := Step(s, a);
    LogGrows(s, a);
    forall r | r in s'.log && r.Answered? && r.hit.Some?
      ensures var (b, i) := r.hit.value;
              && Has(s', b, i) && WorkerAt(s', b, i).pc != NotStarted && !Registered(s', b, i)
    {
      hide Step, Enabled;
      var (b, i) := r.hit.value;
      if r in s.log {
        Frame(s, a, b, i);
        StartedStays(s, a, b, i);
        if Registered(s', b, i) {
          RegisteredStep(s, a, b, i);
        }
      } else {
        var p :| 0 <= p < |s'.log| && s'.log[p] == r;
        AnswerStep(s, a);
      }
    }
  }

  /** A step of one worker leaves the entry of a worker with another id alone. */
  lemma OtherEntry(s: World, a: Action, b: nat, i: nat)
    requires Enabled(s, a) && Has(s, b, i) && Registered(s, b, i)
    requires match a
             case Resolve(callId, _, _) => callId != WorkerAt(s, b, i).call.id
             case Begin(c, j) => WorkerAt(s, c, j).call.id != WorkerAt(s, b, i).call.id
             case Wake(c, j) => WorkerAt(s, c, j).call.id != WorkerAt(s, b, i).call.id
             case Expire(c, j) => WorkerAt(s, c, j).call.id != WorkerAt(s, b, i).call.id
             case Cancel(c, j) => WorkerAt(s, c, j).call.id != WorkerAt(s, b, i).call.id
             case _ => true
    ensures Has(Step(s, a), b, i) && Registered(Step(s, a), b, i)
  {
    Frame(s, a, b, i);
  }

  /** An answer to a registered worker settles it, or is recorded as coming from another conversation. */
  lemma AnswerReaches(s: World, a: Action, b: nat, i: nat)
    requires PendingOk(s) && a.Resolve? && Has(s, b, i) && Registered(s, b, i) && a.callId == WorkerAt(s, b, i).call.id
    ensures Has(Step(s, a), b, i) && !Registered(Step(s, a), b, i)
    ensures if a.conversation == s.batches[b].conversation
            then WorkerAt(Step(s, a), b, i).future == Some(a.approved)
            else (WorkerAt(Step(s, a), b, i).future == None
                  && Misanswered(Step(s, a).log, b, i, s.batches[b].conversation))
  {
    assert EntryOk(s, a.callId, s.pending[a.callId]);
    var r := Answered(a.callId, a.approved, a.conversation, Some((b, i)));
    assert Step(s, a).log[|s.log|] == r;
  }

  /** With distinct ids a waiting worker keeps its entry until an answer takes it. */
  lemma EntryKept(s: World, a: Action, b: nat, i: nat)
    requires PendingOk(s) && Enabled(s, a) && DistinctIds(s)
    requires Has(s, b, i) && Registered(s, b, i) && Has(Step(s, a), b, i) && Unanswered(WorkerAt(Step(s, a), b, i))
    ensures Registered(Step(s, a), b, i) || Misanswered(Step(s, a).log, b, i, s.batches[b].conversation)
  {
    assert EntryOk(s, WorkerAt(s, b, i).call.id, s.pending[WorkerAt(s, b, i).call.id]);
    if a.Resolve? && a.callId == WorkerAt(s, b, i).call.id {
      AnswerReaches(s, a, b, i);
    } else {
      OtherEntry(s, a, b, i);
    }
  }

  /** A worker comes to wait on an unsettled future by registering it, and by nothing else. */
  lemma UnansweredStep(s: World, a: Action, b: nat, i: nat)
    requires Enabled(s, a) && Has(s, b, i) && Has(Step(s, a), b, i) && Unanswered(WorkerAt(Step(s, a), b, i))
    ensures Unanswered(WorkerAt(s, b, i)) || Registered(Step(s, a), b, i)
  {
    Frame(s, a, b, i);
  }

  lemma MisansweredKept(log: seq<Record>, log': seq<Record>, b: nat, i: nat, conversation: string)
    requires log <= log' && Misanswered(log, b, i, conversation)
    ensures Misanswered(log', b, i, conversation)
  {
    var r :| r in log && r.Answered? && r.hit == Some((b, i)) && r.conversation != conversation;
    assert r in log';
  }

  lemma ReachStep(s: World, a: Action)
    requires PendingOk(s) && ReachOk(s) && Enabled(s, a)
    ensures ReachOk(Step(s, a))
  {
    HitStep(s, a);
    LogGrows(s, a);
    var s' := Step(s, a);
    if DistinctIds(s') {
      EarlierIds(s, a);
      forall b: nat, i: nat | Has(s', b, i) && Unanswered(WorkerAt(s', b, i))
        ensures Registered(s', b, i) || Misanswered(s'.log, b, i, s'.batches[b].conversation)
      {
        hide Step, Enabled;
        if Has(s, b, i) {
          Frame(s, a, b, i);
          UnansweredStep(s, a, b, i);
          if Unanswered(WorkerAt(s, b, i)) {
            if Registered(s, b, i) {
              EntryKept(s, a, b, i);
            } else {
              MisansweredKept(s.log, s'.log, b, i, s.batches[b].conversation);
            }
          }
        } else {
          NewWorkers(s, a, b, i);
        }
      }
    }
  }

  lemma {:induction false} ReachRun(s: World, actions: seq<Action>)
    requires PendingOk(s) && ReachOk(s) && CanRun(s, actions)
    ensures PendingOk(Run(s, actions)) && ReachOk(Run(s, actions))
    decreases |actions|
  {
    hide Step, Enabled, PendingOk, ReachOk;
    if actions != [] {
      PendingStep(s, actions[0]);
      ReachStep(s, actions[0]);
      ReachRun(Step(s, actions[0]), actions[1..]);
    }
  }

  /**
   With distinct call ids, an answer from the owning conversation still settles a waiting call if and only if no other
   conversation has answered for it before: a stray answer grants nothing, but it uses the entry up.
   */
  lemma OwnerCanAnswerIff(gatedTools: set<string>, actions: seq<Action>, b: nat, i: nat, approved: bool)
    requires CanRun(Initial(gatedTools), actions)
    requires var s := Run(Initial(gatedTools), actions);
             Has(s, b, i) && Unanswered(WorkerAt(s, b, i)) && DistinctIds(s)
    ensures var s := Run(Initial(gatedTools), actions);
            var w := WorkerAt(s, b, i);
            var s' := Step(s, Resolve(w.call.id, approved, s.batches[b].conversation));
            && Has(s', b, i)
            && (WorkerAt(s', b, i).future == Some(approved) <==> !Misanswered(s.log, b, i, s.batches[b].conversation))
  {
    ReachRun(Initial(gatedTools), actions);
    var s := Run(Initial(gatedTools), actions);
    var a := Resolve(WorkerAt(s, b, i).call.id, approved, s.batches[b].conversation);
    AnswerIff(s, a, b, i);
  }

  lemma AnswerIff(s: World, a: Action, b: nat, i: nat)
    requires PendingOk(s) && ReachOk(s) && DistinctIds(s) && Has(s, b, i) && Unanswered(WorkerAt(s, b, i))
    requires a.Resolve? && a.callId == WorkerAt(s, b, i).call.id && a.conversation == s.batches[b].conversation
    ensures Has(Step(s, a), b, i)
    ensures WorkerAt(Step(s, a), b, i).future == Some(a.approved) <==>
              !Misanswered(s.log, b, i, s.batches[b].conversation)
  {
    if Registered(s, b, i) {
      AnswerReaches(s, a, b, i);
    } else {
      Unreached(s, a, b, i);
    }
  }

  lemma Unreached(s: World, a: Action, b: nat, i: nat)
    requires PendingOk(s) && Enabled(s, a) && Has(s, b, i) && Unanswered(WorkerAt(s, b, i)) && !Registered(s, b, i)
    ensures Has(Step(s, a), b, i) && !Registered(Step(s, a), b, i)
    ensures var w' := WorkerAt(Step(s, a), b, i);
            Unanswered(w') || w'.pc == Finished(TimedOut) || w'.pc == Cancelled
  {
    Frame(s, a, b, i);
    if Registered(Step(s, a), b, i) {
      RegisteredStep(s, a, b, i);
    }
    match a
    case Resolve(callId, _, _) =>
      if callId in s.pending {
        assert EntryOk(s, callId, s.pending[callId]);
      }
    case _ =>
  }

  /** A call whose entry is gone while it still waits never executes: it times out or is cancelled. */
  lemma {:induction false} LostCallNeverExecutes(s: World, actions: seq<Action>, b: nat, i: nat)
    requires PendingOk(s) && CanRun(s, actions) && Has(s, b, i)
    requires var w := WorkerAt(s, b, i);
             (Unanswered(w) && !Registered(s, b, i)) || w.pc == Finished(TimedOut) || w.pc == Cancelled
    ensures Has(Run(s, actions), b, i) && !Executed(WorkerAt(Run(s, actions), b, i))
    decreases |actions|
  {
    hide Step, Enabled, PendingOk;
    if actions != [] {
      PendingStep(s, actions[0]);
      if Unanswered(WorkerAt(s, b, i)) {
        Unreached(s, actions[0], b, i);
      } else {
        EndedStays(s, actions[0], b, i);
      }
      LostCallNeverExecutes(Step(s, actions[0]), actions[1..], b, i);
    }
  }

  lemma EndedStays(s: World, a: Action, b: nat, i: nat)
    requires Enabled(s, a) && Has(s, b, i) && !Live(WorkerAt(s, b, i))
    ensures Has(Step(s, a), b, i) && WorkerAt(Step(s, a), b, i).pc == WorkerAt(s, b, i).pc
  {
    Frame(s, a, b, i);
  }
}
