/**
 What becomes of a call behind the approval gate, over every schedule of every set of concurrent batches: an approved
 one goes on, only a denied one is reported as denied, and how any call ends is what happened to it.
 */
module ApprovalOutcomes {
  import opened Types
  import opened ToolFanOut
  import opened FanOutHistory
  import opened ApprovalSafety

  /** The log holds this answer for the worker: with its call's id, from its own conversation, through its own entry. */
  ghost predicate OwnerSaid(s: World, b: nat, i: nat, approved: bool)
    requires Has(s, b, i)
  {
    Answered(WorkerAt(s, b, i).call.id, approved, s.batches[b].conversation, Some((b, i))) in s.log
  }

  ghost predicate Heard(s: World, b: nat, i: nat)
    requires Has(s, b, i)
  {
    forall approved :: WorkerAt(s, b, i).future == Some(approved) <==> OwnerSaid(s, b, i, approved)
  }

  /** A worker stands where its gate and the answer it got allow. */
  predicate Stands(w: Worker) {
    && (!w.gated ==> w.future == None)
    && match w.pc
       case NotStarted => w.future == None
       case Waiting => w.gated
       case Executing => w.gated ==> w.future == Some(true)
       case Finished(outcome) =>
         (match outcome
          case Denied => w.future == Some(false)
          case TimedOut => w.gated
          case Returned(_, _, _) => w.gated ==> w.future == Some(true)
          case Raised(_) => w.gated ==> w.future == Some(true))
       case Cancelled => true
  }

  ghost predicate GateOk(s: World) {
    forall b: nat, i: nat :: Has(s, b, i) ==> Stands(WorkerAt(s, b, i)) && Heard(s, b, i)
  }

  lemma StandsStep(s: World, a: Action, b: nat, i: nat)
    requires PendingOk(s) && Enabled(s, a) && Has(s, b, i) && Stands(WorkerAt(s, b, i))
    ensures Has(Step(s, a), b, i) && Stands(WorkerAt(Step(s, a), b, i))
  {
    Frame(s, a, b, i);
    if TargetWorker(s, a) == Some((b, i)) {
      match a
      case Resolve(callId, _, _) => assert EntryOk(s, callId, s.pending[callId]);
      case _ =>
    }
  }

  /** The owner's answer settles the worker it hits, which had none before. */
  lemma RecordSettles(s: World, a: Action, b: nat, i: nat, approved: bool)
    requires PendingOk(s) && Enabled(s, a) && Has(s, b, i) && Has(Step(s, a), b, i) && |Step(s, a).log| > |s.log|
    requires Step(s, a).log[|s.log|]
             == Answered(WorkerAt(s, b, i).call.id, approved, s.batches[b].conversation, Some((b, i)))
    ensures WorkerAt(s, b, i).future == None && WorkerAt(Step(s, a), b, i).future == Some(approved)
  {
    match a
    case Resolve(callId, _, _) => assert callId in s.pending ==> EntryOk(s, callId, s.pending[callId]);
    case _ =>
  }

  lemma HeardStep(s: World, a: Action, b: nat, i: nat)
    requires PendingOk(s) && Enabled(s, a) && Has(s, b, i) && Heard(s, b, i)
    ensures Has(Step(s, a), b, i) && Heard(Step(s, a), b, i)
  {
    hide Step, Enabled;
    Frame(s, a, b, i);
    LogGrows(s, a);
    var s', w := Step(s, a), WorkerAt(s, b, i);
    var w' := WorkerAt(s', b, i);
    forall approved ensures w'.future == Some(approved) <==> OwnerSaid(s', b, i, approved) {
      var r := Answered(w.call.id, approved, s.batches[b].conversation, Some((b, i)));
      assert w.future == Some(approved) <==> OwnerSaid(s, b, i, approved);
      if |s'.log| > |s.log| && s'.log[|s.log|].Answered? && s'.log[|s.log|].hit == Some((b, i))
        && s'.log[|s.log|] == Answered(w.call.id, s'.log[|s.log|].approved, s.batches[b].conversation, Some((b, i)))
      {
        RecordSettles(s, a, b, i, s'.log[|s.log|].approved);
        NotBoth(s, b, i);
      } else {
        FutureStays(s, a, b, i);
        assert r in s'.log <==> r in s.log;
      }
    }
  }

  lemma NotBoth(s: World, b: nat, i: nat)
    requires Has(s, b, i) && Heard(s, b, i) && WorkerAt(s, b, i).future == None
    ensures !OwnerSaid(s, b, i, true) && !OwnerSaid(s, b, i, false)
  {
  }

  /** Without such a record the future stays as it was. */
  lemma FutureStays(s: World, a: Action, b: nat, i: nat)
    requires PendingOk(s) && Enabled(s, a) && Has(s, b, i) && Has(Step(s, a), b, i)
    requires |Step(s, a).log| > |s.log| ==>
               forall f :: Step(s, a).log[|s.log|]
                 != Answered(WorkerAt(s, b, i).call.id, f, s.batches[b].conversation, Some((b, i)))
    ensures WorkerAt(Step(s, a), b, i).future == WorkerAt(s, b, i).future
  {
    Frame(s, a, b, i);
    if TargetWorker(s, a) == Some((b, i)) {
      TargetStep(s, a, b, i);
    }
  }

  lemma NewStands(s: World, a: Action, b: nat, i: nat)
    requires PendingOk(s) && HitOk(s) && Enabled(s, a) && HitOk(Step(s, a)) && Has(Step(s, a), b, i) && !Has(s, b, i)
    ensures Stands(WorkerAt(Step(s, a), b, i)) && Heard(Step(s, a), b, i)
  {
    hide Step, Enabled;
    NewWorkers(s, a, b, i);
  }

  lemma GateStep(s: World, a: Action)
    requires PendingOk(s) && HitOk(s) && GateOk(s) && Enabled(s, a)
    ensures GateOk(Step(s, a))
  {
    hide Step, Enabled, PendingOk, HitOk, Stands, Heard;
    HitStep(s, a);
    var s' := Step(s, a);
    forall b: nat, i: nat | Has(s', b, i) ensures Stands(WorkerAt(s', b, i)) && Heard(s', b, i) {
      if Has(s, b, i) {
        StandsStep(s, a, b, i);
        HeardStep(s, a, b, i);
      } else {
        NewStands(s, a, b, i);
      }
    }
  }

  lemma {:induction false} GateRun(s: World, actions: seq<Action>)
    requires PendingOk(s) && HitOk(s) && GateOk(s) && CanRun(s, actions)
    ensures PendingOk(Run(s, actions)) && GateOk(Run(s, actions))
    decreases |actions|
  {
    hide Step, Enabled, PendingOk, HitOk, GateOk;
    if actions != [] {
      PendingStep(s, actions[0]);
      HitStep(s, actions[0]);
      GateStep(s, actions[0]);
      GateRun(Step(s, actions[0]), actions[1..]);
    }
  }

  lemma GateHolds(gatedTools: set<string>, actions: seq<Action>, b: nat, i: nat)
    requires CanRun(Initial(gatedTools), actions) && Has(Run(Initial(gatedTools), actions), b, i)
    ensures var s := Run(Initial(gatedTools), actions); Stands(WorkerAt(s, b, i)) && Heard(s, b, i)
  {
    GateRun(Initial(gatedTools), actions);
  }

  predicate WentOn(outcome: Outcome) { outcome.Returned? || outcome.Raised? }

  /**
   In every reachable state: a call without a gate is never denied and never times out. A gated one is reported as
   denied only when its owner said no, and a gated call that has ended, unless its approval timed out, was denied if and
   only if its owner said no, and went on to its handler if and only if its owner said yes.
   */
  lemma GatedOutcomes(gatedTools: set<string>, actions: seq<Action>, b: nat, i: nat)
    requires CanRun(Initial(gatedTools), actions) && Has(Run(Initial(gatedTools), actions), b, i)
    ensures var s := Run(Initial(gatedTools), actions);
            var w := WorkerAt(s, b, i);
            w.pc.Finished? ==>
              && (w.call.name !in gatedTools ==> WentOn(w.pc.outcome))
              && (w.pc.outcome.Denied? ==> OwnerSaid(s, b, i, false))
              && (w.call.name in gatedTools && !w.pc.outcome.TimedOut? ==>
                    && (w.pc.outcome.Denied? <==> OwnerSaid(s, b, i, false))
                    && (WentOn(w.pc.outcome) <==> OwnerSaid(s, b, i, true)))
  {
    hide OwnerSaid, Run, CanRun;
    GateHolds(gatedTools, actions, b, i);
    GateIs(gatedTools, actions, b, i);
  }

  /** So in a completed batch, where every call has ended. */
  lemma CompletedGate(gatedTools: set<string>, actions: seq<Action>, b: nat, i: nat)
    requires CanRun(Initial(gatedTools), actions) && Has(Run(Initial(gatedTools), actions), b, i)
    requires Run(Initial(gatedTools), actions).batches[b].phase == Completed
    ensures var s := Run(Initial(gatedTools), actions);
            var w := WorkerAt(s, b, i);
            && w.pc.Finished?
            && (w.call.name in gatedTools && !w.pc.outcome.TimedOut? ==>
                  && (w.pc.outcome.Denied? <==> OwnerSaid(s, b, i, false))
                  && (WentOn(w.pc.outcome) <==> OwnerSaid(s, b, i, true)))
  {
    hide OwnerSaid, WentOn, Run, CanRun;
    CompletedEnds(gatedTools, actions, b, i);
    GatedOutcomes(gatedTools, actions, b, i);
  }

  // ---- An answered call goes on ----

  lemma WaitingIsRunning(gatedTools: set<string>, actions: seq<Action>, b: nat, i: nat)
    requires CanRun(Initial(gatedTools), actions) && Has(Run(Initial(gatedTools), actions), b, i)
    requires WorkerAt(Run(Initial(gatedTools), actions), b, i).pc == Waiting
    ensures Running(Run(Initial(gatedTools), actions), b)
  {
    hide Run, CanRun, Emitted, Project, MessagesFor, TurnsFor;
    var s := Run(Initial(gatedTools), actions);
    ClosedRun(Initial(gatedTools), actions);
    InvRun(Initial(gatedTools), actions);
    assert BatchInv(s.batches[b]);
    if s.batches[b].phase == Completed {
      CompletedEnds(gatedTools, actions, b, i);
    }
  }

  lemma CompletedEnds(gatedTools: set<string>, actions: seq<Action>, b: nat, i: nat)
    requires CanRun(Initial(gatedTools), actions) && Has(Run(Initial(gatedTools), actions), b, i)
    requires Run(Initial(gatedTools), actions).batches[b].phase == Completed
    ensures WorkerAt(Run(Initial(gatedTools), actions), b, i).pc.Finished?
  {
    hide Run, CanRun, Emitted, Project, MessagesFor, TurnsFor;
    CompletedHistory(gatedTools, actions, b);
    assert WorkerAt(Run(Initial(gatedTools), actions), b, i) in Run(Initial(gatedTools), actions).batches[b].workers;
  }

  /**
   A waiting call that its owner has answered can go on in every reachable state, and then: a yes leaves it executing,
   with its start announced last and its execution recorded; a no ends it as denied, with that announced and its slot
   filled.
   */
  lemma AnsweredCallGoesOn(gatedTools: set<string>, actions: seq<Action>, b: nat, i: nat, approved: bool)
    requires CanRun(Initial(gatedTools), actions) && Has(Run(Initial(gatedTools), actions), b, i)
    requires WorkerAt(Run(Initial(gatedTools), actions), b, i).pc == Waiting
    requires OwnerSaid(Run(Initial(gatedTools), actions), b, i, approved)
    ensures var s := Run(Initial(gatedTools), actions);
            var w := WorkerAt(s, b, i);
            && Enabled(s, Wake(b, i))
            && var s' := Step(s, Wake(b, i));
               && Has(s', b, i)
               && (approved ==>
                     && WorkerAt(s', b, i).pc == Executing && s'.log == s.log + [Began(b, i)]
                     && s'.batches[b].queue == s.batches[b].queue + [Start(w.call, i)])
               && (!approved ==>
                     && WorkerAt(s', b, i).pc == Finished(Denied) && s'.log == s.log
                     && s'.batches[b].queue == s.batches[b].queue + Ending(w.call, i, Denied))
  {
    hide Run, CanRun;
    GateHolds(gatedTools, actions, b, i);
    WaitingIsRunning(gatedTools, actions, b, i);
    var s := Run(Initial(gatedTools), actions);
    assert WorkerAt(s, b, i).future == Some(approved);
  }

  // ---- A call ends as what happened to it ----

  /** How this action ends worker i of batch b, if it does so by itself. */
  function EndBy(a: Action, b: nat, i: nat): Option<Pc> {
    match a
    case Return(c, j, ok, observation, at) => if (c, j) == (b, i) then Some(Finished(Returned(ok, observation, at)))
        else None
    case Raise(c, j, error) => if (c, j) == (b, i) then Some(Finished(Raised(error))) else None
    case Expire(c, j) => if (c, j) == (b, i) then Some(Finished(TimedOut)) else None
    case Cancel(c, j) => if (c, j) == (b, i) then Some(Cancelled) else None
    case _ => None
  }

  ghost predicate EndedBy(s: World, b: nat, i: nat, pc: Pc) {
    Has(s, b, i) && WorkerAt(s, b, i).pc == pc
  }

  lemma EndStep(s: World, a: Action, b: nat, i: nat, pc: Pc)
    requires Enabled(s, a) && (pc == Cancelled || (pc.Finished? && !pc.outcome.Denied?))
    ensures EndedBy(Step(s, a), b, i, pc) <==> EndedBy(s, b, i, pc) || EndBy(a, b, i) == Some(pc)
  {
    if Has(s, b, i) {
      Frame(s, a, b, i);
      OwnEnd(s, a, b, i, pc);
    } else if Has(Step(s, a), b, i) {
      NewWorkers(s, a, b, i);
    }
  }

  lemma OwnEnd(s: World, a: Action, b: nat, i: nat, pc: Pc)
    requires Enabled(s, a) && Has(s, b, i) && Has(Step(s, a), b, i)
    requires pc == Cancelled || (pc.Finished? && !pc.outcome.Denied?)
    requires TargetWorker(s, a) != Some((b, i)) ==> WorkerAt(Step(s, a), b, i) == WorkerAt(s, b, i)
    ensures WorkerAt(Step(s, a), b, i).pc == pc <==> WorkerAt(s, b, i).pc == pc || EndBy(a, b, i) == Some(pc)
  {
    match a
    case Resolve(callId, _, _) =>
    case _ =>
  }

  /**
   Over every schedule a call has ended with a return or an exception exactly when its handler returned or raised just
   that, with a timeout exactly when its approval timed out, and is cancelled exactly when its worker was.
   */
  lemma {:induction false} EndsAsItHappened(s: World, actions: seq<Action>, b: nat, i: nat, pc: Pc)
    requires CanRun(s, actions) && !Has(s, b, i) && (pc == Cancelled || (pc.Finished? && !pc.outcome.Denied?))
    ensures EndedBy(Run(s, actions), b, i, pc) <==>
              exists n :: 0 <= n < |actions| && EndBy(actions[n], b, i) == Some(pc)
  {
    EndsFrom(s, actions, b, i, pc);
  }

  lemma {:induction false} EndsFrom(s: World, actions: seq<Action>, b: nat, i: nat, pc: Pc)
    requires CanRun(s, actions) && (pc == Cancelled || (pc.Finished? && !pc.outcome.Denied?))
    ensures EndedBy(Run(s, actions), b, i, pc) <==>
              EndedBy(s, b, i, pc) || exists n :: 0 <= n < |actions| && EndBy(actions[n], b, i) == Some(pc)
    decreases |actions|
  {
    hide Step, Enabled, EndedBy, EndBy;
    if actions != [] {
      EndStep(s, actions[0], b, i, pc);
      EndsFrom(Step(s, actions[0]), actions[1..], b, i, pc);
      assert forall n :: 1 <= n < |actions| ==> actions[n] == actions[1..][n - 1];
    }
  }

  // ---- What the model and the client are told ----

  /** The text of the message that answers the call. */
  function Told(call: ToolCall, outcome: Outcome): string {
    SlotOf(call, outcome).message.text
  }

  /**
   Denials, timeouts and exceptions are told apart, and the client is shown what the model is told, as not ok. What a
   handler returned is told to the model whole; the client sees, and the history keeps, its display.
   */
  lemma OutcomeIsTold(call: ToolCall, outcome: Outcome, other: Outcome)
    ensures var shown, slot := ResultOf(call, outcome), SlotOf(call, outcome);
            && shown.ResultShown? && shown.callId == call.id
                && slot.message == ToolResultMessage(call.id, Told(call, outcome))
            && (!outcome.Returned? ==> !shown.ok && shown.content == Told(call, outcome) && slot.turns == [])
            && (outcome.Returned? ==>
                  && shown.ok == outcome.ok && Told(call, outcome) == outcome.observation
                  && |slot.turns| == 2 && slot.turns[0].toolCalls == [call] && slot.turns[0].role == Assistant
                  && slot.turns[1].role == Role.Tool && slot.turns[1].text == shown.content
                  && slot.turns[1].toolCallId == Some(call.id))
    ensures !outcome.Returned? && !other.Returned? && Told(call, outcome) == Told(call, other) ==> outcome == other
  {
    TextsDiffer(call, outcome, other);
  }

  lemma TextsDiffer(call: ToolCall, outcome: Outcome, other: Outcome)
    ensures !outcome.Returned? && !other.Returned? && Told(call, outcome) == Told(call, other) ==> outcome == other
  {
    if !outcome.Returned? && !other.Returned? {
      var front := "tool '" + call.name + "' ";
      assert Told(call, outcome) == front + What(outcome) && Told(call, other) == front + What(other);
      assert Told(call, outcome)[|front|..] == What(outcome) && Told(call, other)[|front|..] == What(other);
      if Told(call, outcome) == Told(call, other) {
        WhatDiffers(outcome, other);
      }
    }
  }

  function What(outcome: Outcome): string
    requires !outcome.Returned?
  {
    match outcome
    case Denied => "— user denied approval"
    case TimedOut => "— approval request timed out"
    case Raised(error) => "failed unexpectedly: " + error
  }

  lemma WhatDiffers(outcome: Outcome, other: Outcome)
    requires !outcome.Returned? && !other.Returned? && What(outcome) == What(other)
    ensures outcome == other
  {
    var a, b := What(outcome), What(other);
    assert a[0] == b[0] && a[2] == b[2];
    if outcome.Raised? && other.Raised? {
      assert outcome.error == a[|"failed unexpectedly: "|..];
      assert other.error == b[|"failed unexpectedly: "|..];
    }
  }
}
