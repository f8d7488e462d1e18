/** Which statuses are final. */
module FinalStatus {
  import opened Models
  import opened Service
  import opened StoreInvariant
  import opened Delivery
  import opened RunInvariant
  import opened Guarantees
  import opened Reclaiming

  /** A sent row changes in one step exactly when a planner cancellation working from an earlier
      answer has it on its list; every conditional update leaves it alone. */
  lemma SentChangesIff(clock: int, steps: seq<Step>, step: Step, id: nat)
    requires var s := Reached(clock, steps); id < |s.db.tasks| && s.db.tasks[id].status.Sent?
    ensures var s := Reached(clock, steps);
      && id < |Next(s, step).db.tasks|
      && (Next(s, step).db.tasks[id] != s.db.tasks[id] <==> Overwrites(s, step, id))
      && (Overwrites(s, step, id) ==> step.earlier.Some? && Next(s, step).db.tasks[id].status.Cancelled?)
  {
    ReachableInv(clock, steps);
    SentStep(Reached(clock, steps), step, id);
  }

  lemma OverwritesNeedsEarlier(s: System, step: Step, id: nat)
    requires id < |s.db.tasks| && !s.db.tasks[id].status.Scheduled? && Overwrites(s, step, id)
    ensures step.earlier.Some?
  {
  }

  lemma SentStep(s: System, step: Step, id: nat)
    requires Inv(s) && id < |s.db.tasks| && s.db.tasks[id].status.Sent?
    ensures id < |Next(s, step).db.tasks|
    ensures Next(s, step).db.tasks[id] != s.db.tasks[id] <==> Overwrites(s, step, id)
    ensures Overwrites(s, step, id) ==> step.earlier.Some? && Next(s, step).db.tasks[id].status.Cancelled?
  {
    if IsWorkerStep(step) {
      WorkerRowFate(s, step, id);
    } else {
      RowFate(s, step, id);
      if Overwrites(s, step, id) {
        OverwritesNeedsEarlier(s, step, id);
      }
    }
  }

  /** When cancellations always work from a current answer, a sent row never changes again. */
  lemma {:induction false} SentRun(s: System, steps: seq<Step>, id: nat)
    requires Inv(s) && SerialRun(steps) && id < |s.db.tasks| && s.db.tasks[id].status.Sent?
    ensures id < |Run(s, steps).db.tasks| && Run(s, steps).db.tasks[id] == s.db.tasks[id]
    decreases |steps|
  {
    if |steps| > 0 {
      assert Serial(steps[0]);
      SentStep(s, steps[0], id);
      StepKeeps(s, steps[0]);
      SentRun(Next(s, steps[0]), steps[1..], id);
    }
  }

  lemma SentIsFinalWhenSerial(clock: int, steps: seq<Step>, later: seq<Step>, id: nat)
    requires var s := Reached(clock, steps); id < |s.db.tasks| && s.db.tasks[id].status.Sent?
    requires SerialRun(later)
    ensures var s, s' := Reached(clock, steps), Reached(clock, steps + later);
      id < |s'.db.tasks| && s'.db.tasks[id] == s.db.tasks[id]
  {
    ReachableInv(clock, steps);
    RunConcat(Initial(clock), steps, later);
    SentRun(Reached(clock, steps), later, id);
  }

  lemma CancelledStep(s: System, step: Step, id: nat)
    requires Inv(s) && id < |s.db.tasks| && s.db.tasks[id].status.Cancelled?
    ensures id < |Next(s, step).db.tasks| && Next(s, step).db.tasks[id] == s.db.tasks[id]
  {
    if IsWorkerStep(step) {
      WorkerRowFate(s, step, id);
    } else {
      RowFate(s, step, id);
    }
  }

  lemma {:induction false} CancelledRun(s: System, steps: seq<Step>, id: nat)
    requires Inv(s) && id < |s.db.tasks| && s.db.tasks[id].status.Cancelled?
    ensures id < |Run(s, steps).db.tasks| && Run(s, steps).db.tasks[id] == s.db.tasks[id]
    decreases |steps|
  {
    if |steps| > 0 {
      CancelledStep(s, steps[0], id);
      StepKeeps(s, steps[0]);
      CancelledRun(Next(s, steps[0]), steps[1..], id);
    }
  }

  /** A cancelled row never changes again, in any run at all. */
  lemma CancelledIsFinal(clock: int, steps: seq<Step>, later: seq<Step>, id: nat)
    requires var s := Reached(clock, steps); id < |s.db.tasks| && s.db.tasks[id].status.Cancelled?
    ensures var s, s' := Reached(clock, steps), Reached(clock, steps + later);
      id < |s'.db.tasks| && s'.db.tasks[id] == s.db.tasks[id]
  {
    ReachableInv(clock, steps);
    RunConcat(Initial(clock), steps, later);
    CancelledRun(Reached(clock, steps), later, id);
  }

  // The row of an accepted message.

  /** Nobody has cancelled a task under a live claim. */
  ghost predicate LiveNotCancelled(s: System) {
    forall k :: 0 <= k < |s.claims| && Live(s.claims[k]) && s.claims[k].task < |s.db.tasks| ==>
      !s.db.tasks[s.claims[k].task].status.Cancelled?
  }

  lemma LiveClaimBefore(s: System, step: Step, k: nat)
    requires IsWorkerStep(step) && k < |Next(s, step).claims| && Live(Next(s, step).claims[k])
    ensures var s' := Next(s, step);
      if k < |s.claims| then Live(s.claims[k]) && s'.claims[k].task == s.claims[k].task
      else s'.claims[k].task < |s'.db.tasks| && s'.db.tasks[s'.claims[k].task].status.Dispatching?
  {
  }

  lemma WorkerCancelsNothing(s: System, step: Step, id: nat)
    requires IsWorkerStep(step) && id < |s.db.tasks|
    ensures id < |Next(s, step).db.tasks|
    ensures Next(s, step).db.tasks[id].status.Cancelled? ==> s.db.tasks[id].status.Cancelled?
  {
    WorkerRowFate(s, step, id);
  }

  lemma WorkerKeepsUncancelled(s: System, step: Step)
    requires LiveNotCancelled(s) && IsWorkerStep(step)
    ensures LiveNotCancelled(Next(s, step))
  {
    var s' := Next(s, step);
    WorkerStepLength(s, step);
    forall k | 0 <= k < |s'.claims| && Live(s'.claims[k]) && s'.claims[k].task < |s'.db.tasks|
      ensures !s'.db.tasks[s'.claims[k].task].status.Cancelled?
    {
      LiveClaimBefore(s, step, k);
      WorkerCancelsNothing(s, step, s'.claims[k].task);
    }
  }

  lemma OthersCancelQueuedOnly(s: System, step: Step, id: nat)
    requires Inv(s) && !IsWorkerStep(step) && Serial(step)
    requires id < |s.db.tasks| && !s.db.tasks[id].status.Scheduled? && !s.db.tasks[id].status.Cancelled?
    ensures id < |Next(s, step).db.tasks| && !Next(s, step).db.tasks[id].status.Cancelled?
  {
    RowFate(s, step, id);
    if Overwrites(s, step, id) {
      OverwritesNeedsEarlier(s, step, id);
    }
  }

  lemma OthersKeepUncancelled(s: System, step: Step)
    requires Inv(s) && LiveNotCancelled(s) && !IsWorkerStep(step) && Serial(step)
    ensures LiveNotCancelled(Next(s, step))
  {
    OthersKeepClaims(s, step);
    var s' := Next(s, step);
    forall k | 0 <= k < |s'.claims| && Live(s'.claims[k]) && s'.claims[k].task < |s'.db.tasks|
      ensures !s'.db.tasks[s'.claims[k].task].status.Cancelled?
    {
      assert ClaimFits(s.claims[k], s.db.tasks[s.claims[k].task]);
      OthersCancelQueuedOnly(s, step, s.claims[k].task);
    }
  }

  lemma OthersKeepClaims(s: System, step: Step)
    requires !IsWorkerStep(step)
    ensures Next(s, step).claims == s.claims
  {
  }

  lemma {:induction false} RunKeepsUncancelled(s: System, steps: seq<Step>)
    requires Inv(s) && LiveNotCancelled(s) && SerialRun(steps)
    ensures LiveNotCancelled(Run(s, steps))
    decreases |steps|
  {
    if |steps| > 0 {
      assert Serial(steps[0]);
      if IsWorkerStep(steps[0]) {
        WorkerKeepsUncancelled(s, steps[0]);
      } else {
        OthersKeepUncancelled(s, steps[0]);
      }
      StepKeeps(s, steps[0]);
      RunKeepsUncancelled(Next(s, steps[0]), steps[1..]);
    }
  }

  lemma AcceptedIsOver(s: System, k: nat)
    requires Inv(s) && k < |s.claims| && s.claims[k].delivered
    ensures s.claims[k].task < |s.db.tasks| && !CanBeAccepted(s, s.claims[k].task)
  {
    assert ClaimFits(s.claims[k], s.db.tasks[s.claims[k].task]);
    forall j | 0 <= j < |s.claims| && s.claims[j].task == s.claims[k].task && Live(s.claims[j])
      ensures j == k && !s.claims[j].phase.Sending? && !s.claims[j].phase.Raising?
    {
    }
  }

  /** The row of an accepted message: the success is recorded, or not yet or never (dispatching), or
      an operator has entered a failure, or a cancellation working from an earlier answer has
      overwritten it. It is never queued, and no other message for the task is ever accepted. */
  lemma AcceptedMessageStatus(clock: int, steps: seq<Step>, k: nat)
    requires k < |Reached(clock, steps).claims| && Reached(clock, steps).claims[k].delivered
    ensures var s := Reached(clock, steps);
      var id := s.claims[k].task;
      && id < |s.db.tasks|
      && var status := s.db.tasks[id].status;
      && (status.Sent? || status.Dispatching? || status == TaskStatus.Failed || status.Cancelled?)
      && (SerialRun(steps) ==> !status.Cancelled?)
      && !EverAccepted(s, id)
  {
    ReachableInv(clock, steps);
    ReachableInv(clock, []);
    var s := Reached(clock, steps);
    var id := s.claims[k].task;
    assert ClaimFits(s.claims[k], s.db.tasks[id]) && RowSane(s.db.tasks[id], s.db.clock);
    if SerialRun(steps) {
      RunKeepsUncancelled(Initial(clock), steps);
    }
    AcceptedIsOver(s, k);
    AcceptedIffIn(s, id);
  }
}
