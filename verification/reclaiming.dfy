/** Which tasks can still be claimed, and which messages can still be accepted. */
module Reclaiming {
  import opened Counting
  import opened Models
  import opened Planner
  import opened Ingestion
  import opened RowUpdates
  import opened Service
  import opened Evolution
  import opened Insertion
  import opened Delivery
  import opened RunInvariant
  import opened Guarantees

  /** A worker holds the task and may still send it back to the queue. */
  predicate MayComeBack(s: System, id: nat, k: nat) {
    && k < |s.claims| && s.claims[k].task == id
    && (s.claims[k].phase.Sending? || s.claims[k].phase.Raising?)
    && s.claims[k].attempts < s.claims[k].maxAttempts
  }

  predicate InFlight(s: System, id: nat) {
    && id < |s.db.tasks| && s.db.tasks[id].status.Dispatching?
    && exists k: nat :: k < |s.claims| && MayComeBack(s, id, k)
  }

  predicate CanReclaim(s: System, id: nat) {
    id < |s.db.tasks| && (s.db.tasks[id].status.Scheduled? || InFlight(s, id))
  }

  // A task that cannot come back never does.

  lemma ClaimStaysSilent(s: System, step: Step, id: nat)
    requires Inv(s) && id < |s.db.tasks| && !CanReclaim(s, id) && step.ClaimTask?
    ensures !CanReclaim(Next(s, step), id) && ClaimsOf(Next(s, step), id) == ClaimsOf(s, id)
  {
    var s' := Next(s, step);
    if CanClaim(s.db, step.task, step.now) {
      CountSnoc(s.claims, s'.claims[|s.claims|], OnTask(id));
      OthersComeBack(s, s', id);
    }
  }

  /** A step on an existing claim changes no claim's task, and revives none. */
  lemma ClaimsAfterAnswer(s: System, step: Step, id: nat)
    requires IsWorkerStep(step) && !step.ClaimTask?
    ensures var s' := Next(s, step);
      && |s'.claims| == |s.claims|
      && (forall k :: 0 <= k < |s.claims| ==> s'.claims[k].task == s.claims[k].task)
      && (forall k :: 0 <= k < |s.claims| && MayComeBack(s', id, k) ==> MayComeBack(s, id, k))
  {
  }

  lemma AnswerStaysSilent(s: System, step: Step, id: nat)
    requires Inv(s) && id < |s.db.tasks| && !CanReclaim(s, id) && IsWorkerStep(step) && !step.ClaimTask?
    ensures !CanReclaim(Next(s, step), id) && ClaimsOf(Next(s, step), id) == ClaimsOf(s, id)
  {
    var s' := Next(s, step);
    ClaimsAfterAnswer(s, step, id);
    CountAgree(s.claims, OnTask(id), s'.claims, OnTask(id));
    WorkerRowFate(s, step, id);
    if step.RecordFailure? && s'.db.tasks[id] != s.db.tasks[id] {
      assert !MayComeBack(s, id, step.claim);
    }
    OthersComeBack(s, s', id);
  }

  lemma WorkerStepStaysSilent(s: System, step: Step, id: nat)
    requires Inv(s) && id < |s.db.tasks| && !CanReclaim(s, id) && IsWorkerStep(step)
    ensures !CanReclaim(Next(s, step), id) && ClaimsOf(Next(s, step), id) == ClaimsOf(s, id)
  {
    if step.ClaimTask? {
      ClaimStaysSilent(s, step, id);
    } else {
      AnswerStaysSilent(s, step, id);
    }
  }

  /** Being in flight afterwards needs a claim that was there before. */
  lemma OthersComeBack(s: System, s': System, id: nat)
    requires id < |s.db.tasks| && |s.db.tasks| == |s'.db.tasks| && !CanReclaim(s, id)
    requires !s'.db.tasks[id].status.Scheduled?
    requires s'.db.tasks[id].status.Dispatching? ==> s.db.tasks[id].status.Dispatching?
    requires |s.claims| <= |s'.claims|
    requires forall k :: 0 <= k < |s.claims| && MayComeBack(s', id, k) ==> MayComeBack(s, id, k)
    requires forall k :: |s.claims| <= k < |s'.claims| ==> s'.claims[k].task != id
    ensures !CanReclaim(s', id)
  {
  }

  lemma OtherStepStaysSilent(s: System, step: Step, id: nat)
    requires Inv(s) && id < |s.db.tasks| && !CanReclaim(s, id) && !IsWorkerStep(step)
    ensures !CanReclaim(Next(s, step), id) && ClaimsOf(Next(s, step), id) == ClaimsOf(s, id)
  {
    var s' := Next(s, step);
    OtherStepCalm(s, step);
    assert CalmRow(s.db.tasks[id], s'.db.tasks[id]);
    OtherStepNeverDispatches(s, step, id);
    assert forall k: nat :: MayComeBack(s', id, k) == MayComeBack(s, id, k);
  }

  lemma SilentStep(s: System, step: Step, id: nat)
    requires Inv(s) && id < |s.db.tasks| && !CanReclaim(s, id)
    ensures |s.db.tasks| <= |Next(s, step).db.tasks|
    ensures !CanReclaim(Next(s, step), id) && ClaimsOf(Next(s, step), id) == ClaimsOf(s, id)
  {
    if IsWorkerStep(step) {
      WorkerRowFate(s, step, id);
      WorkerStepStaysSilent(s, step, id);
    } else {
      OtherStepCalm(s, step);
      OtherStepStaysSilent(s, step, id);
    }
  }

  lemma OtherStepNeverDispatches(s: System, step: Step, id: nat)
    requires Inv(s) && id < |s.db.tasks| && !IsWorkerStep(step)
    ensures id < |Next(s, step).db.tasks|
    ensures Next(s, step).db.tasks[id].status.Dispatching? ==> s.db.tasks[id].status.Dispatching?
  {
    RowFate(s, step, id);
  }

  /** What a step outside the workers can do to one row. */
  ghost predicate OtherWrites(s: System, step: Step, t: Task, t': Task, id: nat) {
    || t' == t
    || (step.ManualResult? && AllowsManualResult(t.status)
        && t' == t.(status := ManualStatus(step.sent), lastError := ManualError(step.sent, step.detailsError)))
    || (step.OperatorCancel? && t.status.Scheduled? && t' == t.(status := Cancelled))
    || (Overwrites(s, step, id) && t' == t.(status := Cancelled))
  }

  lemma InsertFate(s: System, i: nat, earlier: Option<seq<nat>>, id: nat)
    requires NoRowsAhead(s.db) && id < |s.db.tasks| && CanInsert(s, i, earlier)
    ensures var tasks := NextInsert(s, i, earlier).db.tasks;
      && id < |tasks|
      && tasks[id] == if Overwrites(s, Insert(i, earlier), id) then s.db.tasks[id].(status := Cancelled)
                      else s.db.tasks[id]
  {
    VerdictOf(s.db, s.submissions[i].request, earlier);
    InsertRowFate(s.db, s.submissions[i].request, earlier, id);
  }

  lemma RowFate(s: System, step: Step, id: nat)
    requires Inv(s) && id < |s.db.tasks| && !IsWorkerStep(step)
    ensures id < |Next(s, step).db.tasks|
    ensures OtherWrites(s, step, s.db.tasks[id], Next(s, step).db.tasks[id], id)
    ensures Overwrites(s, step, id) ==> Next(s, step).db.tasks[id] == s.db.tasks[id].(status := Cancelled)
  {
    if step.Insert? {
      if CanInsert(s, step.submission, step.earlier) {
        InsertFate(s, step.submission, step.earlier, id);
      }
    } else if step.OperatorCancel? {
      OperatorRowFate(s.db, step.selected, id);
    }
  }

  /** Is this the write phase of a planner cancellation that has this task on its list? */
  predicate Overwrites(s: System, step: Step, id: nat) {
    && step.Insert? && CanInsert(s, step.submission, step.earlier)
    && var r := s.submissions[step.submission].request;
    && Insertable(s.db, r) && !IsPolicyEvent(r.kind)
    && id in SelectedBy(s.db, r, step.earlier)
  }

  lemma InsertRowFate(db: Store, r: Request, earlier: Option<seq<nat>>, id: nat)
    requires InRange(db, earlier) && id < |db.tasks|
    ensures id < |PlannedStore(db, r, earlier).tasks|
    ensures PlannedStore(db, r, earlier).tasks[id]
         == if !IsPolicyEvent(r.kind) && id in SelectedBy(db, r, earlier) then db.tasks[id].(status := Cancelled)
             else db.tasks[id]
  {
    if IsPolicyEvent(r.kind) {
      PlanAllShape(StartOfPass(db, r), SubjectOf(db, r), Proposals(r.kind, r.occurredAt, r.customer.timezone),
                   FREQUENCY_CAP);
    } else {
      StateChangeShape(db, r);
      CancelAllShape(StateChange(BaseOf(db, r), SubjectOf(db, r), r.kind), |db.events|, SelectedBy(db, r, earlier));
    }
  }

  /** An accepted payment, opt-out, hardship request or pause that selects in its own commit cancels
      the scheduled tasks of its account; other events, and other tasks, change no row. */
  lemma CancellationInColumns(db: Store, r: Request, id: nat)
    requires id < |db.tasks|
    ensures id < |PlannedStore(db, r, None).tasks|
    ensures var t := db.tasks[id];
      PlannedStore(db, r, None).tasks[id]
      == if && r.kind != AccountDelinquent && r.kind != PaymentFailed
            && t.account == r.account.externalId && t.customer == r.customer.externalId && t.status == Scheduled
         then t.(status := Cancelled) else t
  {
    InsertRowFate(db, r, None, id);
  }

  lemma {:induction false} OperatorRowFate(db: Store, ids: seq<nat>, id: nat)
    requires id < |db.tasks|
    ensures OperatorCancelAll(db, ids).tasks[id]
         == if db.tasks[id].status.Scheduled? && id in ids then db.tasks[id].(status := Cancelled) else db.tasks[id]
    decreases |ids|
  {
    if |ids| > 0 {
      OperatorRowFate(if CanCancel(db, ids[0]) then OperatorCancelRow(db, ids[0]) else db, ids[1..], id);
    }
  }

  lemma {:induction false} SilentRun(s: System, steps: seq<Step>, id: nat)
    requires Inv(s) && id < |s.db.tasks| && !CanReclaim(s, id)
    ensures ClaimsOf(Run(s, steps), id) == ClaimsOf(s, id)
    decreases |steps|
  {
    if |steps| > 0 {
      SilentStep(s, steps[0], id);
      StepKeeps(s, steps[0]);
      SilentRun(Next(s, steps[0]), steps[1..], id);
    }
  }

  // A task that can come back has a run on which it does.

  /** A provider call for this task is open. */
  predicate IsCall(s: System, id: nat, k: nat) {
    k < |s.claims| && s.claims[k].task == id && s.claims[k].phase.Sending?
  }

  /** The task has been claimed once more, and its call is open. */
  predicate CalledAgain(s: System, s': System, id: nat) {
    ClaimsOf(s', id) == ClaimsOf(s, id) + 1 && |s.claims| < |s'.claims| && IsCall(s', id, |s'.claims| - 1)
  }

  lemma ClaimGrows(s: System, id: nat)
    requires id < |s.db.tasks| && s.db.tasks[id].status.Scheduled?
    ensures CalledAgain(s, Run(s, [ClaimTask(id, s.db.tasks[id].scheduledAt, 0)]), id)
  {
    var step := ClaimTask(id, s.db.tasks[id].scheduledAt, 0);
    assert Run(s, [step]) == Run(Next(s, step), []);
    CountSnoc(s.claims, Next(s, step).claims[|s.claims|], OnTask(id));
  }

  lemma FailureReschedules(s: System, id: nat, k: nat)
    requires CanRecord(s.db, id) && MayComeBack(s, id, k) && s.claims[k].phase.Raising?
    ensures var s' := Next(s, RecordFailure(k));
      && id < |s'.db.tasks| && s'.db.tasks[id].status.Scheduled?
      && ClaimsOf(s', id) == ClaimsOf(s, id) && |s'.claims| == |s.claims|
  {
    CountAgree(s.claims, OnTask(id), Next(s, RecordFailure(k)).claims, OnTask(id));
  }

  lemma RaisingReclaimed(s: System, id: nat, k: nat) returns (steps: seq<Step>)
    requires CanRecord(s.db, id) && MayComeBack(s, id, k) && s.claims[k].phase.Raising?
    ensures CalledAgain(s, Run(s, steps), id)
  {
    FailureReschedules(s, id, k);
    var s' := Next(s, RecordFailure(k));
    ClaimGrows(s', id);
    var again := [ClaimTask(id, s'.db.tasks[id].scheduledAt, 0)];
    steps := [RecordFailure(k)] + again;
    assert steps[1..] == again;
  }

  lemma Reclaimed(s: System, id: nat) returns (steps: seq<Step>)
    requires CanReclaim(s, id)
    ensures CalledAgain(s, Run(s, steps), id)
  {
    if s.db.tasks[id].status.Scheduled? {
      ClaimGrows(s, id);
      steps := [ClaimTask(id, s.db.tasks[id].scheduledAt, 0)];
    } else {
      var k: nat :| k < |s.claims| && MayComeBack(s, id, k);
      if s.claims[k].phase.Raising? {
        steps := RaisingReclaimed(s, id, k);
      } else {
        var s' := Next(s, SendRaises(k, ""));
        CountAgree(s.claims, OnTask(id), s'.claims, OnTask(id));
        var rest := RaisingReclaimed(s', id, k);
        steps := [SendRaises(k, "")] + rest;
        assert steps[1..] == rest;
      }
    }
  }

  /** Some continuation of the run claims the task again. */
  ghost predicate EverReclaimed(s: System, id: nat) {
    exists later :: ClaimsOf(Run(s, later), id) > ClaimsOf(s, id)
  }

  /** Exactly when a task can be claimed again: it is queued, or a worker that still has attempts
      left holds it and has not had it accepted. In particular a task whose worker crashed, or
      whose result was entered by hand while it was being sent, is never claimed again. */
  lemma ReclaimIff(clock: int, steps: seq<Step>, id: nat)
    requires id < |Reached(clock, steps).db.tasks|
    ensures EverReclaimed(Reached(clock, steps), id) <==> CanReclaim(Reached(clock, steps), id)
  {
    ReachableInv(clock, steps);
    var s := Reached(clock, steps);
    if CanReclaim(s, id) {
      var later := Reclaimed(s, id);
      assert EverReclaimed(s, id);
    } else {
      forall later ensures ClaimsOf(Run(s, later), id) == ClaimsOf(s, id) {
        SilentRun(s, later, id);
      }
    }
  }

  // Acceptance: the provider takes the message.

  /** Between the two states the provider accepts a message for this task. */
  predicate Accepts(s: System, s': System, id: nat, k: nat) {
    && k < |s'.claims| && s'.claims[k].task == id && s'.claims[k].delivered
    && !(k < |s.claims| && s.claims[k].delivered)
  }

  ghost predicate EverAccepted(s: System, id: nat) {
    exists later, k: nat :: Accepts(s, Run(s, later), id, k)
  }

  predicate Calling(s: System, id: nat) {
    exists k: nat :: k < |s.claims| && IsCall(s, id, k)
  }

  predicate CanBeAccepted(s: System, id: nat) {
    CanReclaim(s, id) || Calling(s, id)
  }

  /** A call that has ended stays as it ended. */
  lemma {:induction false} EndedCallStays(s: System, steps: seq<Step>, k: nat)
    requires k < |s.claims| && !s.claims[k].phase.Sending?
    ensures var s' := Run(s, steps);
      k < |s'.claims| && s'.claims[k].delivered == s.claims[k].delivered
    decreases |steps|
  {
    if |steps| > 0 {
      EndedCallStays(Next(s, steps[0]), steps[1..], k);
    }
  }

  lemma ClaimsOfGrows(s: System, s': System, id: nat, k: nat)
    requires |s.claims| <= k < |s'.claims| && s'.claims[k].task == id
    requires forall j :: 0 <= j < |s.claims| ==> s'.claims[j].task == s.claims[j].task
    ensures ClaimsOf(s', id) > ClaimsOf(s, id)
  {
    var n := |s.claims|;
    assert s'.claims == s'.claims[..n] + s'.claims[n..];
    CountConcat(s'.claims[..n], s'.claims[n..], OnTask(id));
    CountAgree(s.claims, OnTask(id), s'.claims[..n], OnTask(id));
    CountPositive(s'.claims[n..], OnTask(id), k - n);
  }

  /** An acceptance answers a call that was open, or one on a claim made since. */
  lemma AcceptanceNeedsCall(s: System, later: seq<Step>, id: nat, k: nat)
    requires Accepts(s, Run(s, later), id, k)
    ensures IsCall(s, id, k) || ClaimsOf(Run(s, later), id) > ClaimsOf(s, id)
  {
    ClaimsOnlyGrow(s, later);
    if k >= |s.claims| {
      ClaimsOfGrows(s, Run(s, later), id, k);
    } else if !s.claims[k].phase.Sending? {
      EndedCallStays(s, later, k);
    }
  }

  lemma CallIsAccepted(s: System, id: nat, later: seq<Step>, k: nat)
    requires IsCall(Run(s, later), id, k) && !(k < |s.claims| && s.claims[k].delivered)
    ensures EverAccepted(s, id)
  {
    RunSnoc(s, later, SendReturns(k));
    assert Accepts(s, Run(s, later + [SendReturns(k)]), id, k);
  }

  lemma AcceptedIffIn(s: System, id: nat)
    requires Inv(s) && id < |s.db.tasks|
    ensures EverAccepted(s, id) <==> CanBeAccepted(s, id)
  {
    if CanReclaim(s, id) {
      var later := Reclaimed(s, id);
      CallIsAccepted(s, id, later, |Run(s, later).claims| - 1);
    } else if k: nat :| k < |s.claims| && IsCall(s, id, k) {
      assert ClaimFits(s.claims[k], s.db.tasks[id]);
      CallIsAccepted(s, id, [], k);
    } else {
      forall later, k: nat ensures !Accepts(s, Run(s, later), id, k) {
        SilentRun(s, later, id);
        if Accepts(s, Run(s, later), id, k) {
          AcceptanceNeedsCall(s, later, id, k);
        }
      }
    }
  }

  /** Exactly when a message for a task can still be accepted: the task is queued, a worker with
      attempts left may send it back, or a call for it is open. The last holds of a worker's last
      attempt too, and of a task whose result was entered by hand during the call. */
  lemma AcceptedIff(clock: int, steps: seq<Step>, id: nat)
    requires id < |Reached(clock, steps).db.tasks|
    ensures EverAccepted(Reached(clock, steps), id) <==> CanBeAccepted(Reached(clock, steps), id)
  {
    ReachableInv(clock, steps);
    AcceptedIffIn(Reached(clock, steps), id);
  }
}
