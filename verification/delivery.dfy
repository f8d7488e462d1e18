/** The claim protocol: at most one worker holds a task, and no message is accepted twice. */
module Delivery {
  import opened Counting
  import opened Models
  import opened Ingestion
  import opened RowUpdates
  import opened Service
  import opened Evolution

  /** A claim that may still lead to a message, or already has. */
  predicate Live(c: Claim) {
    !c.phase.Closed? || c.delivered
  }

  function OnTask(id: nat): Claim -> bool { (c: Claim) => c.task == id }

  function ClaimsOf(s: System, id: nat): nat { Count(s.claims, OnTask(id)) }

  /** A claim against the row it was made on. While it is open, the worker's copy is current. */
  ghost predicate ClaimFits(c: Claim, t: Task) {
    && c.maxAttempts == t.maxAttempts
    && (!c.phase.Closed? ==> c.attempts == t.attempts && c.scheduledAt == t.scheduledAt)
    && (Live(c) ==> !t.status.Scheduled?)
    && (c.phase.Returned? ==> c.delivered)
    && (c.phase.Sending? || c.phase.Raising? ==> !c.delivered)
  }

  ghost predicate ClaimsFit(s: System) {
    forall k :: 0 <= k < |s.claims| ==>
      s.claims[k].task < |s.db.tasks| && ClaimFits(s.claims[k], s.db.tasks[s.claims[k].task])
  }

  ghost predicate OneLiveClaim(s: System) {
    forall j, k :: 0 <= j < k < |s.claims| && Live(s.claims[j]) && Live(s.claims[k]) ==>
      s.claims[j].task != s.claims[k].task
  }

  /** The attempt counter of a row is the number of claims ever made on it. */
  ghost predicate AttemptsCounted(s: System) {
    forall i :: 0 <= i < |s.db.tasks| ==> s.db.tasks[i].attempts == ClaimsOf(s, i)
  }

  ghost predicate ProtocolInv(s: System) {
    ClaimsFit(s) && OneLiveClaim(s) && AttemptsCounted(s)
  }

  /** Anything other than a worker step keeps the claims and changes the tasks calmly. */
  lemma CalmStepKeeps(s: System, s': System)
    requires ProtocolInv(s) && s'.claims == s.claims && Calm(s.db.tasks, s'.db.tasks)
    ensures ProtocolInv(s')
  {
    forall k | 0 <= k < |s'.claims|
      ensures s'.claims[k].task < |s'.db.tasks| && ClaimFits(s'.claims[k], s'.db.tasks[s'.claims[k].task])
    {
      assert CalmRow(s.db.tasks[s.claims[k].task], s'.db.tasks[s'.claims[k].task]);
    }
    forall i | 0 <= i < |s'.db.tasks| ensures s'.db.tasks[i].attempts == ClaimsOf(s', i) {
      if i < |s.db.tasks| {
        assert CalmRow(s.db.tasks[i], s'.db.tasks[i]);
      } else {
        CountNone(s.claims, OnTask(i));
      }
    }
  }

  /** Closing or answering a claim keeps the protocol, as long as it does not revive one. */
  lemma PhaseChangeKeeps(s: System, s': System, k: nat)
    requires ProtocolInv(s) && k < |s.claims| && !s.claims[k].phase.Closed?
    requires s'.db.tasks == s.db.tasks && |s'.claims| == |s.claims|
    requires s'.claims == s.claims[k := s'.claims[k]]
    requires s'.claims[k] == s.claims[k].(phase := s'.claims[k].phase, delivered := s'.claims[k].delivered)
    requires ClaimFits(s'.claims[k], s.db.tasks[s.claims[k].task])
    ensures ProtocolInv(s')
  {
    forall i | 0 <= i < |s'.db.tasks| ensures s'.db.tasks[i].attempts == ClaimsOf(s', i) {
      CountAgree(s.claims, OnTask(i), s'.claims, OnTask(i));
    }
  }

  lemma ClaimKeeps(s: System, id: nat, now: int, retryDelay: int)
    requires ProtocolInv(s) && CanClaim(s.db, id, now)
    ensures ProtocolInv(NextClaim(s, id, now, retryDelay))
  {
    var s' := NextClaim(s, id, now, retryDelay);
    var n := |s.claims|;
    forall k | 0 <= k < |s'.claims|
      ensures s'.claims[k].task < |s'.db.tasks| && ClaimFits(s'.claims[k], s'.db.tasks[s'.claims[k].task])
    {
      if k < n {
        assert ClaimFits(s.claims[k], s.db.tasks[s.claims[k].task]);
        assert Live(s.claims[k]) ==> s.claims[k].task != id;
      }
    }
    forall i | 0 <= i < |s'.db.tasks| ensures s'.db.tasks[i].attempts == ClaimsOf(s', i) {
      CountSnoc(s.claims, s'.claims[n], OnTask(i));
    }
  }

  /** Recording an answer closes the worker's claim and rewrites only its own row; the row is
      free to be scheduled again, because no other claim on the task is live. */
  lemma RecordKeeps(s: System, s': System, k: nat)
    requires ProtocolInv(s) && k < |s.claims| && !s.claims[k].phase.Closed?
    requires s'.claims == s.claims[k := s.claims[k].(phase := Closed)]
    requires var id := s.claims[k].task;
      && |s'.db.tasks| == |s.db.tasks|
      && s'.db.tasks == s.db.tasks[id := s'.db.tasks[id]]
      && SameIdentity(s.db.tasks[id], s'.db.tasks[id])
      && s'.db.tasks[id].attempts == s.db.tasks[id].attempts
      && (s.claims[k].delivered ==> !s'.db.tasks[id].status.Scheduled?)
    ensures ProtocolInv(s')
  {
    var id := s.claims[k].task;
    forall j | 0 <= j < |s'.claims|
      ensures s'.claims[j].task < |s'.db.tasks| && ClaimFits(s'.claims[j], s'.db.tasks[s'.claims[j].task])
    {
      assert ClaimFits(s.claims[j], s.db.tasks[s.claims[j].task]);
      if j != k && s.claims[j].task == id {
        assert Live(s.claims[k]);
        assert !Live(s.claims[j]);
      }
    }
    forall i | 0 <= i < |s'.db.tasks| ensures s'.db.tasks[i].attempts == ClaimsOf(s', i) {
      CountAgree(s.claims, OnTask(i), s'.claims, OnTask(i));
    }
  }

  predicate IsWorkerStep(step: Step) {
    step.ClaimTask? || step.SendReturns? || step.SendRaises? || step.RecordSuccess? || step.RecordFailure?
        || step.Crash?
  }

  /** The row a worker's recorded failure leaves. */
  function FailedRow(t: Task, c: Claim, error: string): Task {
    var retry := RetryTime(c.attempts, c.maxAttempts, RetryAt(c));
    t.(status := if retry.Some? then Scheduled else TaskStatus.Failed,
       scheduledAt := if retry.Some? then retry.value else c.scheduledAt,
       lastError := Some(error))
  }

  /** What a worker step can do to one row. */
  ghost predicate WorkerWrites(s: System, step: Step, t: Task, t': Task, id: nat) {
    match step
    case ClaimTask(task, _, _) => task == id && t.status.Scheduled? && t' == ClaimedRow(t)
    case RecordSuccess(k) =>
      k < |s.claims| && s.claims[k].task == id && s.claims[k].phase.Returned?
      && t.status.Dispatching? && t' == t.(status := Sent, lastError := None)
    case RecordFailure(k) =>
      k < |s.claims| && s.claims[k].task == id && s.claims[k].phase.Raising?
      && t.status.Dispatching? && t' == FailedRow(t, s.claims[k], s.claims[k].phase.error)
    case _ => false
  }

  lemma WorkerRowFate(s: System, step: Step, id: nat)
    requires IsWorkerStep(step) && id < |s.db.tasks|
    ensures |Next(s, step).db.tasks| == |s.db.tasks|
    ensures var t, t' := s.db.tasks[id], Next(s, step).db.tasks[id];
      t' == t || WorkerWrites(s, step, t, t', id)
  {
  }

  lemma WorkerKeepsIdentity(s: System, step: Step, id: nat)
    requires IsWorkerStep(step) && id < |s.db.tasks|
    ensures id < |Next(s, step).db.tasks| && SameIdentity(s.db.tasks[id], Next(s, step).db.tasks[id])
  {
    WorkerRowFate(s, step, id);
  }

  lemma WorkerStepLength(s: System, step: Step)
    requires IsWorkerStep(step)
    ensures |Next(s, step).db.tasks| == |s.db.tasks|
  {
  }

  /** An insertion commits the planned event, or leaves the database alone. */
  lemma InsertedOrNot(s: System, i: nat, earlier: Option<seq<nat>>)
    requires NoRowsAhead(s.db) && CanInsert(s, i, earlier)
    ensures var r, s' := s.submissions[i].request, NextInsert(s, i, earlier);
      && |s.db.events| < |PlannedStore(s.db, r, earlier).events|
      && s'.claims == s.claims
      && (s'.db == s.db || s'.db == MarkProcessed(PlannedStore(s.db, r, earlier), |s.db.events|))
  {
    VerdictOf(s.db, s.submissions[i].request, earlier);
  }

  lemma InsertStepCalm(s: System, i: nat, earlier: Option<seq<nat>>)
    requires NoRowsAhead(s.db) && CanInsert(s, i, earlier)
    ensures NextInsert(s, i, earlier).claims == s.claims
    ensures Calm(s.db.tasks, NextInsert(s, i, earlier).db.tasks)
  {
    VerdictOf(s.db, s.submissions[i].request, earlier);
    InsertCalm(s.db, s.submissions[i].request, earlier);
  }

  lemma OtherStepCalm(s: System, step: Step)
    requires NoRowsAhead(s.db) && !IsWorkerStep(step)
    ensures Next(s, step).claims == s.claims && Calm(s.db.tasks, Next(s, step).db.tasks)
  {
    if step.Insert? && CanInsert(s, step.submission, step.earlier) {
      InsertStepCalm(s, step.submission, step.earlier);
    } else if step.OperatorCancel? {
      OperatorCancelCalm(s.db, step.selected);
    }
  }

  lemma RecordStepKeeps(s: System, step: Step)
    requires ProtocolInv(s) && (step.RecordSuccess? || step.RecordFailure?)
    ensures ProtocolInv(Next(s, step))
  {
    var s' := Next(s, step);
    if step.claim < |s.claims| {
      var c := s.claims[step.claim];
      assert ClaimFits(c, s.db.tasks[c.task]);
      if step.RecordSuccess? && c.phase.Returned? {
        RecordKeeps(s, s', step.claim);
      } else if step.RecordFailure? && c.phase.Raising? {
        RecordKeeps(s, s', step.claim);
      }
    }
  }

  lemma WorkerStepKeeps(s: System, step: Step)
    requires ProtocolInv(s) && IsWorkerStep(step)
    ensures ProtocolInv(Next(s, step))
  {
    var s' := Next(s, step);
    match step
    case ClaimTask(id, now, delay) => if CanClaim(s.db, id, now) { ClaimKeeps(s, id, now, delay); }
    case SendReturns(k) => if CanAnswer(s, k) { PhaseChangeKeeps(s, s', k); }
    case SendRaises(k, error) => if CanAnswer(s, k) { PhaseChangeKeeps(s, s', k); }
    case Crash(k) => if IsOpen(s, k) { PhaseChangeKeeps(s, s', k); }
    case RecordSuccess(_) => RecordStepKeeps(s, step);
    case RecordFailure(_) => RecordStepKeeps(s, step);
    case _ =>
  }

  lemma ProtocolStep(s: System, step: Step)
    requires ProtocolInv(s) && NoRowsAhead(s.db)
    ensures ProtocolInv(Next(s, step))
  {
    if IsWorkerStep(step) {
      WorkerStepKeeps(s, step);
    } else {
      OtherStepCalm(s, step);
      CalmStepKeeps(s, Next(s, step));
    }
  }
}
