/** The invariant of the whole service, kept by every step and so true in every reachable state. */
module RunInvariant {
  import opened Counting
  import opened Models
  import opened Planner
  import opened Ingestion
  import opened RowUpdates
  import opened Service
  import opened Evolution
  import opened StoreInvariant
  import opened Insertion
  import opened Delivery

  /** An answer once given is what the rows still say. */
  ghost predicate ReplyHolds(db: Store, p: Reply) {
    && p.result.event < |db.events|
    && db.events[p.result.event].source == p.source && db.events[p.result.event].externalId == p.externalId
    && Reconstruct(db, p.result.event) == p.result
  }

  ghost predicate RepliesHold(s: System) {
    forall i :: 0 <= i < |s.replies| ==> ReplyHolds(s.db, s.replies[i])
  }

  ghost predicate Inv(s: System) {
    StoreInv(s.db) && AllHandled(s.db) && SizeBound(s.db) && ProtocolInv(s) && RepliesHold(s)
  }

  // Rows that make up a reply are never touched again.

  lemma ReconstructStable(db: Store, db': Store, e: nat)
    requires Appends(db, db') && e < |db.events| && JoinsInRange(db)
    ensures Reconstruct(db', e) == Reconstruct(db, e)
  {
    CountExtend(db.decisions, db'.decisions, DecidedFor(e));
    CountExtend(db.decisions, db'.decisions, OutcomeOf(e, Block));
    CountExtend(db.decisions, db'.decisions, OutcomeOf(e, Defer));
    CountExtend(db.audit, db'.audit, CancelledBy(e));
    var kept := db'.tasks[..|db.tasks|];
    CountAgree(db.tasks, JoinsEvent(db.decisions, e), kept, JoinsEvent(db'.decisions, e));
    CountExtend(kept, db'.tasks, JoinsEvent(db'.decisions, e));
  }

  lemma StoreJoins(db: Store)
    requires Lineage(db)
    ensures JoinsInRange(db)
  {
    assert forall i :: 0 <= i < |db.tasks| ==> TaskRefers(db.decisions, db.tasks[i]);
  }

  /** Events keep their identity; new ones come after. */
  ghost predicate EventsKept(db: Store, db': Store) {
    && |db.events| <= |db'.events|
    && (forall i :: 0 <= i < |db.events| ==>
          db'.events[i].source == db.events[i].source && db'.events[i].externalId == db.events[i].externalId)
  }

  lemma RepliesStay(s: System, db': Store)
    requires RepliesHold(s) && Lineage(s.db) && Appends(s.db, db') && EventsKept(s.db, db')
    ensures forall i :: 0 <= i < |s.replies| ==> ReplyHolds(db', s.replies[i])
  {
    StoreJoins(s.db);
    forall i | 0 <= i < |s.replies| ensures ReplyHolds(db', s.replies[i]) {
      assert ReplyHolds(s.db, s.replies[i]);
      ReconstructStable(s.db, db', s.replies[i].result.event);
    }
  }

  // Steps of the worker and of the operational API: rows rewritten one at a time.

  lemma WriteRowAppends(db: Store, id: nat, row: Task, entry: AuditRow)
    requires id < |db.tasks| && row.decision == db.tasks[id].decision
    requires entry.OutreachCancelled? ==> entry.cause.None?
    ensures Appends(db, WriteRow(db, id, row, entry))
  {
  }

  lemma AppendsTransitive(a: Store, b: Store, c: Store)
    requires Appends(a, b) && Appends(b, c) && |a.events| <= |b.events|
    ensures Appends(a, c)
  {
  }

  /** A store step of the kind that leaves everything but task and audit rows alone. */
  ghost predicate RowStep(db: Store, db': Store) {
    && db' == db.(tasks := db'.tasks, audit := db'.audit)
    && |db'.tasks| == |db.tasks|
    && StoreInv(db') && Appends(db, db')
  }

  lemma ClaimRowStep(db: Store, id: nat, now: int)
    requires StoreInv(db) && CanClaim(db, id, now)
    ensures RowStep(db, ClaimRow(db, id))
  {
    var t := db.tasks[id];
    assert RowSane(t, db.clock);
    WriteRowKeeps(db, id, ClaimedRow(t), DispatchStarted(id, t.attempts + 1));
    WriteRowAppends(db, id, ClaimedRow(t), DispatchStarted(id, t.attempts + 1));
  }

  lemma SuccessRowStep(db: Store, id: nat)
    requires StoreInv(db) && CanRecord(db, id)
    ensures RowStep(db, RecordSuccessRow(db, id))
  {
    var t := db.tasks[id];
    var t' := t.(status := Sent, lastError := None);
    assert RowSane(t, db.clock);
    WriteRowKeeps(db, id, t', DispatchSucceeded(id));
    WriteRowAppends(db, id, t', DispatchSucceeded(id));
  }

  /** The worker's copy is the row, so the decision to retry is made on the row's own counters. */
  lemma FailureRowStep(db: Store, c: Claim, error: string)
    requires StoreInv(db) && CanRecord(db, c.task)
    requires ClaimFits(c, db.tasks[c.task]) && !c.phase.Closed?
    ensures RowStep(db,
      RecordFailureRow(db, c.task, c.attempts, c.maxAttempts, c.scheduledAt, error, RetryAt(c)))
  {
    var id := c.task;
    var t := db.tasks[id];
    assert RowSane(t, db.clock);
    var retry := RetryTime(c.attempts, c.maxAttempts, RetryAt(c));
    var final := if retry.Some? then Scheduled else TaskStatus.Failed;
    var t' := t.(
      status := final,
      scheduledAt := if retry.Some? then retry.value else c.scheduledAt,
      lastError := Some(error));
    WriteRowKeeps(db, id, t', DispatchFailed(id, error, retry, final));
    WriteRowAppends(db, id, t', DispatchFailed(id, error, retry, final));
  }

  lemma ManualRowStep(db: Store, id: nat, previous: TaskStatus, sent: bool, error: Option<string>)
    requires StoreInv(db) && CanRecordManually(db, id, previous)
    ensures RowStep(db, ManualRow(db, id, previous, sent, error))
  {
    var t := db.tasks[id];
    assert RowSane(t, db.clock);
    var t' := t.(status := ManualStatus(sent), lastError := ManualError(sent, error));
    var entry := DeliveryResultRecorded(id, error, previous, ManualStatus(sent));
    WriteRowKeeps(db, id, t', entry);
    WriteRowAppends(db, id, t', entry);
  }

  lemma OperatorCancelRowStep(db: Store, id: nat)
    requires StoreInv(db) && CanCancel(db, id)
    ensures RowStep(db, OperatorCancelRow(db, id))
  {
    var t := db.tasks[id];
    assert RowSane(t, db.clock);
    WriteRowKeeps(db, id, t.(status := Cancelled), OutreachCancelled(id, None));
    WriteRowAppends(db, id, t.(status := Cancelled), OutreachCancelled(id, None));
  }

  lemma {:induction false} OperatorCancelStep(db: Store, ids: seq<nat>)
    requires StoreInv(db)
    ensures RowStep(db, OperatorCancelAll(db, ids))
    decreases |ids|
  {
    if |ids| > 0 {
      if CanCancel(db, ids[0]) {
        OperatorCancelRowStep(db, ids[0]);
        var one := OperatorCancelRow(db, ids[0]);
        OperatorCancelStep(one, ids[1..]);
        AppendsTransitive(db, one, OperatorCancelAll(one, ids[1..]));
      } else {
        OperatorCancelStep(db, ids[1..]);
      }
    }
  }

  lemma RowStepKeeps(s: System, s': System)
    requires Inv(s) && RowStep(s.db, s'.db) && s'.replies == s.replies && ProtocolInv(s')
    ensures Inv(s')
  {
    RepliesStay(s, s'.db);
    forall e | 0 <= e < |s'.db.events| ensures EventHandled(s'.db, e) {
      assert EventHandled(s.db, e);
      HandledStays(s.db, s'.db, e);
    }
  }

  lemma RecordStepInv(s: System, step: Step)
    requires Inv(s) && (step.RecordSuccess? || step.RecordFailure?)
    ensures RowStep(s.db, Next(s, step).db)
  {
    if step.claim < |s.claims| {
      var c := s.claims[step.claim];
      assert ClaimFits(c, s.db.tasks[c.task]);
      if step.RecordSuccess? && c.phase.Returned? && CanRecord(s.db, c.task) {
        SuccessRowStep(s.db, c.task);
      } else if step.RecordFailure? && c.phase.Raising? && CanRecord(s.db, c.task) {
        FailureRowStep(s.db, c, c.phase.error);
      }
    }
  }

  lemma OtherRowStepInv(s: System, step: Step)
    requires Inv(s) && (step.ClaimTask? || step.ManualResult? || step.OperatorCancel?)
    ensures RowStep(s.db, Next(s, step).db)
  {
    NoRowStep(s.db);
    match step
    case ClaimTask(id, now, _) => if CanClaim(s.db, id, now) { ClaimRowStep(s.db, id, now); }
    case ManualResult(id, previous, sent, error) => ManualStepInv(s, step);
    case OperatorCancel(ids) => OperatorCancelStep(s.db, ids);
    case _ =>
  }

  lemma NoRowStep(db: Store)
    requires StoreInv(db)
    ensures RowStep(db, db)
  {
  }

  lemma ManualStepInv(s: System, step: Step)
    requires Inv(s) && step.ManualResult?
    ensures RowStep(s.db, Next(s, step).db)
  {
    if CanRecordManually(s.db, step.task, step.previous) {
      ManualRowStep(s.db, step.task, step.previous, step.sent, step.detailsError);
    } else {
      NoRowStep(s.db);
    }
  }

  // Ingestion.

  lemma AnswerHolds(db: Store, r: Request)
    ensures var e := FindEvent(db.events, r.source, r.externalId);
      e.Some? ==> ReplyHolds(db, ReplyTo(r, Reconstruct(db, e.value)))
  {
  }

  lemma AcceptedReply(s: System, r: Request, earlier: Option<seq<nat>>)
    requires Inv(s) && InRange(s.db, earlier) && Insertable(s.db, r)
    ensures |s.db.events| < |PlannedStore(s.db, r, earlier).events|
    ensures var db' := InsertedStore(s.db, r, earlier);
      && ReplyHolds(db', ReplyTo(r, ResultFromPlanner(|s.db.events|, PlannedResult(s.db, r, earlier))))
      && (forall i :: 0 <= i < |s.replies| ==> ReplyHolds(db', s.replies[i]))
  {
    StoreJoins(s.db);
    ReplyMatchesPlan(s.db, r, earlier);
    PlannedEvents(s.db, r, earlier);
    InsertAppends(s.db, r, earlier);
    RepliesStay(s, InsertedStore(s.db, r, earlier));
  }

  lemma AcceptedKeeps(s: System, r: Request, earlier: Option<seq<nat>>)
    requires Inv(s) && InRange(s.db, earlier) && Insertable(s.db, r)
    ensures |s.db.events| < |PlannedStore(s.db, r, earlier).events|
    ensures var s' := s.(db := InsertedStore(s.db, r, earlier),
                         replies := s.replies + [
                           ReplyTo(r, ResultFromPlanner(|s.db.events|, PlannedResult(s.db, r, earlier)))]);
      StoreInv(s'.db) && AllHandled(s'.db) && SizeBound(s'.db) && RepliesHold(s')
  {
    InsertKeeps(s.db, r, earlier);
    InsertHandles(s.db, r, earlier);
    AcceptedReply(s, r, earlier);
  }

  lemma InsertStepKeeps(s: System, i: nat, earlier: Option<seq<nat>>)
    requires Inv(s) && CanInsert(s, i, earlier)
    ensures Inv(NextInsert(s, i, earlier))
  {
    var r := s.submissions[i].request;
    var s' := NextInsert(s, i, earlier);
    VerdictOf(s.db, r, earlier);
    if Insertable(s.db, r) {
      AcceptedKeeps(s, r, earlier);
      InsertStepCalm(s, i, earlier);
      CalmStepKeeps(s, s');
    } else {
      AnswerHolds(s.db, r);
      QuietStepKeeps(s, s');
    }
  }

  lemma TickKeeps(s: System, to: int)
    requires Inv(s) && s.db.clock <= to
    ensures Inv(s.(db := s.db.(clock := to)))
  {
    var s' := s.(db := s.db.(clock := to));
    assert KeysUnique(s.db) && Lineage(s.db);
    NeutralKeeps(s.db, s'.db);
    CalmStepKeeps(s, s');
    RepliesStay(s, s'.db);
    forall e | 0 <= e < |s'.db.events| ensures EventHandled(s'.db, e) {
      assert EventHandled(s.db, e);
      HandledStays(s.db, s'.db, e);
    }
  }

  /** A step outside the database and the claims that gives at most one true answer. */
  lemma QuietStepKeeps(s: System, s': System)
    requires Inv(s) && s'.db == s.db && s'.claims == s.claims
    requires s'.replies == s.replies
          || (|s'.replies| == |s.replies| + 1 && s.replies <= s'.replies && ReplyHolds(s.db, s'.replies[|s.replies|]))
    ensures Inv(s')
  {
    CalmStepKeeps(s, s');
    forall i | 0 <= i < |s'.replies| ensures ReplyHolds(s'.db, s'.replies[i]) {
      if i < |s.replies| {
        assert ReplyHolds(s.db, s.replies[i]);
      }
    }
  }

  lemma SubmitKeeps(s: System, r: Request)
    requires Inv(s)
    ensures Inv(NextSubmit(s, r))
  {
    AnswerHolds(s.db, r);
    QuietStepKeeps(s, NextSubmit(s, r));
  }

  lemma IngestionStepKeeps(s: System, step: Step)
    requires Inv(s) && (step.Submit? || step.Insert? || step.Abandon? || step.Tick?)
    ensures Inv(Next(s, step))
  {
    match step
    case Submit(r) => SubmitKeeps(s, r);
    case Insert(i, earlier) => if CanInsert(s, i, earlier) { InsertStepKeeps(s, i, earlier); }
    case Abandon(i) => QuietStepKeeps(s, Next(s, step));
    case Tick(to) => if s.db.clock <= to { TickKeeps(s, to); }
    case _ =>
  }

  predicate WritesRows(step: Step) {
    !step.Submit? && !step.Insert? && !step.Abandon? && !step.Tick?
  }

  lemma RowWriterReplies(s: System, step: Step)
    requires WritesRows(step)
    ensures Next(s, step).replies == s.replies
    ensures step.SendReturns? || step.SendRaises? || step.Crash? ==> Next(s, step).db == s.db
  {
  }

  lemma RowWriterStep(s: System, step: Step)
    requires Inv(s) && WritesRows(step)
    ensures RowStep(s.db, Next(s, step).db)
  {
    RowWriterReplies(s, step);
    if step.RecordSuccess? || step.RecordFailure? {
      RecordStepInv(s, step);
    } else if step.ClaimTask? || step.ManualResult? || step.OperatorCancel? {
      OtherRowStepInv(s, step);
    }
  }

  lemma StepKeeps(s: System, step: Step)
    requires Inv(s)
    ensures Inv(Next(s, step))
  {
    if step.Submit? || step.Insert? || step.Abandon? || step.Tick? {
      IngestionStepKeeps(s, step);
    } else {
      ProtocolStep(s, step);
      RowWriterReplies(s, step);
      RowWriterStep(s, step);
      RowStepKeeps(s, Next(s, step));
    }
  }

  lemma {:induction false} RunKeeps(s: System, steps: seq<Step>)
    requires Inv(s)
    ensures Inv(Run(s, steps))
    decreases |steps|
  {
    if |steps| > 0 {
      StepKeeps(s, steps[0]);
      RunKeeps(Next(s, steps[0]), steps[1..]);
    }
  }

  /** Every state the service can reach satisfies the invariant. */
  lemma ReachableInv(clock: int, steps: seq<Step>)
    ensures Inv(Run(Initial(clock), steps))
  {
    RunKeeps(Initial(clock), steps);
  }
}
