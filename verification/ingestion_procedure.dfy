/** ingest_event_snapshot as it works on the tables (src/orchestrator/domain/event_ingestion.py): rows
    are flushed step by step, and everything is rolled back unless the commit is reached. */
module IngestionProcedure {
  import opened Models
  import opened InboundEvents
  import opened Planner
  import opened Ingestion
  import opened Service
  import opened Evolution
  import opened Delivery
  import opened RunningService
  import opened PlannerProcedure

  /** How a submission is answered. */
  datatype Response = Answered(result: IngestionResult) | Unprocessable | InternalError

  /** _upsert_customer. */
  method UpsertCustomerRow(w: World, snapshot: CustomerSnapshot)
    modifies w
    ensures OnlyTables(w)
    ensures w.Db() == old(w.Db()).(customers := UpsertCustomer(old(w.customers), snapshot))
  {
    var id := snapshot.externalId;
    if id !in w.customers {
      w.customers := w.customers[id := Customer(0, false, false, false, false)];
    }
    w.customers := w.customers[id := w.customers[id].(
      timezone := snapshot.timezone,
      smsConsent := snapshot.smsConsent,
      callConsent := snapshot.callConsent,
      emailConsent := snapshot.emailConsent)];
    assert w.customers == UpsertCustomer(old(w.customers), snapshot);
  }

  /** _upsert_account: false is EventIngestionValidationError. */
  method UpsertAccountRow(w: World, snapshot: AccountSnapshot, customer: string) returns (ok: bool)
    modifies w
    ensures OnlyTables(w)
    ensures ok == UpsertAccount(old(w.accounts), snapshot, customer).Some?
    ensures w.Db() == if ok then old(w.Db()).(accounts := UpsertAccount(old(w.accounts), snapshot, customer).value)
      else old(w.Db())
  {
    var id := snapshot.externalId;
    if id !in w.accounts {
      w.accounts := w.accounts[id := Account(customer, snapshot.status)];
    } else if w.accounts[id].customer != customer {
      return false;
    }
    w.accounts := w.accounts[id := w.accounts[id].(status := snapshot.status)];
    assert w.accounts == old(w.accounts)[id := Account(customer, snapshot.status)];
    return true;
  }

  /** Everything after the first lookup, as one transaction. `inserted` says that it was committed. */
  method InsertInTransaction(w: World, r: Request, earlier: Option<seq<nat>>) returns (response: Response)
    requires InRange(w.Db(), earlier)
    modifies w
    ensures OnlyTables(w)
    ensures match InsertEvent(old(w.Db()), r, earlier)
            case Accepted(db, result) => w.Db() == db && response == Answered(result)
            case Duplicate(result) => w.Db() == old(w.Db()) && response == Answered(result)
            case Refused => w.Db() == old(w.Db()) && response == Unprocessable
            case Raised => w.Db() == old(w.Db()) && response == InternalError
  {
    var saved := w.Db();
    UpsertCustomerRow(w, r.customer);
    var ok := UpsertAccountRow(w, r.account, r.customer.externalId);
    if !ok {
      w.Restore(saved);
      return Unprocessable;
    }
    var key := Key(r.source, r.externalId);
    if exists i :: 0 <= i < |w.events| && w.events[i].key == key {
      w.Restore(saved);
      var found := FindEvent(w.events, r.source, r.externalId);
      if found.Some? {
        return Answered(Reconstruct(w.Db(), found.value));
      }
      return InternalError;
    }
    var event := |w.events|;
    w.events := w.events + [EventRow(r)];
    w.audit := w.audit + [EventReceived(event)];
    w.audit := w.audit + [EventAccepted(event)];
    assert w.Db() == Recorded(saved, r, UpsertAccount(saved.accounts, r.account, r.customer.externalId).value);
    var planned, result := PlanOutreachForEvent(w, event, r.occurredAt, FREQUENCY_CAP, earlier);
    if !planned || event >= |w.events| {
      w.Restore(saved);
      return InternalError;
    }
    w.events := w.events[event := w.events[event].(status := Processed)];
    return Answered(ResultFromPlanner(event, result));
  }

  // Tasks keep their account and customer, whatever anyone does.

  ghost predicate IdentitiesKept(tasks: seq<Task>, tasks': seq<Task>) {
    |tasks| <= |tasks'| && forall i :: 0 <= i < |tasks| ==> SameIdentity(tasks[i], tasks'[i])
  }

  lemma PolicyIdentity(db: Store, s: Subject, kind: EventType, now: int, cap: nat)
    requires IsPolicyEvent(kind)
    ensures var v := PlanPolicyEvent(db, s, kind, now, cap);
      v.Planned? && IdentitiesKept(db.tasks, v.db.tasks)
  {
    PlanAllShape(Progress(db, RecentAttempts(db, s.customerId, now), 0, 0, 0, 0), s,
                 Proposals(kind, now, s.customer.timezone), cap);
  }

  lemma CancellationIdentity(db: Store, s: Subject, kind: EventType, earlier: Option<seq<nat>>)
    requires s.customerId in db.customers && s.accountId in db.accounts && InRange(db, earlier)
    ensures var v := PlanCancellation(db, s, kind, earlier);
      v.Planned? && IdentitiesKept(db.tasks, v.db.tasks)
  {
    var changed := StateChange(db, s, kind);
    assert changed.tasks == db.tasks;
    CancelAllShape(changed, s.event, Selected(db, s, earlier));
  }

  lemma PlanIdentity(db: Store, event: nat, now: int, cap: nat, earlier: Option<seq<nat>>)
    requires InRange(db, earlier)
    ensures var v := PlanEvent(db, event, now, cap, earlier);
      v.Planned? ==> IdentitiesKept(db.tasks, v.db.tasks)
  {
    if event < |db.events| && LoadSubject(db, event).Some? {
      var s, kind := LoadSubject(db, event).value, db.events[event].kind;
      if IsPolicyEvent(kind) {
        PolicyIdentity(db, s, kind, now, cap);
      } else {
        CancellationIdentity(db, s, kind, earlier);
      }
    }
  }

  lemma InsertIdentity(db: Store, r: Request, earlier: Option<seq<nat>>)
    requires InRange(db, earlier)
    ensures var v := InsertEvent(db, r, earlier);
      v.Accepted? ==> IdentitiesKept(db.tasks, v.db.tasks)
  {
    var accounts := UpsertAccount(db.accounts, r.account, r.customer.externalId);
    if accounts.Some? {
      PlanIdentity(Recorded(db, r, accounts.value), |db.events|, r.occurredAt, FREQUENCY_CAP, earlier);
    }
  }

  lemma StepIdentity(s: System, step: Step)
    ensures IdentitiesKept(s.db.tasks, Next(s, step).db.tasks)
  {
    var tasks' := Next(s, step).db.tasks;
    if IsWorkerStep(step) {
      WorkerStepLength(s, step);
      forall i | 0 <= i < |s.db.tasks| ensures SameIdentity(s.db.tasks[i], tasks'[i]) {
        WorkerKeepsIdentity(s, step, i);
      }
    } else if step.Insert? && CanInsert(s, step.submission, step.earlier) {
      InsertIdentity(s.db, s.submissions[step.submission].request, step.earlier);
    } else if step.OperatorCancel? {
      OperatorCancelCalm(s.db, step.selected);
      assert forall i :: 0 <= i < |s.db.tasks| ==> CalmRow(s.db.tasks[i], tasks'[i]);
    }
  }

  lemma {:induction false} RunIdentity(s: System, steps: seq<Step>)
    ensures IdentitiesKept(s.db.tasks, Run(s, steps).db.tasks)
    decreases |steps|
  {
    if |steps| > 0 {
      var s' := Next(s, steps[0]);
      StepIdentity(s, steps[0]);
      RunIdentity(s', steps[1..]);
      forall i | 0 <= i < |s.db.tasks| ensures SameIdentity(s.db.tasks[i], Run(s, steps).db.tasks[i]) {
        assert SameIdentity(s.db.tasks[i], s'.db.tasks[i]);
      }
    }
  }

  // The call.

  /** What the planner selects to cancel, when it selects at all. */
  function Selection(db: Store, r: Request): Option<seq<nat>> {
    if IsPolicyEvent(r.kind) then None
    else Some(ScheduledFor(db.tasks, r.customer.externalId, r.account.externalId))
  }

  /** Others take `between` after the lookup, and `late` after the cancellation query. */
  datatype Interference = Interference(between: seq<Step>, late: seq<Step>)

  /** The service when the call comes to its cancellation query. */
  function AtSelection(s: System, r: Request, others: Interference): System {
    Run(Next(s, Submit(r)), Foreign(others.between, None, Some(|s.submissions|)))
  }

  /** The service when the call writes and commits. */
  function AtInsertion(s: System, r: Request, others: Interference): System {
    Run(AtSelection(s, r, others), Foreign(others.late, None, Some(|s.submissions|)))
  }

  function InsertionOf(s: System, r: Request, others: Interference): Step {
    Insert(|s.submissions|, Selection(AtSelection(s, r, others).db, r))
  }

  /** The steps of one call, with those of other processes in between. */
  function IngestSteps(s: System, r: Request, others: Interference): seq<Step> {
    if FindEvent(s.db.events, r.source, r.externalId).Some? then [Submit(r)]
    else
      [Submit(r)] + Foreign(others.between, None, Some(|s.submissions|))
      + Foreign(others.late, None, Some(|s.submissions|)) + [InsertionOf(s, r, others)]
  }

  function ResponseTo(v: Verdict): Response {
    match v
    case Accepted(_, result) => Answered(result)
    case Duplicate(result) => Answered(result)
    case Refused => Unprocessable
    case Raised => InternalError
  }

  lemma IngestRun(s: System, r: Request, others: Interference)
    ensures Run(s, IngestSteps(s, r, others)) ==
      if FindEvent(s.db.events, r.source, r.externalId).Some? then Next(s, Submit(r))
      else Next(AtInsertion(s, r, others), InsertionOf(s, r, others))
  {
    RunSnoc(s, [], Submit(r));
    assert [] + [Submit(r)] == [Submit(r)];
    if FindEvent(s.db.events, r.source, r.externalId).None? {
      var between := Foreign(others.between, None, Some(|s.submissions|));
      var late := Foreign(others.late, None, Some(|s.submissions|));
      RunConcat(s, [Submit(r)], between);
      RunConcat(s, [Submit(r)] + between, late);
      RunSnoc(s, [Submit(r)] + between + late, InsertionOf(s, r, others));
    }
  }

  /** The submission is still open, and still for the same request, when the call comes back to it. */
  lemma SubmissionWaits(s: System, r: Request, others: Interference)
    requires FindEvent(s.db.events, r.source, r.externalId).None?
    ensures var i := |s.submissions|;
      && i < |AtInsertion(s, r, others).submissions|
      && AtInsertion(s, r, others).submissions[i] == Submission(r, true)
  {
    var i := |s.submissions|;
    ForeignRunSpares(Next(s, Submit(r)), Foreign(others.between, None, Some(i)), None, Some(i));
    ForeignRunSpares(AtSelection(s, r, others), Foreign(others.late, None, Some(i)), None, Some(i));
  }

  /** The list the planner holds still names distinct tasks of the account. */
  lemma SelectionStays(s: System, r: Request, others: Interference)
    ensures ValidEarlier(AtInsertion(s, r, others).db, r, Selection(AtSelection(s, r, others).db, r))
  {
    var s1 := AtSelection(s, r, others);
    var s2 := AtInsertion(s, r, others);
    RunIdentity(s1, Foreign(others.late, None, Some(|s.submissions|)));
    if !IsPolicyEvent(r.kind) {
      var ids := ScheduledFor(s1.db.tasks, r.customer.externalId, r.account.externalId);
      forall k | 0 <= k < |ids|
        ensures ids[k] < |s2.db.tasks|
        ensures s2.db.tasks[ids[k]].account == r.account.externalId
             && s2.db.tasks[ids[k]].customer == r.customer.externalId
      {
        assert SameIdentity(s1.db.tasks[ids[k]], s2.db.tasks[ids[k]]);
      }
    }
  }

  lemma CallCanInsert(s: System, r: Request, others: Interference)
    requires FindEvent(s.db.events, r.source, r.externalId).None?
    ensures CanInsert(AtInsertion(s, r, others), |s.submissions|, Selection(AtSelection(s, r, others).db, r))
  {
    SubmissionWaits(s, r, others);
    SelectionStays(s, r, others);
  }

  /** What a call that finds no event comes to. */
  function CallVerdict(s: System, r: Request, others: Interference): Verdict {
    SelectionStays(s, r, others);
    InsertEvent(AtInsertion(s, r, others).db, r, Selection(AtSelection(s, r, others).db, r))
  }

  /** ingest_event_snapshot. Whatever others do between the lookup, the cancellation query and the
      commit, the call is this run of the service and answers as the state it then finds demands. */
  method IngestEventSnapshot(w: World, r: Request, others: Interference) returns (response: Response)
    modifies w
    ensures w.View() == Run(old(w.View()), IngestSteps(old(w.View()), r, others))
    ensures response ==
      match FindEvent(old(w.events), r.source, r.externalId)
      case Some(e) => Answered(Reconstruct(old(w.Db()), e))
      case None => ResponseTo(CallVerdict(old(w.View()), r, others))
  {
    ghost var s := w.View();
    IngestRun(s, r, others);
    var existing := FindEvent(w.events, r.source, r.externalId);
    if existing.Some? {
      var result := Reconstruct(w.Db(), existing.value);
      w.replies := w.replies + [ReplyTo(r, result)];
      return Answered(result);
    }
    SubmissionWaits(s, r, others);
    CallCanInsert(s, r, others);
    var i := |w.submissions|;
    w.submissions := w.submissions + [Submission(r, true)];
    w.Others(Foreign(others.between, None, Some(i)));
    var selected := Selection(w.Db(), r);
    w.Others(Foreign(others.late, None, Some(i)));
    response := CommitSubmission(w, i, r, selected);
  }

  /** The rest of the call, once it has its selection. */
  method CommitSubmission(w: World, i: nat, r: Request, selected: Option<seq<nat>>) returns (response: Response)
    requires CanInsert(w.View(), i, selected) && w.submissions[i].request == r
    modifies w
    ensures w.View() == Next(old(w.View()), Insert(i, selected))
    ensures response == ResponseTo(InsertEvent(old(w.Db()), r, selected))
  {
    w.submissions := w.submissions[i := w.submissions[i].(open := false)];
    response := InsertInTransaction(w, r, selected);
    if response.Answered? {
      w.replies := w.replies + [ReplyTo(r, response.result)];
    }
  }

  /** A call that is answered leaves that answer as the last reply; any other leaves every row as
      the other processes left it. */
  lemma IngestLeaves(s: System, r: Request, others: Interference)
    requires FindEvent(s.db.events, r.source, r.externalId).None?
    ensures var s' := Run(s, IngestSteps(s, r, others));
      match ResponseTo(CallVerdict(s, r, others))
      case Answered(result) => |s'.replies| > 0 && s'.replies[|s'.replies| - 1] == ReplyTo(r, result)
      case _ => s'.db == AtInsertion(s, r, others).db
    ensures var db := AtInsertion(s, r, others).db;
      ResponseTo(CallVerdict(s, r, others)) == Unprocessable
      <==> r.account.externalId in db.accounts && db.accounts[r.account.externalId].customer != r.customer.externalId
  {
    IngestRun(s, r, others);
    SubmissionWaits(s, r, others);
    CallCanInsert(s, r, others);
  }
}
