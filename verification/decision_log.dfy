/** The audit log explains every decision: its rows about decisions are the decisions table. */
module DecisionLog {
  import opened Models
  import opened Policy
  import opened Planner
  import opened Ingestion
  import opened RowUpdates
  import opened Service
  import opened Evolution
  import opened AuditFold
  import opened StoreInvariant
  import opened Delivery
  import opened RunInvariant
  import opened Guarantees
  import opened Projection

  /** What an auditor learns about one decision: the decision itself, and what became of it. */
  datatype Explanation =
    | Decided(event: nat, decision: nat, outcome: Outcome, channel: Channel, reasons: seq<Reason>)
    | Barred(event: nat, account: string, channel: Channel, reasons: seq<Reason>)
    | Deferred(event: nat, account: string, channel: Channel, reasons: seq<Reason>, untilGiven: bool)
    | Queued(event: nat, account: string, channel: Channel)

  function Explains(r: AuditRow): seq<Explanation> {
    match r
    case PolicyDecisionRecorded(e, d, outcome, channel, reasons) => [Decided(e, d, outcome, channel, reasons)]
    case OutreachBlocked(e, account, channel, reasons) => [Barred(e, account, channel, reasons)]
    case OutreachDeferred(e, account, channel, reasons, until) => [Deferred(e, account, channel, reasons, until.Some?)]
    case OutreachTaskScheduled(e, account, channel, _) => [Queued(e, account, channel)]
    case _ => []
  }

  /** The explanations one decision calls for. A time is given exactly for quiet hours, and a task is
      queued for an allowed decision and for one deferred by quiet hours alone. */
  function CallsFor(i: nat, d: Decision): seq<Explanation> {
    [Decided(d.event, i, d.outcome, d.channel, d.reasons)]
    + (if d.outcome == Block then [Barred(d.event, d.account, d.channel, d.reasons)]
       else if d.outcome == Allow then [Queued(d.event, d.account, d.channel)]
       else
         [Deferred(d.event, d.account, d.channel, d.reasons, QuietHours in d.reasons)]
         + if d.reasons == [QuietHours] then [Queued(d.event, d.account, d.channel)] else [])
  }

  ghost predicate Explained(db: Store) {
    Project(db.audit, Explains) == Numbered(db.decisions, CallsFor)
  }

  /** Rows about tasks and events explain no decision. */
  lemma SilentStays(db: Store, db': Store)
    requires Explained(db) && db'.decisions == db.decisions && db.audit <= db'.audit
    requires forall i :: |db.audit| <= i < |db'.audit| ==> Explains(db'.audit[i]) == []
    ensures Explained(db')
  {
    ProjectSilent(db.audit, db'.audit, Explains);
  }

  lemma BlockedProposal(audit: seq<AuditRow>, s: Subject, d: nat, p: Proposal, r: PolicyResult)
    requires r.decision == Block
    ensures Project(audit + ProposalAudit(s, d, p, r), Explains)
         == Project(audit, Explains) + CallsFor(d, DecisionRow(s, r))
  {
    var entries := ProposalAudit(s, d, p, r);
    assert audit + entries == (audit + [entries[0]]) + [entries[1]];
    ProjectSnoc(audit + [entries[0]], entries[1], Explains);
    ProjectSnoc(audit, entries[0], Explains);
  }

  lemma AllowedProposal(audit: seq<AuditRow>, s: Subject, d: nat, p: Proposal, r: PolicyResult)
    requires r.decision == Allow
    ensures Project(audit + ProposalAudit(s, d, p, r), Explains)
         == Project(audit, Explains) + CallsFor(d, DecisionRow(s, r))
  {
    var entries := ProposalAudit(s, d, p, r);
    assert audit + entries == (audit + [entries[0]]) + [entries[1]];
    ProjectSnoc(audit + [entries[0]], entries[1], Explains);
    ProjectSnoc(audit, entries[0], Explains);
  }

  lemma DeferredProposal(audit: seq<AuditRow>, s: Subject, d: nat, p: Proposal, r: PolicyResult)
    requires r.decision == Defer && (r.deferUntil.Some? <==> QuietHours in r.reasons)
    requires TaskTime(p, r).Some? <==> r.reasons == [QuietHours]
    ensures Project(audit + ProposalAudit(s, d, p, r), Explains)
         == Project(audit, Explains) + CallsFor(d, DecisionRow(s, r))
  {
    var entries := ProposalAudit(s, d, p, r);
    var two := (audit + [entries[0]]) + [entries[1]];
    ProjectSnoc(audit + [entries[0]], entries[1], Explains);
    ProjectSnoc(audit, entries[0], Explains);
    if TaskTime(p, r).Some? {
      assert audit + entries == two + [entries[2]];
      ProjectSnoc(two, entries[2], Explains);
    } else {
      assert audit + entries == two;
    }
  }

  lemma PlanOneExplained(g: Progress, s: Subject, p: Proposal, cap: nat)
    requires Explained(g.db)
    ensures Explained(PlanOne(g, s, p, cap).db)
  {
    var i := InputFor(s, p, g.recent, cap);
    var r, d := Evaluate(i), |g.db.decisions|;
    OutcomeMeaning(i);
    ReasonsMeaning(i);
    DecisionStandsForTask(s, p, g.recent, cap);
    NumberedSnoc(g.db.decisions, DecisionRow(s, r), CallsFor);
    if r.decision == Block {
      BlockedProposal(g.db.audit, s, d, p, r);
    } else if r.decision == Allow {
      AllowedProposal(g.db.audit, s, d, p, r);
    } else {
      DeferredProposal(g.db.audit, s, d, p, r);
    }
  }

  lemma {:induction false} PlanAllExplained(g: Progress, s: Subject, proposals: seq<Proposal>, cap: nat)
    requires Explained(g.db)
    ensures Explained(PlanAll(g, s, proposals, cap).db)
    decreases |proposals|
  {
    if |proposals| > 0 {
      PlanOneExplained(g, s, proposals[0], cap);
      PlanAllExplained(PlanOne(g, s, proposals[0], cap), s, proposals[1..], cap);
    }
  }

  lemma BaseExplained(db: Store, r: Request)
    requires Explained(db)
    ensures Explained(BaseOf(db, r))
  {
    SilentStays(db, BaseOf(db, r));
  }

  lemma BatchExplained(db: Store, r: Request, earlier: Option<seq<nat>>)
    requires InRange(db, earlier) && !IsPolicyEvent(r.kind) && Explained(BaseOf(db, r))
    ensures Explained(MarkedBatch(db, r, earlier))
  {
    ChangeExplained(BaseOf(db, r), SubjectOf(db, r), r.kind);
    CancelAllExplained(StateChange(BaseOf(db, r), SubjectOf(db, r), r.kind), |db.events|, SelectedBy(db, r, earlier));
    SilentStays(CancelledBatch(db, r, earlier), MarkedBatch(db, r, earlier));
  }

  lemma ChangeExplained(db: Store, s: Subject, kind: EventType)
    requires s.customerId in db.customers && s.accountId in db.accounts && Explained(db)
    ensures Explained(StateChange(db, s, kind))
  {
    SilentStays(db, StateChange(db, s, kind));
  }

  lemma CancelAllExplained(db: Store, cause: nat, ids: seq<nat>)
    requires AllBelow(ids, |db.tasks|) && Explained(db)
    ensures Explained(CancelAll(db, cause, ids))
  {
    CancelAllShape(db, cause, ids);
    CancelledRowsOnly(db, cause, ids);
    SilentStays(db, CancelAll(db, cause, ids));
  }

  /** A batch cancellation logs cancellations only. */
  lemma CancelledRowsOnly(db: Store, cause: nat, ids: seq<nat>)
    requires AllBelow(ids, |db.tasks|)
    ensures var db' := CancelAll(db, cause, ids);
      db.audit <= db'.audit && forall i :: |db.audit| <= i < |db'.audit| ==> db'.audit[i].OutreachCancelled?
  {
    CancelAllShape(db, cause, ids);
    var db' := CancelAll(db, cause, ids);
    forall i | |db.audit| <= i < |db'.audit| ensures db'.audit[i].OutreachCancelled? {
      assert db'.audit[|db.audit| + (i - |db.audit|)] == OutreachCancelled(ids[i - |db.audit|], Some(cause));
    }
  }

  lemma InsertExplained(s: System, i: nat, earlier: Option<seq<nat>>)
    requires NoRowsAhead(s.db) && CanInsert(s, i, earlier) && Explained(s.db)
    ensures Explained(NextInsert(s, i, earlier).db)
  {
    var r := s.submissions[i].request;
    InsertedOrNot(s, i, earlier);
    BaseExplained(s.db, r);
    if IsPolicyEvent(r.kind) {
      PlanAllExplained(StartOfPass(s.db, r), SubjectOf(s.db, r), Proposals(r.kind, r.occurredAt, r.customer.timezone),
                       FREQUENCY_CAP);
    } else {
      BatchExplained(s.db, r, earlier);
    }
  }

  /** Outside ingestion only rows about tasks are logged. */
  ghost predicate TaskRowsAdded(db: Store, db': Store) {
    && db'.decisions == db.decisions && db'.events == db.events && db.audit <= db'.audit
    && forall i :: |db.audit| <= i < |db'.audit| ==> IsTaskRow(db'.audit[i])
  }

  lemma TaskRowsExplainNothing(db: Store, db': Store)
    requires Explained(db) && TaskRowsAdded(db, db')
    ensures Explained(db')
  {
    SilentStays(db, db');
  }

  lemma {:induction false} OperatorRowsAdded(db: Store, ids: seq<nat>)
    ensures TaskRowsAdded(db, OperatorCancelAll(db, ids))
    decreases |ids|
  {
    if |ids| > 0 {
      OperatorRowsAdded(if CanCancel(db, ids[0]) then OperatorCancelRow(db, ids[0]) else db, ids[1..]);
    }
  }

  lemma StepAddsTaskRows(s: System, step: Step)
    requires !step.Insert?
    ensures TaskRowsAdded(s.db, Next(s, step).db)
  {
    if step.OperatorCancel? {
      OperatorRowsAdded(s.db, step.selected);
    }
  }

  lemma StepExplained(s: System, step: Step)
    requires Inv(s) && Explained(s.db)
    ensures Explained(Next(s, step).db)
  {
    if step.Insert? {
      if CanInsert(s, step.submission, step.earlier) {
        InsertExplained(s, step.submission, step.earlier);
      }
    } else {
      StepAddsTaskRows(s, step);
      TaskRowsExplainNothing(s.db, Next(s, step).db);
    }
  }

  lemma {:induction false} RunExplained(s: System, steps: seq<Step>)
    requires Inv(s) && Explained(s.db)
    ensures Explained(Run(s, steps).db)
    decreases |steps|
  {
    if |steps| > 0 {
      StepExplained(s, steps[0]);
      StepKeeps(s, steps[0]);
      RunExplained(Next(s, steps[0]), steps[1..]);
    }
  }

  /** In every reachable state the log explains the decisions table, in its order: each decision with
      the outcome, channel and reasons stored, its block, deferral or task, and nothing besides. */
  lemma DecisionsAreExplained(clock: int, steps: seq<Step>)
    ensures Project(Reached(clock, steps).db.audit, Explains) == Numbered(Reached(clock, steps).db.decisions, CallsFor)
  {
    ReachableInv(clock, []);
    RunExplained(Initial(clock), steps);
  }
}
