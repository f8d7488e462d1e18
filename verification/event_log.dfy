/** What every accepted event leaves behind, whatever happens to its tasks: its rows in the audit log
    and its decisions. */
module EventLog {
  import opened Models
  import opened Planner
  import opened Ingestion
  import opened Service
  import opened Evolution
  import opened StoreInvariant
  import opened Delivery
  import opened RunInvariant
  import opened Guarantees
  import opened Projection
  import opened DecisionLog

  /** Rows about events and the people they concern. */
  function AboutEvents(r: AuditRow): seq<AuditRow> {
    match r
    case EventReceived(_) => [r]
    case EventAccepted(_) => [r]
    case CustomerOptOut(_, _) => [r]
    case HardshipEscalation(_, _) => [r]
    case AccountPause(_, _) => [r]
    case ProcessedMarker(_, _) => [r]
    case _ => []
  }

  /** The rows an event calls for: two receipts, what it does to its customer or account, and for
      events that plan nothing a marker that they are done with. */
  function EventRows(i: nat, e: Event): seq<AuditRow> {
    [EventReceived(i), EventAccepted(i)]
    + match e.kind
      case OptOutReceived => [CustomerOptOut(i, e.customer), ProcessedMarker(i, OptOutReceived)]
      case HardshipRequested => [HardshipEscalation(i, e.account), ProcessedMarker(i, HardshipRequested)]
      case AccountPaused => [AccountPause(i, e.account), ProcessedMarker(i, AccountPaused)]
      case PaymentReceived => [ProcessedMarker(i, PaymentReceived)]
      case AccountDelinquent => []
      case PaymentFailed => []
  }

  function ChannelOf(d: Decision): seq<(nat, Channel)> {
    [(d.event, d.channel)]
  }

  /** The channels decided on for an event, in order. */
  function EventChannels(i: nat, e: Event): seq<(nat, Channel)> {
    match e.kind
    case AccountDelinquent => [(i, Email), (i, Sms), (i, Call)]
    case PaymentFailed => [(i, Email), (i, Sms)]
    case _ => []
  }

  ghost predicate EventsLogged(db: Store) {
    && Project(db.audit, AboutEvents) == Numbered(db.events, EventRows)
    && Project(db.decisions, ChannelOf) == Numbered(db.events, EventChannels)
  }

  // Steps outside ingestion.

  lemma TaskRowsLogNothing(db: Store, db': Store)
    requires EventsLogged(db) && TaskRowsAdded(db, db')
    ensures EventsLogged(db')
  {
    ProjectSilent(db.audit, db'.audit, AboutEvents);
  }

  // Ingestion.

  /** What planning an event still has to log once its receipts are there. */
  function Remaining(i: nat, e: Event): seq<AuditRow> {
    EventRows(i, e)[2..]
  }

  lemma ReceiptsLogged(db: Store, r: Request)
    ensures Project(BaseOf(db, r).audit, AboutEvents)
         == Project(db.audit, AboutEvents) + [EventReceived(|db.events|), EventAccepted(|db.events|)]
  {
    var one := db.audit + [EventReceived(|db.events|)];
    assert BaseOf(db, r).audit == one + [EventAccepted(|db.events|)];
    ProjectSnoc(db.audit, EventReceived(|db.events|), AboutEvents);
    ProjectSnoc(one, EventAccepted(|db.events|), AboutEvents);
  }

  lemma PlanLogsNoEvent(db: Store, r: Request)
    requires IsPolicyEvent(r.kind)
    ensures Project(PassOf(db, r).db.audit, AboutEvents) == Project(BaseOf(db, r).audit, AboutEvents)
  {
    PlanAllShape(StartOfPass(db, r), SubjectOf(db, r), Proposals(r.kind, r.occurredAt, r.customer.timezone),
                 FREQUENCY_CAP);
    var base, audit' := BaseOf(db, r).audit, PassOf(db, r).db.audit;
    forall i | |base| <= i < |audit'| ensures AboutEvents(audit'[i]) == [] {
      assert PlanningRow(audit'[i], |db.events|);
    }
    ProjectSilent(base, audit', AboutEvents);
  }

  lemma ChangeLogged(db: Store, s: Subject, kind: EventType)
    requires s.customerId in db.customers && s.accountId in db.accounts
    ensures Project(StateChange(db, s, kind).audit, AboutEvents)
         == Project(db.audit, AboutEvents)
            + (match kind
               case OptOutReceived => [CustomerOptOut(s.event, s.customerId)]
               case HardshipRequested => [HardshipEscalation(s.event, s.accountId)]
               case AccountPaused => [AccountPause(s.event, s.accountId)]
               case _ => [])
  {
    match kind
    case OptOutReceived => ProjectSnoc(db.audit, CustomerOptOut(s.event, s.customerId), AboutEvents);
    case HardshipRequested => ProjectSnoc(db.audit, HardshipEscalation(s.event, s.accountId), AboutEvents);
    case AccountPaused => ProjectSnoc(db.audit, AccountPause(s.event, s.accountId), AboutEvents);
    case _ =>
  }

  lemma CancelsLogNoEvent(db: Store, cause: nat, ids: seq<nat>)
    requires AllBelow(ids, |db.tasks|)
    ensures Project(CancelAll(db, cause, ids).audit, AboutEvents) == Project(db.audit, AboutEvents)
  {
    CancelledRowsOnly(db, cause, ids);
    ProjectSilent(db.audit, CancelAll(db, cause, ids).audit, AboutEvents);
  }

  lemma BatchCancelsLogged(db: Store, r: Request, earlier: Option<seq<nat>>)
    requires InRange(db, earlier) && !IsPolicyEvent(r.kind)
    ensures Project(CancelledBatch(db, r, earlier).audit, AboutEvents)
         == Project(StateChange(BaseOf(db, r), SubjectOf(db, r), r.kind).audit, AboutEvents)
  {
    CancelsLogNoEvent(StateChange(BaseOf(db, r), SubjectOf(db, r), r.kind), |db.events|, SelectedBy(db, r, earlier));
  }

  lemma BatchLogged(db: Store, r: Request, earlier: Option<seq<nat>>)
    requires InRange(db, earlier) && !IsPolicyEvent(r.kind)
    ensures Project(MarkedBatch(db, r, earlier).audit, AboutEvents)
         == Project(BaseOf(db, r).audit, AboutEvents) + Remaining(|db.events|, EventRow(r))
  {
    ChangeLogged(BaseOf(db, r), SubjectOf(db, r), r.kind);
    BatchCancelsLogged(db, r, earlier);
    ProjectSnoc(CancelledBatch(db, r, earlier).audit, ProcessedMarker(|db.events|, r.kind), AboutEvents);
  }

  lemma ReceiptsFirst(i: nat, e: Event)
    ensures EventRows(i, e) == [EventReceived(i), EventAccepted(i)] + Remaining(i, e)
    ensures IsPolicyEvent(e.kind) ==> Remaining(i, e) == []
  {
  }

  lemma PlannedLogged(db: Store, r: Request, earlier: Option<seq<nat>>)
    requires InRange(db, earlier)
    ensures Project(PlannedStore(db, r, earlier).audit, AboutEvents)
         == Project(db.audit, AboutEvents) + EventRows(|db.events|, EventRow(r))
  {
    ReceiptsLogged(db, r);
    ReceiptsFirst(|db.events|, EventRow(r));
    AfterReceipts(db, r, earlier);
  }

  lemma AfterReceipts(db: Store, r: Request, earlier: Option<seq<nat>>)
    requires InRange(db, earlier)
    ensures Project(PlannedStore(db, r, earlier).audit, AboutEvents)
         == Project(BaseOf(db, r).audit, AboutEvents) + Remaining(|db.events|, EventRow(r))
  {
    ReceiptsFirst(|db.events|, EventRow(r));
    if IsPolicyEvent(r.kind) {
      PlanLogsNoEvent(db, r);
    } else {
      BatchLogged(db, r, earlier);
    }
  }

  // Decisions.

  function ChannelsProposed(event: nat, proposals: seq<Proposal>): seq<(nat, Channel)> {
    if |proposals| == 0 then [] else [(event, proposals[0].channel)] + ChannelsProposed(event, proposals[1..])
  }

  lemma {:induction false} PlanAllDecides(g: Progress, s: Subject, proposals: seq<Proposal>, cap: nat)
    ensures Project(PlanAll(g, s, proposals, cap).db.decisions, ChannelOf)
         == Project(g.db.decisions, ChannelOf) + ChannelsProposed(s.event, proposals)
    decreases |proposals|
  {
    if |proposals| > 0 {
      var one := PlanOne(g, s, proposals[0], cap);
      DecisionStandsForTask(s, proposals[0], g.recent, cap);
      ProjectSnoc(g.db.decisions, one.db.decisions[|g.db.decisions|], ChannelOf);
      PlanAllDecides(one, s, proposals[1..], cap);
    }
  }

  lemma ChannelsOfProposals(event: nat, r: Request)
    requires IsPolicyEvent(r.kind)
    ensures ChannelsProposed(event, Proposals(r.kind, r.occurredAt, r.customer.timezone))
         == EventChannels(event, EventRow(r))
  {
    var p := Proposals(r.kind, r.occurredAt, r.customer.timezone);
    assert ChannelsProposed(event, p) == [(event, p[0].channel)] + ChannelsProposed(event, p[1..]);
    assert p[1..][1..] == p[2..];
    assert ChannelsProposed(event, p[1..]) == [(event, p[1].channel)] + ChannelsProposed(event, p[2..]);
    if r.kind == AccountDelinquent {
      assert p[2..][1..] == [];
      assert ChannelsProposed(event, p[2..]) == [(event, p[2].channel)];
    }
  }

  lemma PlannedDecides(db: Store, r: Request, earlier: Option<seq<nat>>)
    requires InRange(db, earlier)
    ensures Project(PlannedStore(db, r, earlier).decisions, ChannelOf)
         == Project(db.decisions, ChannelOf) + EventChannels(|db.events|, EventRow(r))
  {
    if IsPolicyEvent(r.kind) {
      PlanAllDecides(StartOfPass(db, r), SubjectOf(db, r), Proposals(r.kind, r.occurredAt, r.customer.timezone),
                     FREQUENCY_CAP);
      ChannelsOfProposals(|db.events|, r);
    } else {
      StateChangeShape(db, r);
      CancelAllShape(StateChange(BaseOf(db, r), SubjectOf(db, r), r.kind), |db.events|, SelectedBy(db, r, earlier));
      assert EventChannels(|db.events|, EventRow(r)) == [];
    }
  }

  // Runs.

  lemma ProcessedEvents(db: Store, r: Request, events': seq<Event>)
    requires events' == db.events + [EventRow(r).(status := Processed)]
    ensures Numbered(events', EventRows) == Numbered(db.events, EventRows) + EventRows(|db.events|, EventRow(r))
    ensures Numbered(events', EventChannels)
         == Numbered(db.events, EventChannels) + EventChannels(|db.events|, EventRow(r))
  {
    NumberedSnoc(db.events, EventRow(r).(status := Processed), EventRows);
    NumberedSnoc(db.events, EventRow(r).(status := Processed), EventChannels);
  }

  lemma InsertLogged(s: System, i: nat, earlier: Option<seq<nat>>)
    requires NoRowsAhead(s.db) && CanInsert(s, i, earlier) && EventsLogged(s.db)
    ensures EventsLogged(NextInsert(s, i, earlier).db)
  {
    var r := s.submissions[i].request;
    InsertedOrNot(s, i, earlier);
    PlannedEvents(s.db, r, earlier);
    PlannedLogged(s.db, r, earlier);
    PlannedDecides(s.db, r, earlier);
    ProcessedEvents(s.db, r, MarkProcessed(PlannedStore(s.db, r, earlier), |s.db.events|).events);
  }

  lemma StepLogged(s: System, step: Step)
    requires Inv(s) && EventsLogged(s.db)
    ensures EventsLogged(Next(s, step).db)
  {
    if step.Insert? {
      if CanInsert(s, step.submission, step.earlier) {
        InsertLogged(s, step.submission, step.earlier);
      }
    } else {
      StepAddsTaskRows(s, step);
      TaskRowsLogNothing(s.db, Next(s, step).db);
    }
  }

  lemma {:induction false} RunLogged(s: System, steps: seq<Step>)
    requires Inv(s) && EventsLogged(s.db)
    ensures EventsLogged(Run(s, steps).db)
    decreases |steps|
  {
    if |steps| > 0 {
      StepLogged(s, steps[0]);
      StepKeeps(s, steps[0]);
      RunLogged(Next(s, steps[0]), steps[1..]);
    }
  }

  /** In every reachable state the log's rows about events are exactly those the accepted events call
      for, in their order: receipts, opt-outs, hardship escalations, pauses and markers. */
  lemma EventsAreLogged(clock: int, steps: seq<Step>)
    ensures Project(Reached(clock, steps).db.audit, AboutEvents) == Numbered(Reached(clock, steps).db.events, EventRows)
  {
    ReachableInv(clock, []);
    RunLogged(Initial(clock), steps);
  }

  /** And the decisions table is exactly, for each delinquency, one on email, text and call, for each
      failed payment, one on email and text, and none for any other event. */
  lemma EventsAreDecided(clock: int, steps: seq<Step>)
    ensures Project(Reached(clock, steps).db.decisions, ChannelOf)
         == Numbered(Reached(clock, steps).db.events, EventChannels)
  {
    ReachableInv(clock, []);
    RunLogged(Initial(clock), steps);
  }
}
