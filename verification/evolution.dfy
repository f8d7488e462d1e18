/** How each operation may change the rows that already exist, and which rows it may add. */
module Evolution {
  import opened Models
  import opened InboundEvents
  import opened Policy
  import opened Planner
  import opened Ingestion
  import opened RowUpdates

  /** The columns no operation ever changes. */
  ghost predicate SameIdentity(t: Task, t': Task) {
    && t'.event == t.event && t'.decision == t.decision
    && t'.account == t.account && t'.customer == t.customer && t'.channel == t.channel
    && t'.maxAttempts == t.maxAttempts && t'.createdAt == t.createdAt
  }

  /** A row as anyone but a dispatch worker may change it. */
  ghost predicate CalmRow(t: Task, t': Task) {
    && SameIdentity(t, t')
    && t'.attempts == t.attempts && t'.scheduledAt == t.scheduledAt
    && (t'.status.Scheduled? ==> t.status.Scheduled?)
    && (CountsAsAttempt(t'.status) ==> CountsAsAttempt(t.status))
  }

  /** The task table as anyone but a dispatch worker may change it. */
  ghost predicate Calm(tasks: seq<Task>, tasks': seq<Task>) {
    && |tasks| <= |tasks'|
    && (forall i :: 0 <= i < |tasks| ==> CalmRow(tasks[i], tasks'[i]))
    && (forall i :: |tasks| <= i < |tasks'| ==> tasks'[i].attempts == 0)
  }

  lemma CalmTransitive(a: seq<Task>, b: seq<Task>, c: seq<Task>)
    requires Calm(a, b) && Calm(b, c)
    ensures Calm(a, c)
  {
    forall i | 0 <= i < |a| ensures CalmRow(a[i], c[i]) {
      assert CalmRow(a[i], b[i]) && CalmRow(b[i], c[i]);
    }
    forall i | |a| <= i < |c| ensures c[i].attempts == 0 {
      if i < |b| {
        assert CalmRow(b[i], c[i]);
      }
    }
  }

  /** What planning for one event adds: rows about that event, stamped with the clock. */
  ghost predicate PlansFor(db: Store, db': Store, s: Subject) {
    && db' == db.(decisions := db'.decisions, tasks := db'.tasks, audit := db'.audit)
    && db.decisions <= db'.decisions && db.tasks <= db'.tasks && db.audit <= db'.audit
    && (forall i :: |db.decisions| <= i < |db'.decisions| ==>
          DecisionAbout(db'.decisions[i], s))
    && (forall i :: |db.tasks| <= i < |db'.tasks| ==>
          && |db.decisions| <= db'.tasks[i].decision < |db'.decisions|
          && TaskAbout(db'.tasks[i], s, db.clock))
    && (forall i :: |db.audit| <= i < |db'.audit| ==> PlanningRow(db'.audit[i], s.event))
  }

  ghost predicate DecisionAbout(d: Decision, s: Subject) {
    d.event == s.event && d.account == s.accountId && d.customer == s.customerId
  }

  /** No block rule stands against contacting this subject on this channel. */
  predicate Permits(s: Subject, channel: Channel) {
    !IsBlocked(InputFor(s, Proposal(channel, 0), 0, 0))
  }

  ghost predicate TaskAbout(t: Task, s: Subject, clock: int) {
    && t == NewTask(s, t.decision, t.channel, t.scheduledAt, clock)
    && Permits(s, t.channel)
    && (!t.channel.Email? ==> OpenAt(t.scheduledAt, s.customer.timezone))
  }

  ghost predicate PlanningRow(r: AuditRow, event: nat) {
    (r.PolicyDecisionRecorded? || r.OutreachBlocked? || r.OutreachDeferred? || r.OutreachTaskScheduled?)
    && r.event == event
  }

  /** A call or text is only ever created for an instant inside the customer's window, and
      nothing is created against a block rule. */
  lemma TaskTimeIsOpen(s: Subject, p: Proposal, recent: nat, cap: nat)
    ensures var r := Evaluate(InputFor(s, p, recent, cap));
      TaskTime(p, r).Some? ==>
        Permits(s, p.channel) && (!p.channel.Email? ==> OpenAt(TaskTime(p, r).value, s.customer.timezone))
  {
    var i := InputFor(s, p, recent, cap);
    OutcomeMeaning(i);
    ReasonsMeaning(i);
    if IsQuiet(i) {
      DeferralIsEarliest(i);
      var d := QuietHoursDeferUntil(i).value;
      assert OpenAt(d, i.timezone);
    }
  }

  lemma NewTaskAbout(s: Subject, p: Proposal, recent: nat, cap: nat, decision: nat, clock: int)
    ensures var r := Evaluate(InputFor(s, p, recent, cap));
      TaskTime(p, r).Some? ==> TaskAbout(NewTask(s, decision, r.channel, TaskTime(p, r).value, clock), s, clock)
  {
    TaskTimeIsOpen(s, p, recent, cap);
  }

  lemma PlanOneShape(g: Progress, s: Subject, p: Proposal, cap: nat)
    ensures PlansFor(g.db, PlanOne(g, s, p, cap).db, s)
  {
    var db' := PlanOne(g, s, p, cap).db;
    NewTaskAbout(s, p, g.recent, cap, |g.db.decisions|, g.db.clock);
    forall i | |g.db.tasks| <= i < |db'.tasks|
      ensures |g.db.decisions| <= db'.tasks[i].decision < |db'.decisions| && TaskAbout(db'.tasks[i], s, g.db.clock)
    {
      assert i == |g.db.tasks|;
    }
  }

  lemma {:induction false} PlanAllShape(g: Progress, s: Subject, proposals: seq<Proposal>, cap: nat)
    ensures PlansFor(g.db, PlanAll(g, s, proposals, cap).db, s)
    decreases |proposals|
  {
    if |proposals| > 0 {
      PlanOneShape(g, s, proposals[0], cap);
      PlanAllShape(PlanOne(g, s, proposals[0], cap), s, proposals[1..], cap);
    }
  }

  lemma PlansForCalm(db: Store, db': Store, s: Subject)
    requires PlansFor(db, db', s)
    ensures Calm(db.tasks, db'.tasks)
  {
    forall i | |db.tasks| <= i < |db'.tasks| ensures db'.tasks[i].attempts == 0 {
      assert TaskAbout(db'.tasks[i], s, db.clock);
    }
  }

  /** A batch cancellation: the listed rows become CANCELLED, one audit row each, in order. */
  lemma {:induction false} CancelAllShape(db: Store, cause: nat, ids: seq<nat>)
    requires AllBelow(ids, |db.tasks|)
    ensures var db' := CancelAll(db, cause, ids);
      && db' == db.(tasks := db'.tasks, audit := db'.audit)
      && |db'.audit| == |db.audit| + |ids| && db.audit <= db'.audit
      && (forall k :: 0 <= k < |ids| ==> db'.audit[|db.audit| + k] == OutreachCancelled(ids[k], Some(cause)))
      && (forall i :: 0 <= i < |db.tasks| ==>
            db'.tasks[i] == if i in ids then db.tasks[i].(status := Cancelled) else db.tasks[i])
    decreases |ids|
  {
    if |ids| > 0 {
      var one := CancelOne(db, cause, ids[0]);
      CancelAllShape(one, cause, ids[1..]);
      var db' := CancelAll(one, cause, ids[1..]);
      forall k | 0 <= k < |ids| ensures db'.audit[|db.audit| + k] == OutreachCancelled(ids[k], Some(cause)) {
        if k == 0 {
          assert one.audit[|db.audit|] == db'.audit[|db.audit|];
        } else {
          assert ids[1..][k - 1] == ids[k];
          assert db'.audit[|one.audit| + (k - 1)] == OutreachCancelled(ids[k], Some(cause));
        }
      }
      forall i | 0 <= i < |db.tasks|
        ensures db'.tasks[i] == if i in ids then db.tasks[i].(status := Cancelled) else db.tasks[i]
      {
        assert i in ids <==> i == ids[0] || i in ids[1..];
      }
    }
  }

  lemma CancelAllCalm(db: Store, cause: nat, ids: seq<nat>)
    requires AllBelow(ids, |db.tasks|)
    ensures Calm(db.tasks, CancelAll(db, cause, ids).tasks)
  {
    CancelAllShape(db, cause, ids);
  }

  /** The subject an accepted request is planned for. */
  function SubjectOf(db: Store, r: Request): Subject {
    Subject(|db.events|, r.account.externalId, r.customer.externalId,
            UpsertCustomer(db.customers, r.customer)[r.customer.externalId], r.account.status)
  }

  /** The store an accepted request is planned on. */
  function BaseOf(db: Store, r: Request): Store {
    Recorded(db, r, db.accounts[r.account.externalId := Account(r.customer.externalId, r.account.status)])
  }

  /** No row speaks of an event that does not exist. */
  ghost predicate NoRowsAhead(db: Store) {
    && (forall i :: 0 <= i < |db.decisions| ==> db.decisions[i].event < |db.events|)
    && (forall i :: 0 <= i < |db.audit| ==>
          && (db.audit[i].ProcessedMarker? ==> db.audit[i].event < |db.events|)
          && (db.audit[i].OutreachCancelled? && db.audit[i].cause.Some? ==> db.audit[i].cause.value < |db.events|))
  }

  function StartOfPass(db: Store, r: Request): Progress {
    Progress(BaseOf(db, r), RecentAttempts(db, r.customer.externalId, r.occurredAt), 0, 0, 0, 0)
  }

  function PassOf(db: Store, r: Request): Progress
    requires IsPolicyEvent(r.kind)
  {
    PlanAll(StartOfPass(db, r), SubjectOf(db, r), Proposals(r.kind, r.occurredAt, r.customer.timezone), FREQUENCY_CAP)
  }

  function SelectedBy(db: Store, r: Request, earlier: Option<seq<nat>>): seq<nat> {
    Selected(db, SubjectOf(db, r), earlier)
  }

  /** The store after the state change and the cancellations of a non-policy event. */
  function CancelledBatch(db: Store, r: Request, earlier: Option<seq<nat>>): Store
    requires InRange(db, earlier)
  {
    CancelAll(StateChange(BaseOf(db, r), SubjectOf(db, r), r.kind), |db.events|, SelectedBy(db, r, earlier))
  }

  function MarkedBatch(db: Store, r: Request, earlier: Option<seq<nat>>): Store
    requires InRange(db, earlier)
  {
    var batch := CancelledBatch(db, r, earlier);
    batch.(audit := batch.audit + [ProcessedMarker(|db.events|, r.kind)])
  }

  /** The store when planning is done, before the event is marked PROCESSED. */
  function PlannedStore(db: Store, r: Request, earlier: Option<seq<nat>>): Store
    requires InRange(db, earlier)
  {
    if IsPolicyEvent(r.kind) then PassOf(db, r).db else MarkedBatch(db, r, earlier)
  }

  function PlannedResult(db: Store, r: Request, earlier: Option<seq<nat>>): PlannerResult {
    if IsPolicyEvent(r.kind) then
      var g := PassOf(db, r);
      PlannerResult(g.created, 0, g.decisions, g.blocked, g.deferred)
    else PlannerResult(0, |SelectedBy(db, r, earlier)|, 0, 0, 0)
  }

  /** A new event has not been planned before, so planning always runs in full and cannot fail. */
  lemma PlanRunsInFull(db: Store, r: Request, earlier: Option<seq<nat>>)
    requires NoRowsAhead(db) && InRange(db, earlier)
    ensures PlanEvent(BaseOf(db, r), |db.events|, r.occurredAt, FREQUENCY_CAP, earlier)
         == Planned(PlannedStore(db, r, earlier), PlannedResult(db, r, earlier))
  {
    var base := BaseOf(db, r);
    assert LoadSubject(base, |db.events|) == Some(SubjectOf(db, r));
    assert !HasDecision(base, |db.events|);
    assert ProcessedMarker(|db.events|, r.kind) !in base.audit;
  }

  /** The verdict on a request is decided by three facts a caller can look up. */
  lemma VerdictOf(db: Store, r: Request, earlier: Option<seq<nat>>)
    requires NoRowsAhead(db) && InRange(db, earlier)
    ensures |db.events| < |PlannedStore(db, r, earlier).events|
    ensures var account := r.account.externalId;
      var foreign := account in db.accounts && db.accounts[account].customer != r.customer.externalId;
      var taken := KeyTaken(db.events, Key(r.source, r.externalId));
      var found := FindEvent(db.events, r.source, r.externalId);
      InsertEvent(db, r, earlier) ==
        if foreign then Refused
        else if taken && found.Some? then Duplicate(Reconstruct(db, found.value))
        else if taken then Raised
        else Accepted(MarkProcessed(PlannedStore(db, r, earlier), |db.events|),
                      ResultFromPlanner(|db.events|, PlannedResult(db, r, earlier)))
  {
    PlanRunsInFull(db, r, earlier);
    PlannedEvents(db, r, earlier);
  }

  lemma PassEvents(db: Store, r: Request)
    requires IsPolicyEvent(r.kind)
    ensures PassOf(db, r).db.events == db.events + [EventRow(r)] && PassOf(db, r).db.clock == db.clock
  {
    PlanAllShape(StartOfPass(db, r), SubjectOf(db, r), Proposals(r.kind, r.occurredAt, r.customer.timezone),
                 FREQUENCY_CAP);
  }

  lemma BatchEvents(db: Store, r: Request, earlier: Option<seq<nat>>)
    requires InRange(db, earlier)
    ensures MarkedBatch(db, r, earlier).events == db.events + [EventRow(r)]
      && MarkedBatch(db, r, earlier).clock == db.clock
  {
    StateChangeShape(db, r);
    CancelAllShape(StateChange(BaseOf(db, r), SubjectOf(db, r), r.kind), |db.events|, SelectedBy(db, r, earlier));
  }

  lemma PlannedEvents(db: Store, r: Request, earlier: Option<seq<nat>>)
    requires InRange(db, earlier)
    ensures PlannedStore(db, r, earlier).events == db.events + [EventRow(r)]
    ensures PlannedStore(db, r, earlier).clock == db.clock
  {
    if IsPolicyEvent(r.kind) {
      PassEvents(db, r);
    } else {
      BatchEvents(db, r, earlier);
    }
  }

  /** No operation removes or rewrites a decision or an audit row, moves a task to another
      decision, or adds a row about an event that was already there. */
  ghost predicate Appends(db: Store, db': Store) {
    && db.decisions <= db'.decisions && db.audit <= db'.audit && |db.tasks| <= |db'.tasks|
    && (forall i :: |db.decisions| <= i < |db'.decisions| ==> db'.decisions[i].event >= |db.events|)
    && (forall i :: 0 <= i < |db.tasks| ==> db'.tasks[i].decision == db.tasks[i].decision)
    && (forall i :: |db.tasks| <= i < |db'.tasks| ==> |db.decisions| <= db'.tasks[i].decision < |db'.decisions|)
    && (forall i :: |db.audit| <= i < |db'.audit| && db'.audit[i].OutreachCancelled? && db'.audit[i].cause.Some? ==>
          db'.audit[i].cause.value >= |db.events|)
  }

  lemma StateChangeShape(db: Store, r: Request)
    ensures var db' := StateChange(BaseOf(db, r), SubjectOf(db, r), r.kind);
      && db.audit <= db'.audit && db'.decisions == db.decisions && db'.tasks == db.tasks
      && db'.events == BaseOf(db, r).events && db'.clock == db.clock
      && (forall i :: |db.audit| <= i < |db'.audit| ==> !db'.audit[i].OutreachCancelled?)
  {
  }

  lemma BatchAppends(db: Store, r: Request, earlier: Option<seq<nat>>)
    requires InRange(db, earlier)
    ensures Appends(db, MarkedBatch(db, r, earlier))
  {
    var changed := StateChange(BaseOf(db, r), SubjectOf(db, r), r.kind);
    var ids := SelectedBy(db, r, earlier);
    var db' := MarkedBatch(db, r, earlier);
    StateChangeShape(db, r);
    CancelAllShape(changed, |db.events|, ids);
    forall i | |db.audit| <= i < |db'.audit| && db'.audit[i].OutreachCancelled?
      ensures db'.audit[i].cause == Some(|db.events|)
    {
      if |changed.audit| <= i < |db'.audit| - 1 {
        assert CancelledBatch(db, r, earlier).audit[|changed.audit| + (i - |changed.audit|)]
            == OutreachCancelled(ids[i - |changed.audit|], Some(|db.events|));
      }
    }
  }

  lemma PassAppends(db: Store, r: Request)
    requires IsPolicyEvent(r.kind)
    ensures Appends(db, PassOf(db, r).db)
  {
    var db' := PassOf(db, r).db;
    PlanAllShape(StartOfPass(db, r), SubjectOf(db, r), Proposals(r.kind, r.occurredAt, r.customer.timezone),
                 FREQUENCY_CAP);
    assert forall i :: |db.decisions| <= i < |db'.decisions| ==> DecisionAbout(db'.decisions[i], SubjectOf(db, r));
    forall i | |db.audit| <= i < |db'.audit| ensures !db'.audit[i].OutreachCancelled? {
      if i >= |BaseOf(db, r).audit| {
        assert PlanningRow(db'.audit[i], |db.events|);
      }
    }
  }

  lemma InsertAppends(db: Store, r: Request, earlier: Option<seq<nat>>)
    requires InRange(db, earlier)
    ensures Appends(db, PlannedStore(db, r, earlier))
  {
    if IsPolicyEvent(r.kind) {
      PassAppends(db, r);
    } else {
      BatchAppends(db, r, earlier);
    }
  }

  lemma InsertCalm(db: Store, r: Request, earlier: Option<seq<nat>>)
    requires InRange(db, earlier)
    ensures Calm(db.tasks, PlannedStore(db, r, earlier).tasks)
  {
    if IsPolicyEvent(r.kind) {
      PlanAllShape(StartOfPass(db, r), SubjectOf(db, r), Proposals(r.kind, r.occurredAt, r.customer.timezone),
                   FREQUENCY_CAP);
      PlansForCalm(BaseOf(db, r), PassOf(db, r).db, SubjectOf(db, r));
    } else {
      CancelAllCalm(StateChange(BaseOf(db, r), SubjectOf(db, r), r.kind), |db.events|, SelectedBy(db, r, earlier));
    }
  }

  lemma {:induction false} OperatorCancelCalm(db: Store, ids: seq<nat>)
    ensures Calm(db.tasks, OperatorCancelAll(db, ids).tasks)
    decreases |ids|
  {
    if |ids| > 0 {
      var one := if CanCancel(db, ids[0]) then OperatorCancelRow(db, ids[0]) else db;
      OperatorCancelCalm(one, ids[1..]);
      CalmTransitive(db.tasks, one.tasks, OperatorCancelAll(one, ids[1..]).tasks);
    }
  }
}
