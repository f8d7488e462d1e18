/** The frequency cap over a sliding 24-hour window of creation times. */
module RollingCap {
  import opened Counting
  import opened Models
  import opened Planner
  import opened Ingestion
  import opened Service
  import opened Evolution
  import opened StoreInvariant
  import opened Insertion
  import opened Delivery
  import opened RunInvariant
  import opened PlannerLoop

  function LiveIn(customer: string, from: int, to: int): Task -> bool {
    (t: Task) => t.customer == customer && CountsAsAttempt(t.status) && from <= t.createdAt <= to
  }

  /** Contact attempts with this customer created in the 24 hours up to and including `t`. */
  function InWindowOf(tasks: seq<Task>, customer: string, t: int): nat {
    Count(tasks, LiveIn(customer, t - 24 * HOUR, t))
  }

  ghost predicate CapHoldsFor(tasks: seq<Task>, customer: string) {
    forall t :: InWindowOf(tasks, customer, t) <= FREQUENCY_CAP
  }

  ghost predicate CapHolds(tasks: seq<Task>) {
    forall c :: CapHoldsFor(tasks, c)
  }

  /** A row that stays countable only if it was. */
  ghost predicate NoRevival(t: Task, t': Task) {
    && t'.customer == t.customer && t'.createdAt == t.createdAt
    && (CountsAsAttempt(t'.status) ==> CountsAsAttempt(t.status))
  }

  lemma CapKeptWithoutInserts(tasks: seq<Task>, tasks': seq<Task>)
    requires CapHolds(tasks) && |tasks'| == |tasks|
    requires forall i :: 0 <= i < |tasks| ==> NoRevival(tasks[i], tasks'[i])
    ensures CapHolds(tasks')
  {
    forall c, t ensures InWindowOf(tasks', c, t) <= FREQUENCY_CAP {
      assert CapHoldsFor(tasks, c);
      assert InWindowOf(tasks, c, t) <= FREQUENCY_CAP;
      CountMonotone(tasks', LiveIn(c, t - 24 * HOUR, t), tasks, LiveIn(c, t - 24 * HOUR, t));
    }
  }

  lemma WorkerStepNoRevival(s: System, step: Step)
    requires IsWorkerStep(step)
    ensures |Next(s, step).db.tasks| == |s.db.tasks|
    ensures forall i :: 0 <= i < |s.db.tasks| ==> NoRevival(s.db.tasks[i], Next(s, step).db.tasks[i])
  {
    WorkerStepLength(s, step);
    forall i | 0 <= i < |s.db.tasks| ensures NoRevival(s.db.tasks[i], Next(s, step).db.tasks[i]) {
      WorkerRowFate(s, step, i);
    }
  }

  // Inserting a policy event.

  /** A pass that counted `recent` attempts, at whatever time it did. */
  function PassCounting(db: Store, r: Request, recent: nat): Progress
    requires IsPolicyEvent(r.kind)
  {
    PlanAll(StartOfPass(db, r).(recent := recent), SubjectOf(db, r),
            Proposals(r.kind, r.occurredAt, r.customer.timezone), FREQUENCY_CAP)
  }

  lemma PassCountsNow(db: Store, r: Request)
    requires IsPolicyEvent(r.kind)
    ensures PassOf(db, r) == PassCounting(db, r, RecentAttempts(db, r.customer.externalId, r.occurredAt))
  {
    var recent := RecentAttempts(db, r.customer.externalId, r.occurredAt);
    assert StartOfPass(db, r) == StartOfPass(db, r).(recent := recent);
  }

  /** The tasks of a pass: all of the subject's customer, all created now, all countable. */
  lemma CountingTasks(db: Store, r: Request, recent: nat)
    requires IsPolicyEvent(r.kind)
    ensures var tasks' := PassCounting(db, r, recent).db.tasks;
      && db.tasks <= tasks'
      && |tasks'| - |db.tasks| == PassCounting(db, r, recent).created
      && (forall i :: |db.tasks| <= i < |tasks'| ==>
            && tasks'[i].customer == r.customer.externalId
            && tasks'[i].status.Scheduled? && tasks'[i].createdAt == db.clock)
  {
    var g, s := StartOfPass(db, r).(recent := recent), SubjectOf(db, r);
    var proposals := Proposals(r.kind, r.occurredAt, r.customer.timezone);
    PlanAllShape(g, s, proposals, FREQUENCY_CAP);
    PlanAllSizes(g, s, proposals, FREQUENCY_CAP);
    var tasks' := PassCounting(db, r, recent).db.tasks;
    forall i | |db.tasks| <= i < |tasks'|
      ensures tasks'[i].customer == r.customer.externalId
           && tasks'[i].status.Scheduled? && tasks'[i].createdAt == db.clock
    {
      assert TaskAbout(tasks'[i], s, db.clock);
    }
  }

  lemma PassTasks(db: Store, r: Request)
    requires IsPolicyEvent(r.kind)
    ensures var tasks' := PassOf(db, r).db.tasks;
      && db.tasks <= tasks'
      && |tasks'| - |db.tasks| == PassOf(db, r).created
      && (forall i :: |db.tasks| <= i < |tasks'| ==>
            && tasks'[i].customer == r.customer.externalId
            && tasks'[i].status.Scheduled? && tasks'[i].createdAt == db.clock)
  {
    PassCountsNow(db, r);
    CountingTasks(db, r, RecentAttempts(db, r.customer.externalId, r.occurredAt));
  }

  /** What the new tasks add to a window. */
  lemma WindowAfterCounting(db: Store, r: Request, recent: nat, c: string, t: int)
    requires IsPolicyEvent(r.kind)
    ensures var g := PassCounting(db, r, recent);
      InWindowOf(g.db.tasks, c, t) == InWindowOf(db.tasks, c, t)
        + (if c == r.customer.externalId && t - 24 * HOUR <= db.clock <= t then g.created else 0)
  {
    CountingTasks(db, r, recent);
    var tasks' := PassCounting(db, r, recent).db.tasks;
    var added := tasks'[|db.tasks|..];
    var live := LiveIn(c, t - 24 * HOUR, t);
    assert tasks' == db.tasks + added;
    assert forall x :: x in added ==>
      x.customer == r.customer.externalId && x.status.Scheduled? && x.createdAt == db.clock;
    CountConcat(db.tasks, added, live);
    if c == r.customer.externalId && t - 24 * HOUR <= db.clock <= t {
      CountAll(added, live);
    } else {
      CountNone(added, live);
    }
  }

  lemma WindowAfterPass(db: Store, r: Request, c: string, t: int)
    requires IsPolicyEvent(r.kind)
    ensures InWindowOf(PassOf(db, r).db.tasks, c, t)
         == InWindowOf(db.tasks, c, t)
            + (if c == r.customer.externalId && t - 24 * HOUR <= db.clock <= t then PassOf(db, r).created else 0)
  {
    PassCountsNow(db, r);
    WindowAfterCounting(db, r, RecentAttempts(db, r.customer.externalId, r.occurredAt), c, t);
  }

  /** Windows ending later than the clock hold no more than the window ending at it. */
  lemma LaterWindows(db: Store, c: string, t: int)
    requires RowsSane(db) && db.clock <= t
    ensures InWindowOf(db.tasks, c, t) <= InWindowOf(db.tasks, c, db.clock)
  {
    assert forall i :: 0 <= i < |db.tasks| ==> RowSane(db.tasks[i], db.clock);
    CountMonotone(db.tasks, LiveIn(c, t - 24 * HOUR, t), db.tasks, LiveIn(c, db.clock - 24 * HOUR, db.clock));
  }

  lemma CountingKeepsCap(db: Store, r: Request, recent: nat)
    requires RowsSane(db) && CapHolds(db.tasks) && IsPolicyEvent(r.kind)
    ensures CapHolds(PassCounting(db, r, recent).db.tasks)
       <==> PassCounting(db, r, recent).created == 0
            || InWindowOf(db.tasks, r.customer.externalId, db.clock) + PassCounting(db, r, recent).created
               <= FREQUENCY_CAP
  {
    var customer, n := r.customer.externalId, PassCounting(db, r, recent).created;
    var tasks' := PassCounting(db, r, recent).db.tasks;
    if n == 0 || InWindowOf(db.tasks, customer, db.clock) + n <= FREQUENCY_CAP {
      forall c, t ensures InWindowOf(tasks', c, t) <= FREQUENCY_CAP {
        assert CapHoldsFor(db.tasks, c);
        assert InWindowOf(db.tasks, c, t) <= FREQUENCY_CAP;
        WindowAfterCounting(db, r, recent, c, t);
        if db.clock <= t {
          LaterWindows(db, c, t);
        }
      }
    } else {
      WindowAfterCounting(db, r, recent, customer, db.clock);
      assert !CapHoldsFor(tasks', customer);
    }
  }

  /** Exactly when a count made at some earlier time keeps the cap, while other events of the
      customer may have been inserted since: when the tasks it leaves room for fit beside those that
      are now there, or it leaves room for none. */
  lemma EarlierCountKeepsCapIff(db: Store, r: Request, recent: nat)
    requires RowsSane(db) && CapHolds(db.tasks) && IsPolicyEvent(r.kind)
    ensures var wanted := NonBlocked(SubjectOf(db, r), Proposals(r.kind, r.occurredAt, r.customer.timezone));
      CapHolds(PassCounting(db, r, recent).db.tasks)
      <==> wanted == 0 || recent >= FREQUENCY_CAP
           || InWindowOf(db.tasks, r.customer.externalId, db.clock) + Min(wanted, FREQUENCY_CAP - recent)
              <= FREQUENCY_CAP
  {
    CountingKeepsCap(db, r, recent);
    PlanAllClosedForm(StartOfPass(db, r).(recent := recent), SubjectOf(db, r),
                      Proposals(r.kind, r.occurredAt, r.customer.timezone), FREQUENCY_CAP);
  }

  /** Exactly when one policy event keeps the cap: its snapshot permits no proposal, or its own count
      leaves no room, or what that count leaves room for fits beside the attempts the database already
      holds in the 24 hours up to its own clock. */
  lemma PassKeepsCapIff(db: Store, r: Request)
    requires RowsSane(db) && CapHolds(db.tasks) && IsPolicyEvent(r.kind)
    ensures var wanted := NonBlocked(SubjectOf(db, r), Proposals(r.kind, r.occurredAt, r.customer.timezone));
      var recent := RecentAttempts(db, r.customer.externalId, r.occurredAt);
      CapHolds(PassOf(db, r).db.tasks)
      <==> wanted == 0 || recent >= FREQUENCY_CAP
           || InWindowOf(db.tasks, r.customer.externalId, db.clock) + Min(wanted, FREQUENCY_CAP - recent)
              <= FREQUENCY_CAP
  {
    PassCountsNow(db, r);
    EarlierCountKeepsCapIff(db, r, RecentAttempts(db, r.customer.externalId, r.occurredAt));
  }

  /** Attempts the planner's own window overlooks, because it starts at the event's date and not at
      the clock's: created within 24 hours of the clock, but more than 24 hours before the event. */
  function OverlookedIn(customer: string, from: int, to: int): Task -> bool {
    (t: Task) => t.customer == customer && CountsAsAttempt(t.status) && from <= t.createdAt < to
  }

  function Overlooked(db: Store, customer: string, occurredAt: int): nat {
    Count(db.tasks, OverlookedIn(customer, db.clock - 24 * HOUR, occurredAt - 24 * HOUR))
  }

  lemma NothingOverlookedWhenTimely(db: Store, customer: string, occurredAt: int)
    requires occurredAt <= db.clock
    ensures Overlooked(db, customer, occurredAt) == 0
  {
    CountNone(db.tasks, OverlookedIn(customer, db.clock - 24 * HOUR, occurredAt - 24 * HOUR));
  }

  /** The clock's window is what the planner counts plus what it overlooks, once it overlooks anything. */
  lemma WindowVersusPlanner(db: Store, customer: string, occurredAt: int)
    requires RowsSane(db)
    ensures InWindowOf(db.tasks, customer, db.clock)
      <= RecentAttempts(db, customer, occurredAt) + Overlooked(db, customer, occurredAt)
    ensures occurredAt >= db.clock ==>
      InWindowOf(db.tasks, customer, db.clock)
      == RecentAttempts(db, customer, occurredAt) + Overlooked(db, customer, occurredAt)
  {
    assert forall i :: 0 <= i < |db.tasks| ==> RowSane(db.tasks[i], db.clock);
    var inWindow := LiveIn(customer, db.clock - 24 * HOUR, db.clock);
    var recent := RecentFor(customer, occurredAt - 24 * HOUR);
    var overlooked := OverlookedIn(customer, db.clock - 24 * HOUR, occurredAt - 24 * HOUR);
    if occurredAt >= db.clock {
      CountSplit(db.tasks, inWindow, recent, overlooked);
    } else {
      CountMonotone(db.tasks, inWindow, db.tasks, recent);
    }
  }

  lemma PassCreated(db: Store, r: Request)
    requires IsPolicyEvent(r.kind)
    ensures PassOf(db, r).created == CreatedBy(SubjectOf(db, r), Proposals(r.kind, r.occurredAt, r.customer.timezone),
                                               RecentAttempts(db, r.customer.externalId, r.occurredAt), FREQUENCY_CAP)
  {
    PlanAllClosedForm(StartOfPass(db, r), SubjectOf(db, r), Proposals(r.kind, r.occurredAt, r.customer.timezone),
                      FREQUENCY_CAP);
  }

  /** An event that overlooks nothing keeps the cap. */
  lemma InsertKeepsCap(db: Store, r: Request, earlier: Option<seq<nat>>)
    requires RowsSane(db) && CapHolds(db.tasks) && InRange(db, earlier)
    requires IsPolicyEvent(r.kind) ==> Overlooked(db, r.customer.externalId, r.occurredAt) == 0
    ensures CapHolds(PlannedStore(db, r, earlier).tasks)
  {
    if IsPolicyEvent(r.kind) {
      PassCreated(db, r);
      WindowVersusPlanner(db, r.customer.externalId, r.occurredAt);
      PassKeepsCapIff(db, r);
    } else {
      InsertCalm(db, r, earlier);
      StateChangeShape(db, r);
      var tasks' := PlannedStore(db, r, earlier).tasks;
      forall i | 0 <= i < |db.tasks| ensures NoRevival(db.tasks[i], tasks'[i]) {
        assert CalmRow(db.tasks[i], tasks'[i]);
      }
      CapKeptWithoutInserts(db.tasks, tasks');
    }
  }

  /** Every other event with the same identity, customer, account and date. */
  function Variant(r: Request, kind: EventType, consents: (bool, bool, bool), status: AccountStatus): Request {
    r.(kind := kind,
       customer := r.customer.(smsConsent := consents.0, callConsent := consents.1, emailConsent := consents.2),
       account := r.account.(status := status))
  }

  ghost predicate KeepsCap(db: Store, r: Request) {
    var v := InsertEvent(db, r, None);
    v.Accepted? ==> CapHolds(v.db.tasks)
  }

  ghost predicate EveryVariantKeepsCap(db: Store, r: Request) {
    forall kind, consents, status :: KeepsCap(db, Variant(r, kind, consents, status))
  }

  lemma KeepsCapMeaning(db: Store, r: Request)
    requires NoRowsAhead(db) && Insertable(db, r)
    ensures KeepsCap(db, r) <==> CapHolds(PlannedStore(db, r, None).tasks)
  {
    VerdictOf(db, r, None);
  }

  /** Exactly when an event's date is safe for a customer who has not opted out: when no attempt of
      theirs was created in the 24 hours before the clock but more than 24 hours before that date. */
  lemma DateIsSafeIff(db: Store, r: Request)
    requires RowsSane(db) && NoRowsAhead(db) && CapHolds(db.tasks) && Insertable(db, r)
    requires r.customer.externalId in db.customers ==> !db.customers[r.customer.externalId].optedOut
    ensures EveryVariantKeepsCap(db, r) <==> Overlooked(db, r.customer.externalId, r.occurredAt) == 0
  {
    if Overlooked(db, r.customer.externalId, r.occurredAt) == 0 {
      forall kind, consents, status ensures KeepsCap(db, Variant(r, kind, consents, status)) {
        KeepsCapMeaning(db, Variant(r, kind, consents, status));
        InsertKeepsCap(db, Variant(r, kind, consents, status), None);
      }
    } else {
      UnsafeDate(db, r);
    }
  }

  /** On an unsafe date a fully consenting customer's delinquency goes over the cap. */
  lemma UnsafeDate(db: Store, r: Request)
    requires RowsSane(db) && NoRowsAhead(db) && CapHolds(db.tasks) && Insertable(db, r)
    requires r.customer.externalId in db.customers ==> !db.customers[r.customer.externalId].optedOut
    requires Overlooked(db, r.customer.externalId, r.occurredAt) > 0
    ensures !EveryVariantKeepsCap(db, r)
  {
    var v := Variant(r, AccountDelinquent, (true, true, true), Delinquent);
    FullConsentCreates(db, v);
    assert CapHoldsFor(db.tasks, r.customer.externalId);
    assert InWindowOf(db.tasks, r.customer.externalId, db.clock) <= FREQUENCY_CAP;
    if r.occurredAt <= db.clock {
      NothingOverlookedWhenTimely(db, r.customer.externalId, r.occurredAt);
    }
    WindowVersusPlanner(db, r.customer.externalId, r.occurredAt);
    PassCountsNow(db, v);
    CountingKeepsCap(db, v, RecentAttempts(db, v.customer.externalId, v.occurredAt));
    KeepsCapMeaning(db, v);
    assert !KeepsCap(db, Variant(r, AccountDelinquent, (true, true, true), Delinquent));
  }

  lemma FullConsentCreates(db: Store, r: Request)
    requires r.kind.AccountDelinquent? && r.account.status.Delinquent?
    requires r.customer.smsConsent && r.customer.callConsent && r.customer.emailConsent
    requires r.customer.externalId in db.customers ==> !db.customers[r.customer.externalId].optedOut
    ensures PassOf(db, r).created == Max(0, FREQUENCY_CAP - RecentAttempts(db, r.customer.externalId, r.occurredAt))
  {
    PassCreated(db, r);
    var s, proposals := SubjectOf(db, r), Proposals(r.kind, r.occurredAt, r.customer.timezone);
    CountAll(proposals, Unblocked(s));
  }

  /** An event about to be planned overlooks no attempt. */
  predicate WellDated(s: System, step: Step) {
    step.Insert? && CanInsert(s, step.submission, step.earlier) ==>
      var r := s.submissions[step.submission].request;
      Insertable(s.db, r) && IsPolicyEvent(r.kind) ==> Overlooked(s.db, r.customer.externalId, r.occurredAt) == 0
  }

  predicate WellDatedRun(s: System, steps: seq<Step>)
    decreases |steps|
  {
    |steps| == 0 || (WellDated(s, steps[0]) && WellDatedRun(Next(s, steps[0]), steps[1..]))
  }

  /** In particular, when no event is dated after the clock. */
  lemma {:induction false} TimelyRunsAreWellDated(s: System, steps: seq<Step>)
    requires TimelyRun(s, steps)
    ensures WellDatedRun(s, steps)
    decreases |steps|
  {
    if |steps| > 0 {
      var step := steps[0];
      if step.Insert? && CanInsert(s, step.submission, step.earlier) {
        var r := s.submissions[step.submission].request;
        NothingOverlookedWhenTimely(s.db, r.customer.externalId, r.occurredAt);
      }
      TimelyRunsAreWellDated(Next(s, steps[0]), steps[1..]);
    }
  }

  lemma CapInsert(s: System, i: nat, earlier: Option<seq<nat>>)
    requires RowsSane(s.db) && NoRowsAhead(s.db) && CapHolds(s.db.tasks) && CanInsert(s, i, earlier)
    requires WellDated(s, Insert(i, earlier))
    ensures CapHolds(NextInsert(s, i, earlier).db.tasks)
  {
    var r := s.submissions[i].request;
    VerdictOf(s.db, r, earlier);
    if Insertable(s.db, r) {
      InsertKeepsCap(s.db, r, earlier);
    }
  }

  lemma CapStep(s: System, step: Step)
    requires Inv(s) && CapHolds(s.db.tasks) && WellDated(s, step)
    ensures CapHolds(Next(s, step).db.tasks)
  {
    if step.Insert? && CanInsert(s, step.submission, step.earlier) {
      CapInsert(s, step.submission, step.earlier);
    } else {
      var tasks' := Next(s, step).db.tasks;
      if IsWorkerStep(step) {
        WorkerStepNoRevival(s, step);
      } else {
        OtherStepCalm(s, step);
        OtherStepInsertsNothing(s, step);
        forall i | 0 <= i < |s.db.tasks| ensures NoRevival(s.db.tasks[i], tasks'[i]) {
          assert CalmRow(s.db.tasks[i], tasks'[i]);
        }
      }
      CapKeptWithoutInserts(s.db.tasks, tasks');
    }
  }

  lemma OtherStepInsertsNothing(s: System, step: Step)
    requires !(step.Insert? && CanInsert(s, step.submission, step.earlier))
    ensures |Next(s, step).db.tasks| == |s.db.tasks|
  {
  }

  lemma {:induction false} CapRun(s: System, steps: seq<Step>)
    requires Inv(s) && CapHolds(s.db.tasks) && WellDatedRun(s, steps)
    ensures CapHolds(Run(s, steps).db.tasks)
    decreases |steps|
  {
    if |steps| > 0 {
      CapStep(s, steps[0]);
      StepKeeps(s, steps[0]);
      CapRun(Next(s, steps[0]), steps[1..]);
    }
  }

  // The same in the columns.

  /** Scheduled, dispatching, sent and failed tasks of a customer created between two instants. */
  function ContactsOf(customer: string, from: int, to: int): Task -> bool {
    (t: Task) =>
      && t.customer == customer && from <= t.createdAt <= to
      && (t.status == Scheduled || t.status == Dispatching || t.status == Sent || t.status == TaskStatus.Failed)
  }

  function ContactsSince(customer: string, from: int): Task -> bool {
    (t: Task) =>
      && t.customer == customer && from <= t.createdAt
      && (t.status == Scheduled || t.status == Dispatching || t.status == Sent || t.status == TaskStatus.Failed)
  }

  lemma WindowInColumns(tasks: seq<Task>, customer: string, t: int)
    ensures InWindowOf(tasks, customer, t) == Count(tasks, ContactsOf(customer, t - 86_400_000_000, t))
  {
    CountAgree(tasks, LiveIn(customer, t - 24 * HOUR, t), tasks, ContactsOf(customer, t - 86_400_000_000, t));
  }

  /** _recent_attempt_count counts the scheduled, dispatching, sent and failed tasks of the customer
      created since 24 hours before the event's date. */
  lemma RecentAttemptsInColumns(db: Store, customer: string, now: int)
    ensures RecentAttempts(db, customer, now) == Count(db.tasks, ContactsSince(customer, now - 86_400_000_000))
  {
    CountAgree(db.tasks, RecentFor(customer, now - 24 * HOUR), db.tasks, ContactsSince(customer, now - 86_400_000_000));
  }

  /** When no event overlooks an attempt by its date, at most three contact attempts with any customer
      are ever created within any 24 hours. */
  lemma AtMostThreeInAnyDay(clock: int, steps: seq<Step>, customer: string, t: int)
    requires WellDatedRun(Initial(clock), steps)
    ensures Count(Run(Initial(clock), steps).db.tasks, ContactsOf(customer, t - 86_400_000_000, t)) <= 3
  {
    ReachableInv(clock, []);
    assert CapHolds(Initial(clock).db.tasks);
    CapRun(Initial(clock), steps);
    assert CapHoldsFor(Run(Initial(clock), steps).db.tasks, customer);
    WindowInColumns(Run(Initial(clock), steps).db.tasks, customer, t);
  }

  /** That is so when no event is dated after the clock at which it is inserted. */
  lemma TimelyEventsKeepTheCap(clock: int, steps: seq<Step>, customer: string, t: int)
    requires TimelyRun(Initial(clock), steps)
    ensures Count(Run(Initial(clock), steps).db.tasks, ContactsOf(customer, t - 86_400_000_000, t)) <= 3
  {
    TimelyRunsAreWellDated(Initial(clock), steps);
    AtMostThreeInAnyDay(clock, steps, customer, t);
  }
}
