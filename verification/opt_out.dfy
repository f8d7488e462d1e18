/** What an opt-out silences. */
module OptOut {
  import opened Counting
  import opened Models
  import opened Planner
  import opened Ingestion
  import opened Service
  import opened Evolution
  import opened StoreInvariant
  import opened Insertion
  import opened Delivery
  import opened RunInvariant
  import opened Guarantees
  import opened PlannerLoop
  import opened Reclaiming

  predicate HasOptedOut(db: Store, customer: string) {
    customer in db.customers && db.customers[customer].optedOut
  }

  ghost predicate NoNewTaskFor(tasks: seq<Task>, tasks': seq<Task>, customer: string) {
    && |tasks| <= |tasks'|
    && (forall i :: 0 <= i < |tasks| ==> tasks'[i].customer == tasks[i].customer)
    && (forall i :: |tasks| <= i < |tasks'| ==> tasks'[i].customer != customer)
  }

  /** A pass for an opted-out customer creates nothing. */
  lemma OptedOutPassIsEmpty(db: Store, r: Request)
    requires IsPolicyEvent(r.kind) && HasOptedOut(db, r.customer.externalId)
    ensures PassOf(db, r).db.tasks == db.tasks
  {
    var s, proposals := SubjectOf(db, r), Proposals(r.kind, r.occurredAt, r.customer.timezone);
    CountNone(proposals, Unblocked(s));
    PlanAllClosedForm(StartOfPass(db, r), s, proposals, FREQUENCY_CAP);
    PlanAllSizes(StartOfPass(db, r), s, proposals, FREQUENCY_CAP);
    PlanAllShape(StartOfPass(db, r), s, proposals, FREQUENCY_CAP);
  }

  lemma InsertForOptedOut(db: Store, r: Request, earlier: Option<seq<nat>>, customer: string)
    requires InRange(db, earlier) && HasOptedOut(db, customer)
    ensures HasOptedOut(PlannedStore(db, r, earlier), customer)
    ensures NoNewTaskFor(db.tasks, PlannedStore(db, r, earlier).tasks, customer)
  {
    PlannedPeople(db, r, earlier);
    InsertCalm(db, r, earlier);
    var tasks' := PlannedStore(db, r, earlier).tasks;
    forall i | 0 <= i < |db.tasks| ensures tasks'[i].customer == db.tasks[i].customer {
      assert CalmRow(db.tasks[i], tasks'[i]);
    }
    forall i | |db.tasks| <= i < |tasks'| ensures tasks'[i].customer != customer {
      InsertedTasksAreCompliant(db, r, earlier, i);
      if r.customer.externalId == customer && IsPolicyEvent(r.kind) {
        OptedOutPassIsEmpty(db, r);
      } else if !IsPolicyEvent(r.kind) {
        StateChangeShape(db, r);
      }
    }
  }

  lemma OptOutStep(s: System, step: Step, customer: string)
    requires Inv(s) && HasOptedOut(s.db, customer)
    ensures HasOptedOut(Next(s, step).db, customer)
    ensures NoNewTaskFor(s.db.tasks, Next(s, step).db.tasks, customer)
  {
    var s' := Next(s, step);
    if step.Insert? && CanInsert(s, step.submission, step.earlier) {
      InsertedOrNot(s, step.submission, step.earlier);
      InsertForOptedOut(s.db, s.submissions[step.submission].request, step.earlier, customer);
    } else if WritesRows(step) {
      RowWriterStep(s, step);
      RowWriterIdentity(s, step);
    }
  }

  lemma RowWriterIdentity(s: System, step: Step)
    requires Inv(s) && WritesRows(step)
    ensures |Next(s, step).db.tasks| == |s.db.tasks|
    ensures forall i :: 0 <= i < |s.db.tasks| ==> SameIdentity(s.db.tasks[i], Next(s, step).db.tasks[i])
  {
    RowWriterStep(s, step);
    forall i | 0 <= i < |s.db.tasks| ensures SameIdentity(s.db.tasks[i], Next(s, step).db.tasks[i]) {
      if IsWorkerStep(step) {
        WorkerRowFate(s, step, i);
      } else {
        OtherStepCalm(s, step);
        assert CalmRow(s.db.tasks[i], Next(s, step).db.tasks[i]);
      }
    }
  }

  lemma {:induction false} OptOutRun(s: System, steps: seq<Step>, customer: string)
    requires Inv(s) && HasOptedOut(s.db, customer)
    ensures HasOptedOut(Run(s, steps).db, customer)
    ensures NoNewTaskFor(s.db.tasks, Run(s, steps).db.tasks, customer)
    decreases |steps|
  {
    if |steps| > 0 {
      OptOutStep(s, steps[0], customer);
      StepKeeps(s, steps[0]);
      OptOutRun(Next(s, steps[0]), steps[1..], customer);
    }
  }

  predicate IsFor(t: Task, r: Request) {
    t.customer == r.customer.externalId && t.account == r.account.externalId
  }

  /** The task is queued, and a cancellation query made earlier did not answer it. */
  predicate Missed(s: System, earlier: Option<seq<nat>>, id: nat) {
    id < |s.db.tasks| && s.db.tasks[id].status.Scheduled? && earlier.Some? && id !in earlier.value
  }

  /** After an opt-out, no task of that account is queued but those its query missed. */
  lemma OptOutEmptiesQueue(s: System, i: nat, earlier: Option<seq<nat>>, id: nat)
    requires Inv(s) && CanInsert(s, i, earlier) && Insertable(s.db, s.submissions[i].request)
    requires s.submissions[i].request.kind.OptOutReceived?
    ensures var r := s.submissions[i].request;
      var s' := Next(s, Insert(i, earlier));
      && HasOptedOut(s'.db, r.customer.externalId)
      && |s'.db.tasks| == |s.db.tasks|
      && (id < |s'.db.tasks| && IsFor(s'.db.tasks[id], r) && s'.db.tasks[id].status.Scheduled? ==>
           Missed(s, earlier, id))
  {
    var r := s.submissions[i].request;
    VerdictOf(s.db, r, earlier);
    PlannedPeople(s.db, r, earlier);
    StateChangeShape(s.db, r);
    if id < |s.db.tasks| {
      InsertRowFate(s.db, r, earlier, id);
    }
  }

  lemma ContinuationNeeds(s: System, later: seq<Step>, id: nat, k: nat)
    requires Inv(s) && id < |s.db.tasks|
    ensures ClaimsOf(Run(s, later), id) <= 3
    ensures ClaimsOf(Run(s, later), id) != ClaimsOf(s, id) ==> CanReclaim(s, id)
    ensures Accepts(s, Run(s, later), id, k) ==> IsCall(s, id, k) || CanReclaim(s, id)
  {
    RunKeeps(s, later);
    RunKeepsTasks(s, later);
    assert RowSane(Run(s, later).db.tasks[id], Run(s, later).db.clock);
    if !CanReclaim(s, id) {
      SilentRun(s, later, id);
    }
    if Accepts(s, Run(s, later), id, k) {
      AcceptanceNeedsCall(s, later, id, k);
    }
  }

  lemma {:induction false} RunKeepsTasks(s: System, steps: seq<Step>)
    requires Inv(s)
    ensures |s.db.tasks| <= |Run(s, steps).db.tasks|
    decreases |steps|
  {
    if |steps| > 0 {
      if IsWorkerStep(steps[0]) {
        WorkerStepLength(s, steps[0]);
      } else {
        OtherStepCalm(s, steps[0]);
      }
      StepKeeps(s, steps[0]);
      RunKeepsTasks(Next(s, steps[0]), steps[1..]);
    }
  }

  /** Once an opt-out commits, and whatever happens afterwards: the customer stays opted out, no task
      is ever created for them again, and a task of the event's account that is claimed again was at
      the commit in flight, or queued and missing from an earlier answer to the cancellation query; it
      stays within its three attempts. A message for such a task that is accepted answers a call that
      was open at the commit, or comes from such a task. */
  lemma OptOutSilences(
    clock: int, steps: seq<Step>, i: nat, earlier: Option<seq<nat>>, later: seq<Step>, id: nat, k: nat)
    requires var s := Reached(clock, steps);
      && CanInsert(s, i, earlier) && Insertable(s.db, s.submissions[i].request)
      && s.submissions[i].request.kind.OptOutReceived?
    ensures var s := Reached(clock, steps);
      var r := s.submissions[i].request;
      var s1 := Next(s, Insert(i, earlier));
      var s2 := Run(s1, later);
      && HasOptedOut(s2.db, r.customer.externalId)
      && NoNewTaskFor(s1.db.tasks, s2.db.tasks, r.customer.externalId)
      && (id < |s1.db.tasks| ==> ClaimsOf(s2, id) <= 3)
      && (id < |s1.db.tasks| && IsFor(s1.db.tasks[id], r) ==>
            && (ClaimsOf(s2, id) != ClaimsOf(s1, id) ==> InFlight(s1, id) || Missed(s, earlier, id))
            && (Accepts(s1, s2, id, k) ==> IsCall(s1, id, k) || InFlight(s1, id) || Missed(s, earlier, id)))
  {
    var s := Reached(clock, steps);
    var s1 := Next(s, Insert(i, earlier));
    ReachableInv(clock, steps);
    OptOutEmptiesQueue(s, i, earlier, id);
    StepKeeps(s, Insert(i, earlier));
    OptOutRun(s1, later, s.submissions[i].request.customer.externalId);
    if id < |s1.db.tasks| {
      ContinuationNeeds(s1, later, id, k);
    }
  }

  predicate BelongsTo(tasks: seq<Task>, id: nat, customer: string) {
    id < |tasks| && tasks[id].customer == customer
  }

  /** In no continuation does the provider accept a message to this customer that it had not
      accepted before. */
  ghost predicate NeverContacted(s: System, customer: string) {
    forall later, id: nat, k: nat :: BelongsTo(Run(s, later).db.tasks, id, customer) ==>
      !Accepts(s, Run(s, later), id, k)
  }

  /** No task of the customer's is queued, in flight with attempts left, or being sent. */
  predicate NothingLeft(s: System, customer: string) {
    forall id: nat :: id < |s.db.tasks| ==> BelongsTo(s.db.tasks, id, customer) ==> !CanBeAccepted(s, id)
  }

  lemma NothingLeftSilences(s: System, customer: string, later: seq<Step>, id: nat, k: nat)
    requires Inv(s) && HasOptedOut(s.db, customer) && NothingLeft(s, customer)
    requires BelongsTo(Run(s, later).db.tasks, id, customer)
    ensures !Accepts(s, Run(s, later), id, k)
  {
    OptOutRun(s, later, customer);
    assert Run(s, later).db.tasks[id].customer == customer;
    assert BelongsTo(s.db.tasks, id, customer);
    AcceptedIffIn(s, id);
  }

  lemma SomethingLeftSpeaks(s: System, customer: string, id: nat)
    requires Inv(s) && HasOptedOut(s.db, customer) && BelongsTo(s.db.tasks, id, customer) && CanBeAccepted(s, id)
    ensures !NeverContacted(s, customer)
  {
    AcceptedIffIn(s, id);
    var later, k: nat :| Accepts(s, Run(s, later), id, k);
    OptOutRun(s, later, customer);
    assert BelongsTo(Run(s, later).db.tasks, id, customer);
  }

  /** "No contact after opt-out" is true exactly when nothing of the customer's is queued, in flight
      or being sent, on any of their accounts: the cancellation reaches one account only, and no
      call that is open. */
  lemma OptOutIsFinalIff(clock: int, steps: seq<Step>, customer: string)
    requires HasOptedOut(Reached(clock, steps).db, customer)
    ensures NeverContacted(Reached(clock, steps), customer) <==> NothingLeft(Reached(clock, steps), customer)
  {
    ReachableInv(clock, steps);
    var s := Reached(clock, steps);
    if NothingLeft(s, customer) {
      forall later, id: nat, k: nat | BelongsTo(Run(s, later).db.tasks, id, customer)
        ensures !Accepts(s, Run(s, later), id, k)
      {
        NothingLeftSilences(s, customer, later, id, k);
      }
    } else {
      var id: nat :| BelongsTo(s.db.tasks, id, customer) && CanBeAccepted(s, id);
      SomethingLeftSpeaks(s, customer, id);
    }
  }

  // A flag read before an opt-out committed.

  /** A pass whose copy of the customer has this opt-out flag, whatever is stored now. */
  function PassLoading(db: Store, r: Request, optedOut: bool): Progress
    requires IsPolicyEvent(r.kind)
  {
    var s := SubjectOf(db, r);
    PlanAll(StartOfPass(db, r), s.(customer := s.customer.(optedOut := optedOut)),
            Proposals(r.kind, r.occurredAt, r.customer.timezone), FREQUENCY_CAP)
  }

  /** The snapshot lets at least one proposed channel be used. */
  predicate SnapshotPermits(r: Request) {
    && !r.account.status.Paused? && !r.account.status.Resolved?
    && (r.customer.emailConsent || r.customer.smsConsent || (r.kind.AccountDelinquent? && r.customer.callConsent))
  }

  lemma PermittedProposals(db: Store, r: Request, optedOut: bool)
    requires IsPolicyEvent(r.kind)
    ensures var s := SubjectOf(db, r).(customer := SubjectOf(db, r).customer.(optedOut := optedOut));
      NonBlocked(s, Proposals(r.kind, r.occurredAt, r.customer.timezone)) > 0 <==> !optedOut && SnapshotPermits(r)
  {
    var s := SubjectOf(db, r).(customer := SubjectOf(db, r).customer.(optedOut := optedOut));
    var proposals := Proposals(r.kind, r.occurredAt, r.customer.timezone);
    if i: nat :| i < |proposals| && Unblocked(s)(proposals[i]) {
      CountPositive(proposals, Unblocked(s), i);
    } else {
      CountNone(proposals, Unblocked(s));
      assert !Unblocked(s)(proposals[0]) && !Unblocked(s)(proposals[1]);
      assert r.kind.AccountDelinquent? ==> !Unblocked(s)(proposals[2]);
    }
  }

  /** Exactly when a pass that loaded the flag at some earlier time creates nothing: when the flag was
      set by then, or the snapshot permits nothing, or the cap is used up. */
  lemma EarlierFlagSilentIff(db: Store, r: Request, optedOut: bool)
    requires IsPolicyEvent(r.kind)
    ensures PassLoading(db, r, optedOut).db.tasks == db.tasks
       <==> optedOut || !SnapshotPermits(r)
            || RecentAttempts(db, r.customer.externalId, r.occurredAt) >= FREQUENCY_CAP
  {
    var s := SubjectOf(db, r).(customer := SubjectOf(db, r).customer.(optedOut := optedOut));
    var proposals := Proposals(r.kind, r.occurredAt, r.customer.timezone);
    PermittedProposals(db, r, optedOut);
    PlanAllClosedForm(StartOfPass(db, r), s, proposals, FREQUENCY_CAP);
    PlanAllSizes(StartOfPass(db, r), s, proposals, FREQUENCY_CAP);
    PlanAllShape(StartOfPass(db, r), s, proposals, FREQUENCY_CAP);
  }
}
