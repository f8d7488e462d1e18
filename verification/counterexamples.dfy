/** Runs on which tempting claims fail. Each starts from an empty database. */
module Counterexamples {
  import opened Counting
  import opened Models
  import opened InboundEvents
  import opened Planner
  import opened Ingestion
  import opened RowUpdates
  import opened Service
  import opened Evolution
  import opened StoreInvariant
  import opened Insertion
  import opened RunInvariant
  import opened PlannerLoop
  import opened Guarantees
  import opened RollingCap
  import opened Reclaiming
  import opened OptOut
  import opened FinalStatus

  const WILLING: CustomerSnapshot := CustomerSnapshot("customer", 0, true, true, true)

  function Delinquency(externalId: string, account: string, occurredAt: int): Request {
    Request("crm", externalId, AccountDelinquent, WILLING, AccountSnapshot(account, Delinquent), occurredAt)
  }

  /** A new event submitted and committed with nothing in between. */
  function Accept(s: System, r: Request): seq<Step> {
    [Submit(r), Insert(|s.submissions|, None)]
  }

  lemma AcceptCommits(s: System, r: Request)
    requires Inv(s) && Insertable(s.db, r)
    ensures |s.db.events| < |PlannedStore(s.db, r, None).events|
    ensures var s' := Run(s, Accept(s, r));
      && Inv(s') && s'.db == InsertedStore(s.db, r, None)
      && s'.claims == s.claims && |s'.submissions| == |s.submissions| + 1
  {
    var mid := Next(s, Submit(r));
    assert forall i :: 0 <= i < |s.db.events| ==>
        s.db.events[i].key == Key(s.db.events[i].source, s.db.events[i].externalId);
    assert FindEvent(s.db.events, r.source, r.externalId).None?;
    assert Run(s, Accept(s, r)) == Run(mid, [Insert(|s.submissions|, None)]) by {
      assert Accept(s, r)[1..] == [Insert(|s.submissions|, None)];
    }
    assert Run(mid, [Insert(|s.submissions|, None)]) == Next(mid, Insert(|s.submissions|, None)) by {
      assert [Insert(|s.submissions|, None)][1..] == [];
    }
    VerdictOf(s.db, r, None);
    RunKeeps(s, Accept(s, r));
  }

  /** A delinquency of a customer without recent attempts queues three tasks. */
  lemma DelinquencyQueues(s: System, externalId: string, account: string, occurredAt: int)
    requires var r := Delinquency(externalId, account, occurredAt);
      Inv(s) && Insertable(s.db, r) && RecentAttempts(s.db, "customer", occurredAt) == 0
    requires !HasOptedOut(s.db, "customer")
    ensures var r := Delinquency(externalId, account, occurredAt);
      var tasks' := Run(s, Accept(s, r)).db.tasks;
      && s.db.tasks <= tasks' && |tasks'| == |s.db.tasks| + 3
      && (forall i :: |s.db.tasks| <= i < |tasks'| ==>
            tasks'[i].customer == "customer" && tasks'[i].account == account && tasks'[i].status.Scheduled?)
  {
    var r := Delinquency(externalId, account, occurredAt);
    AcceptCommits(s, r);
    FullConsentCreates(s.db, r);
    PassTasks(s.db, r);
    PlanAllShape(StartOfPass(s.db, r), SubjectOf(s.db, r), Proposals(r.kind, r.occurredAt, 0), FREQUENCY_CAP);
    var tasks' := PassOf(s.db, r).db.tasks;
    forall i | |s.db.tasks| <= i < |tasks'| ensures tasks'[i].account == account {
      assert TaskAbout(tasks'[i], SubjectOf(s.db, r), s.db.clock);
    }
  }

  /** The service after one delinquency of account "b", at clock 0. */
  function AfterOne(): System {
    Run(Initial(0), Accept(Initial(0), Delinquency("1", "b", 0)))
  }

  lemma AcceptedRows(s: System, r: Request)
    requires Inv(s) && Insertable(s.db, r)
    ensures var db := Run(s, Accept(s, r)).db;
      && db.clock == s.db.clock && |db.events| == |s.db.events| + 1
      && db.events[|s.db.events|] == EventRow(r).(status := Processed)
      && db.customers == CustomersAfter(s.db, r) && db.accounts == AccountsAfter(s.db, r)
  {
    AcceptCommits(s, r);
    PlannedEvents(s.db, r, None);
    PlannedPeople(s.db, r, None);
  }

  lemma FirstRequestInsertable()
    ensures Inv(Initial(0)) && Insertable(Initial(0).db, Delinquency("1", "b", 0))
  {
    ReachableInv(0, []);
  }

  lemma AfterOneWork()
    ensures |AfterOne().submissions| == 1 && AfterOne().claims == []
  {
    FirstRequestInsertable();
    AcceptCommits(Initial(0), Delinquency("1", "b", 0));
  }

  lemma AfterOneTables()
    ensures var r := Delinquency("1", "b", 0);
      && AfterOne().db.clock == 0 && AfterOne().db.events == [EventRow(r).(status := Processed)]
      && AfterOne().db.customers == CustomersAfter(Initial(0).db, r)
      && AfterOne().db.accounts == AccountsAfter(Initial(0).db, r)
  {
    FirstRequestInsertable();
    AcceptedRows(Initial(0), Delinquency("1", "b", 0));
  }

  lemma AfterOneRows()
    ensures |AfterOne().submissions| == 1 && AfterOne().claims == [] && AfterOne().db.clock == 0
    ensures |AfterOne().db.events| == 1 && AfterOne().db.events[0].key == Key("crm", "1")
    ensures AfterOne().db.events[0].externalId == "1"
    ensures AfterOne().db.accounts == map["b" := Account("customer", Delinquent)]
    ensures !HasOptedOut(AfterOne().db, "customer")
  {
    AfterOneWork();
    AfterOneTables();
  }

  lemma AfterOneState()
    ensures Inv(AfterOne())
    ensures |AfterOne().db.tasks| == 3
    ensures forall i :: 0 <= i < 3 ==>
      && AfterOne().db.tasks[i].status.Scheduled?
      && AfterOne().db.tasks[i].customer == "customer" && AfterOne().db.tasks[i].account == "b"
      && AfterOne().db.tasks[i].createdAt <= 0
  {
    ReachableInv(0, []);
    assert Insertable(Initial(0).db, Delinquency("1", "b", 0));
    DelinquencyQueues(Initial(0), "1", "b", 0);
    RunKeeps(Initial(0), Accept(Initial(0), Delinquency("1", "b", 0)));
    AfterOneRows();
    assert forall i :: 0 <= i < 3 ==> RowSane(AfterOne().db.tasks[i], 0);
  }

  /** The three attempts of the first event, in the window that ends at the clock. */
  lemma AfterOneWindow()
    ensures InWindowOf(AfterOne().db.tasks, "customer", 0) == 3
  {
    ReachableInv(0, []);
    DelinquencyFillsWindow(Initial(0), "1", "b", 0);
  }

  lemma OtherKeyFree(s: System, externalId: string)
    requires s == AfterOne() && externalId != "1"
    ensures !KeyTaken(s.db.events, Key("crm", externalId)) && FindEvent(s.db.events, "crm", externalId).None?
  {
    AfterOneRows();
    assert Key("crm", externalId)[4..] == externalId && Key("crm", "1")[4..] == "1";
  }

  const OPT_OUT_ELSEWHERE: Request :=
    Request("crm", "2", OptOutReceived, WILLING, AccountSnapshot("a", Delinquent), 0)

  lemma OptOutElsewhere()
    ensures Insertable(AfterOne().db, OPT_OUT_ELSEWHERE)
    ensures var s := Run(AfterOne(), Accept(AfterOne(), OPT_OUT_ELSEWHERE));
      && Inv(s) && HasOptedOut(s.db, "customer") && s.db.tasks == AfterOne().db.tasks
  {
    var s0 := AfterOne();
    AfterOneState();
    AfterOneRows();
    OtherKeyFree(s0, "2");
    AcceptCommits(s0, OPT_OUT_ELSEWHERE);
    PlannedPeople(s0.db, OPT_OUT_ELSEWHERE, None);
    StateChangeShape(s0.db, OPT_OUT_ELSEWHERE);
    forall id | 0 <= id < |s0.db.tasks|
      ensures PlannedStore(s0.db, OPT_OUT_ELSEWHERE, None).tasks[id] == s0.db.tasks[id]
    {
      InsertRowFate(s0.db, OPT_OUT_ELSEWHERE, None, id);
    }
  }

  /** "No contact after an opt-out" fails: an opt-out received on one account leaves the tasks of
      the customer's other account queued, and a message for them can still be accepted. */
  lemma OptOutLeavesOtherAccounts()
    ensures var s := Run(AfterOne(), Accept(AfterOne(), OPT_OUT_ELSEWHERE));
      && HasOptedOut(s.db, "customer")
      && |s.db.tasks| == 3 && s.db.tasks[0].customer == "customer" && EverAccepted(s, 0)
  {
    AfterOneState();
    OptOutElsewhere();
    AcceptedIffIn(Run(AfterOne(), Accept(AfterOne(), OPT_OUT_ELSEWHERE)), 0);
  }

  const OPT_OUT_HERE: Request :=
    Request("crm", "2", OptOutReceived, WILLING, AccountSnapshot("b", Delinquent), 0)

  /** A worker calls the provider for a task, and meanwhile an operator enters a failure for it. */
  function FailedInCall(s: System, id: nat, now: int): System {
    Next(Next(s, ClaimTask(id, now, 0)), ManualResult(id, Dispatching, false, None))
  }

  lemma FailedInCallState(s: System, id: nat, now: int)
    requires Inv(s) && s.claims == [] && CanClaim(s.db, id, now)
    ensures var s' := FailedInCall(s, id, now);
      && Inv(s') && IsCall(s', id, 0) && !s'.claims[0].delivered
      && s'.db.tasks == s.db.tasks[id := s.db.tasks[id].(
           status := TaskStatus.Failed, attempts := s.db.tasks[id].attempts + 1, lastError := Some(MANUAL_FAILURE))]
      && s'.db.accounts == s.db.accounts && s'.db.events == s.db.events && s'.db.customers == s.db.customers
  {
    var claimed := Next(s, ClaimTask(id, now, 0));
    FirstClaim(s, id, now);
    ManualFailure(claimed, id);
    FailedInCallInv(s, id, now);
  }

  lemma FirstClaim(s: System, id: nat, now: int)
    requires s.claims == [] && CanClaim(s.db, id, now)
    ensures Next(s, ClaimTask(id, now, 0))
         == s.(db := ClaimRow(s.db, id), claims := [NewClaim(s.db, id, now, 0)])
  {
  }

  lemma ManualFailure(s: System, id: nat)
    requires id < |s.db.tasks| && s.db.tasks[id].status.Dispatching?
    ensures Next(s, ManualResult(id, Dispatching, false, None))
         == s.(db := ManualRow(s.db, id, Dispatching, false, None))
  {
  }

  lemma FailedInCallInv(s: System, id: nat, now: int)
    requires Inv(s)
    ensures Inv(FailedInCall(s, id, now))
  {
    StepKeeps(s, ClaimTask(id, now, 0));
    StepKeeps(Next(s, ClaimTask(id, now, 0)), ManualResult(id, Dispatching, false, None));
  }

  /** No row of these is dispatching, and all are for the customer and account of the request. */
  ghost predicate IdleFor(tasks: seq<Task>, r: Request) {
    forall id :: 0 <= id < |tasks| ==> IsFor(tasks[id], r) && !tasks[id].status.Dispatching?
  }

  lemma OptOutRow(s: System, r: Request, id: nat)
    requires Inv(s) && Insertable(s.db, r) && r.kind.OptOutReceived? && IdleFor(s.db.tasks, r) && id < |s.db.tasks|
    ensures id < |PlannedStore(s.db, r, None).tasks|
    ensures var t := PlannedStore(s.db, r, None).tasks[id];
      !t.status.Scheduled? && !t.status.Dispatching? && t.customer == r.customer.externalId
  {
    InsertRowFate(s.db, r, None, id);
    assert IsFor(s.db.tasks[id], r);
  }

  lemma OptOutOverIdle(s: System, r: Request)
    requires Inv(s) && Insertable(s.db, r) && r.kind.OptOutReceived? && IdleFor(s.db.tasks, r)
    ensures var s' := Run(s, Accept(s, r));
      && Inv(s') && s'.claims == s.claims && HasOptedOut(s'.db, r.customer.externalId)
      && |s'.db.tasks| == |s.db.tasks|
      && (forall id :: 0 <= id < |s.db.tasks| ==>
            s'.db.tasks[id].customer == r.customer.externalId && !CanReclaim(s', id))
  {
    var s' := Run(s, Accept(s, r));
    AcceptCommits(s, r);
    PlannedPeople(s.db, r, None);
    StateChangeShape(s.db, r);
    forall id | 0 <= id < |s.db.tasks|
      ensures s'.db.tasks[id].customer == r.customer.externalId && !CanReclaim(s', id)
    {
      OptOutRow(s, r, id);
    }
  }

  lemma OpenCallAnswered(s: System, id: nat)
    requires IsCall(s, id, 0) && !s.claims[0].delivered
    ensures Accepts(s, Next(s, SendReturns(0)), id, 0)
  {
  }

  lemma OptOutHereInserts(s: System)
    requires s.db.accounts == AfterOne().db.accounts && s.db.events == AfterOne().db.events
    ensures Insertable(s.db, OPT_OUT_HERE)
  {
    AfterOneRows();
    OtherKeyFree(AfterOne(), "2");
  }

  /** It fails even when nothing of the customer's is queued or in flight: the provider accepts a
      message whose call was open when the opt-out committed. */
  lemma OptOutMissesOpenCall()
    ensures |AfterOne().db.tasks| == 3
    ensures var s0 := FailedInCall(AfterOne(), 0, AfterOne().db.tasks[0].scheduledAt);
      var s := Run(s0, Accept(s0, OPT_OUT_HERE));
      && HasOptedOut(s.db, "customer") && |s.db.tasks| == 3
      && (forall id :: 0 <= id < 3 ==> s.db.tasks[id].customer == "customer" && !CanReclaim(s, id))
      && Accepts(s, Next(s, SendReturns(0)), 0, 0)
  {
    AfterOneState();
    AfterOneRows();
    var now := AfterOne().db.tasks[0].scheduledAt;
    FailedInCallState(AfterOne(), 0, now);
    var s0 := FailedInCall(AfterOne(), 0, now);
    OptOutHereInserts(s0);
    OptOutOverIdle(s0, OPT_OUT_HERE);
    OpenCallAnswered(Run(s0, Accept(s0, OPT_OUT_HERE)), 0);
  }

  lemma DelinquencyFillsWindow(s: System, externalId: string, account: string, occurredAt: int)
    requires var r := Delinquency(externalId, account, occurredAt);
      Inv(s) && Insertable(s.db, r) && RecentAttempts(s.db, "customer", occurredAt) == 0
    requires !HasOptedOut(s.db, "customer")
    ensures var r := Delinquency(externalId, account, occurredAt);
      InWindowOf(Run(s, Accept(s, r)).db.tasks, "customer", s.db.clock)
      == InWindowOf(s.db.tasks, "customer", s.db.clock) + 3
  {
    var r := Delinquency(externalId, account, occurredAt);
    AcceptCommits(s, r);
    FullConsentCreates(s.db, r);
    WindowAfterPass(s.db, r, "customer", s.db.clock);
  }

  /** The frequency cap fails for an event dated a day ahead: six attempts are created at once. */
  lemma FutureDateDefeatsCap()
    ensures var r := Delinquency("2", "b", 24 * HOUR + 1);
      InWindowOf(Run(AfterOne(), Accept(AfterOne(), r)).db.tasks, "customer", 0) == 6
  {
    var s := AfterOne();
    AfterOneState();
    AfterOneRows();
    AfterOneWindow();
    OtherKeyFree(s, "2");
    CountNone(s.db.tasks, RecentFor("customer", 1));
    assert RecentAttempts(s.db, "customer", 24 * HOUR + 1) == 0;
    DelinquencyFillsWindow(s, "2", "b", 24 * HOUR + 1);
  }

  const WILLING_PAYMENT: Request := Request("crm", "0", PaymentReceived, WILLING, AccountSnapshot("b", Delinquent), 0)

  /** A service that has stored the customer and account, and nothing to do. */
  function Stored(): System {
    Run(Initial(0), Accept(Initial(0), WILLING_PAYMENT))
  }

  ghost predicate StoredOnly(s: System) {
    && Inv(s) && s.claims == [] && s.db.tasks == [] && s.db.clock == 0
    && s.db.events == [EventRow(WILLING_PAYMENT).(status := Processed)]
    && s.db.customers == map["customer" := Customer(0, true, true, true, false)]
    && s.db.accounts == map["b" := Account("customer", Delinquent)]
  }

  lemma StoredRows()
    ensures StoredOnly(Stored())
  {
    var db, r := Initial(0).db, WILLING_PAYMENT;
    ReachableInv(0, []);
    AcceptCommits(Initial(0), r);
    AcceptedRows(Initial(0), r);
    StateChangeShape(db, r);
    CancelAllShape(StateChange(BaseOf(db, r), SubjectOf(db, r), PaymentReceived), 0, []);
  }

  lemma KeyIsFree(events: seq<Event>, externalId: string)
    requires forall i :: 0 <= i < |events| ==>
      events[i].key == Key("crm", events[i].externalId) && events[i].externalId != externalId
    ensures !KeyTaken(events, Key("crm", externalId))
  {
    forall i | 0 <= i < |events| ensures events[i].key != Key("crm", externalId) {
      assert Key("crm", externalId)[4..] == externalId;
      assert Key("crm", events[i].externalId)[4..] == events[i].externalId;
    }
  }

  /** The service after the first of two delinquencies. */
  function FirstOfTwo(s: System): System {
    Run(s, Accept(s, Delinquency("1", "b", 0)))
  }

  lemma InsertedEvents(db: Store, r: Request)
    ensures |db.events| < |PlannedStore(db, r, None).events|
    ensures var db' := InsertedStore(db, r, None);
      db'.clock == db.clock && db'.events == db.events + [EventRow(r).(status := Processed)]
  {
    PlannedEvents(db, r, None);
  }

  lemma AcceptedEvents(s: System, r: Request)
    requires Inv(s) && Insertable(s.db, r)
    ensures var s' := Run(s, Accept(s, r));
      Inv(s') && s'.db.clock == s.db.clock && s'.db.events == s.db.events + [EventRow(r).(status := Processed)]
  {
    AcceptCommits(s, r);
    InsertedEvents(s.db, r);
  }

  lemma FirstOfTwoEvents(s: System)
    requires StoredOnly(s)
    ensures Inv(FirstOfTwo(s)) && FirstOfTwo(s).db.clock == 0
    ensures FirstOfTwo(s).db.events == s.db.events + [EventRow(Delinquency("1", "b", 0)).(status := Processed)]
    ensures Insertable(s.db, Delinquency("1", "b", 0))
  {
    var r := Delinquency("1", "b", 0);
    KeyIsFree(s.db.events, "1");
    AcceptedEvents(s, r);
  }

  lemma FirstOfTwoRows(s: System)
    requires StoredOnly(s)
    ensures var s1 := FirstOfTwo(s);
      && s1.db.accounts == s.db.accounts && s1.db.customers == s.db.customers
      && InWindowOf(s1.db.tasks, "customer", 0) == 3
  {
    FirstOfTwoEvents(s);
    AcceptedRows(s, Delinquency("1", "b", 0));
    DelinquencyFillsWindow(s, "1", "b", 0);
  }

  lemma SecondOfTwo(s: System)
    requires StoredOnly(s)
    ensures var s1, r := FirstOfTwo(s), Delinquency("2", "b", 0);
      Insertable(s1.db, r) && InWindowOf(PassCounting(s1.db, r, 0).db.tasks, "customer", 0) == 6
  {
    var s1, r := FirstOfTwo(s), Delinquency("2", "b", 0);
    FirstOfTwoEvents(s);
    FirstOfTwoRows(s);
    KeyIsFree(s1.db.events, "2");
    AllProposed(s1.db, r);
    WindowAfterCounting(s1.db, r, 0, "customer", 0);
  }

  /** The upserts of the snapshot write nothing new. */
  predicate SnapshotStored(db: Store, r: Request) {
    && UpsertCustomer(db.customers, r.customer) == db.customers
    && UpsertAccount(db.accounts, r.account, r.customer.externalId) == Some(db.accounts)
  }

  /** Two delinquencies whose snapshots are stored: both counts are made before the first is
      inserted, and after the second there are six attempts in one window. */
  ghost predicate SixAttempts(s: System) {
    var r := Delinquency("2", "b", 0);
    && SnapshotStored(s.db, Delinquency("1", "b", 0)) && SnapshotStored(s.db, r)
    && RecentAttempts(s.db, "customer", 0) == 0
    && Insertable(FirstOfTwo(s).db, r)
    && InWindowOf(PassCounting(FirstOfTwo(s).db, r, 0).db.tasks, "customer", 0) == 6
  }

  lemma SnapshotIsStored(s: System, r: Request)
    requires StoredOnly(s) && r.customer == WILLING && r.account == AccountSnapshot("b", Delinquent)
    ensures SnapshotStored(s.db, r)
  {
    assert s.db.accounts["b" := Account("customer", Delinquent)] == s.db.accounts;
    assert UpsertCustomer(s.db.customers, r.customer) == s.db.customers;
  }

  lemma StoredMakesSix(s: System)
    requires StoredOnly(s)
    ensures SixAttempts(s)
  {
    SnapshotIsStored(s, Delinquency("1", "b", 0));
    SnapshotIsStored(s, Delinquency("2", "b", 0));
    SecondOfTwo(s);
  }

  /** The cap also rests on counting and inserting in one commit. */
  lemma EarlierCountDefeatsCap()
    ensures SixAttempts(Stored())
  {
    StoredRows();
    StoredMakesSix(Stored());
  }

  const OPT_OUT_FIRST: Request := Request("crm", "1", OptOutReceived, WILLING, AccountSnapshot("b", Delinquent), 0)

  /** And the silence after an opt-out rests on loading the customer in the same commit: a pass that
      loaded the flag before the opt-out, and inserts after it, queues three tasks. */
  lemma EarlierFlagDefeatsOptOut()
    ensures var s := Run(Stored(), Accept(Stored(), OPT_OUT_FIRST));
      && !HasOptedOut(Stored().db, "customer") && HasOptedOut(s.db, "customer") && s.db.tasks == []
      && |PassLoading(s.db, Delinquency("2", "b", 0), false).db.tasks| == 3
  {
    var s := Run(Stored(), Accept(Stored(), OPT_OUT_FIRST));
    StoredRows();
    KeyIsFree(Stored().db.events, "1");
    AcceptCommits(Stored(), OPT_OUT_FIRST);
    AcceptedRows(Stored(), OPT_OUT_FIRST);
    StateChangeShape(Stored().db, OPT_OUT_FIRST);
    OptOutOverIdle(Stored(), OPT_OUT_FIRST);
    LoadedUnset(s.db, Delinquency("2", "b", 0));
  }

  lemma LoadedUnset(db: Store, r: Request)
    requires r.kind.AccountDelinquent? && r.account.status.Delinquent? && db.tasks == []
    requires r.customer.smsConsent && r.customer.callConsent && r.customer.emailConsent
    ensures |PassLoading(db, r, false).db.tasks| == 3
  {
    var s := SubjectOf(db, r).(customer := SubjectOf(db, r).customer.(optedOut := false));
    var proposals := Proposals(r.kind, r.occurredAt, r.customer.timezone);
    PlanAllClosedForm(StartOfPass(db, r), s, proposals, FREQUENCY_CAP);
    PlanAllSizes(StartOfPass(db, r), s, proposals, FREQUENCY_CAP);
    CountAll(proposals, Unblocked(s));
  }

  lemma AllProposed(db: Store, r: Request)
    requires r.kind.AccountDelinquent? && r.account.status.Delinquent? && !HasOptedOut(db, r.customer.externalId)
    requires r.customer.smsConsent && r.customer.callConsent && r.customer.emailConsent
    ensures PassCounting(db, r, 0).created == 3
  {
    var proposals := Proposals(r.kind, r.occurredAt, r.customer.timezone);
    PlanAllClosedForm(StartOfPass(db, r).(recent := 0), SubjectOf(db, r), proposals, FREQUENCY_CAP);
    CountAll(proposals, Unblocked(SubjectOf(db, r)));
  }

  const PAYMENT: Request := Request("crm", "2", PaymentReceived, WILLING, AccountSnapshot("b", Current), 0)

  /** A worker claims a task at `now`, sends it and records the success, with no other claim made before. */
  function SentBy(s: System, id: nat, now: int): System {
    Next(Next(Next(s, ClaimTask(id, now, 0)), SendReturns(0)), RecordSuccess(0))
  }

  lemma SentByInv(s: System, id: nat, now: int)
    requires Inv(s)
    ensures Inv(SentBy(s, id, now))
  {
    var claimed := Next(s, ClaimTask(id, now, 0));
    StepKeeps(s, ClaimTask(id, now, 0));
    StepKeeps(claimed, SendReturns(0));
    StepKeeps(Next(claimed, SendReturns(0)), RecordSuccess(0));
  }

  lemma SentByState(s: System, id: nat, now: int)
    requires s.claims == [] && CanClaim(s.db, id, now)
    ensures var s' := SentBy(s, id, now);
      && s'.db.tasks == s.db.tasks[id := s.db.tasks[id].(
           status := Sent, attempts := s.db.tasks[id].attempts + 1, lastError := None)]
      && |s'.claims| == 1 && s'.claims[0].delivered && s'.submissions == s.submissions
      && s'.db.accounts == s.db.accounts && s'.db.events == s.db.events
  {
    var claim := NewClaim(s.db, id, now, 0);
    var claimed := Next(s, ClaimTask(id, now, 0));
    assert claimed.claims == [claim];
    var returned := Next(claimed, SendReturns(0));
    assert returned == claimed.(claims := [claim.(phase := Returned, delivered := true)]);
    assert Next(returned, RecordSuccess(0)).claims == [claim.(phase := Closed, delivered := true)];
  }

  lemma SubmittedState()
    ensures Next(AfterOne(), Submit(PAYMENT))
      == AfterOne().(submissions := AfterOne().submissions + [Submission(PAYMENT, true)])
    ensures Inv(Next(AfterOne(), Submit(PAYMENT)))
  {
    AfterOneState();
    OtherKeyFree(AfterOne(), "2");
    StepKeeps(AfterOne(), Submit(PAYMENT));
  }

  /** From any state with an open payment submission, a list that holds a sent task overwrites it. */
  lemma LateListOverwrites(s: System, i: nat, ids: seq<nat>, id: nat)
    requires Inv(s) && i < |s.submissions| && s.submissions[i].open
    requires var r := s.submissions[i].request;
      && Insertable(s.db, r) && r.kind.PaymentReceived? && ValidEarlier(s.db, r, Some(ids))
      && id in ids && id < |s.db.tasks| && s.db.tasks[id].status.Sent?
    ensures id < |Next(s, Insert(i, Some(ids))).db.tasks|
    ensures Next(s, Insert(i, Some(ids))).db.tasks[id].status.Cancelled?
  {
    assert Overwrites(s, Insert(i, Some(ids)), id);
    SentStep(s, Insert(i, Some(ids)), id);
  }

  /** What the cancellation query of a request answers now, and may be acted on later. */
  function QueryNow(s: System, r: Request): seq<nat> {
    ScheduledFor(s.db.tasks, r.customer.externalId, r.account.externalId)
  }

  lemma QueryStaysValid(s: System, s': System, r: Request)
    requires |s.db.tasks| <= |s'.db.tasks|
    requires forall i :: 0 <= i < |s.db.tasks| ==> SameIdentity(s.db.tasks[i], s'.db.tasks[i])
    ensures ValidEarlier(s'.db, r, Some(QueryNow(s, r)))
  {
    var ids := QueryNow(s, r);
    forall k | 0 <= k < |ids|
      ensures IsFor(s'.db.tasks[ids[k]], r)
    {
      assert SameIdentity(s.db.tasks[ids[k]], s'.db.tasks[ids[k]]);
    }
  }

  lemma SentWhileListed(s: System, i: nat, id: nat, now: int)
    requires Inv(s) && s.claims == [] && CanClaim(s.db, id, now)
    requires i < |s.submissions| && s.submissions[i].open
    requires var r := s.submissions[i].request;
      Insertable(s.db, r) && r.kind.PaymentReceived? && IsFor(s.db.tasks[id], r)
    ensures var sent := SentBy(s, id, now);
      var s' := Next(sent, Insert(i, Some(QueryNow(s, s.submissions[i].request))));
      && id < |sent.db.tasks| && sent.db.tasks[id].status.Sent? && |sent.claims| == 1 && sent.claims[0].delivered
      && id < |s'.db.tasks| && s'.db.tasks[id].status.Cancelled?
  {
    var r, sent := s.submissions[i].request, SentBy(s, id, now);
    SentByInv(s, id, now);
    SentByState(s, id, now);
    QueryStaysValid(s, sent, r);
    LateListOverwrites(sent, i, QueryNow(s, r), id);
  }

  /** Sent is not final: a planner cancellation whose query answered the task while it was queued
      writes CANCELLED over a row that a worker has meanwhile sent. */
  lemma LateCancelOverwritesSent()
    ensures |AfterOne().db.tasks| > 0
    ensures var s0 := Next(AfterOne(), Submit(PAYMENT));
      var s := SentBy(s0, 0, AfterOne().db.tasks[0].scheduledAt);
      var s' := Next(s, Insert(1, Some(QueryNow(s0, PAYMENT))));
      && |s.db.tasks| > 0 && s.db.tasks[0].status.Sent? && |s.claims| == 1 && s.claims[0].delivered
      && |s'.db.tasks| > 0 && s'.db.tasks[0].status.Cancelled?
  {
    AfterOneState();
    AfterOneRows();
    SubmittedState();
    OtherKeyFree(AfterOne(), "2");
    SentWhileListed(Next(AfterOne(), Submit(PAYMENT)), 1, 0, AfterOne().db.tasks[0].scheduledAt);
  }

  // A retry between the query of an opt-out and its commit.

  /** A worker's claim of the task fails, and it is queued again. */
  function Requeued(s: System): System {
    Next(Next(s, SendRaises(0, "")), RecordFailure(0))
  }

  lemma RequeuedState(s: System, id: nat)
    requires Inv(s) && IsCall(s, id, 0) && CanRecord(s.db, id)
    requires s.claims[0].attempts < s.claims[0].maxAttempts
    ensures var s' := Requeued(s);
      && Inv(s') && |s'.db.tasks| == |s.db.tasks| && s'.submissions == s.submissions
      && s'.db.accounts == s.db.accounts && s'.db.events == s.db.events
      && id < |s'.db.tasks| && s'.db.tasks[id].status.Scheduled?
      && forall j :: 0 <= j < |s.db.tasks| ==> SameIdentity(s.db.tasks[j], s'.db.tasks[j])
  {
    StepKeeps(s, SendRaises(0, ""));
    StepKeeps(Next(s, SendRaises(0, "")), RecordFailure(0));
  }

  /** The opt-out commits with what its query answered while the task was being sent. */
  lemma OptOutMissesRetryIn(s: System, i: nat, id: nat)
    requires Inv(s) && IsCall(s, id, 0) && CanRecord(s.db, id)
    requires s.claims[0].attempts < s.claims[0].maxAttempts
    requires i < |s.submissions| && s.submissions[i].open
    requires var r := s.submissions[i].request;
      Insertable(s.db, r) && r.kind.OptOutReceived? && IsFor(s.db.tasks[id], r)
    ensures var r := s.submissions[i].request;
      var s' := Next(Requeued(s), Insert(i, Some(QueryNow(s, r))));
      && HasOptedOut(s'.db, r.customer.externalId)
      && id < |s'.db.tasks| && IsFor(s'.db.tasks[id], r) && s'.db.tasks[id].status.Scheduled? && EverAccepted(s', id)
  {
    var r, again, ids := s.submissions[i].request, Requeued(s), QueryNow(s, s.submissions[i].request);
    RequeuedState(s, id);
    QueryStaysValid(s, again, r);
    assert SameIdentity(s.db.tasks[id], again.db.tasks[id]);
    OptOutSparesUnlisted(again, i, ids, id);
  }

  lemma OptOutSparesUnlisted(s: System, i: nat, ids: seq<nat>, id: nat)
    requires Inv(s) && i < |s.submissions| && s.submissions[i].open
    requires var r := s.submissions[i].request;
      && Insertable(s.db, r) && r.kind.OptOutReceived? && ValidEarlier(s.db, r, Some(ids))
      && id < |s.db.tasks| && IsFor(s.db.tasks[id], r) && s.db.tasks[id].status.Scheduled? && id !in ids
    ensures var r := s.submissions[i].request;
      var s' := Next(s, Insert(i, Some(ids)));
      && HasOptedOut(s'.db, r.customer.externalId)
      && id < |s'.db.tasks| && s'.db.tasks[id] == s.db.tasks[id] && EverAccepted(s', id)
  {
    OptOutEmptiesQueue(s, i, Some(ids), id);
    InsertFate(s, i, Some(ids), id);
    StepKeeps(s, Insert(i, Some(ids)));
    AcceptedIffIn(Next(s, Insert(i, Some(ids))), id);
  }

  /** The opt-out submitted, and the first task of its account being sent. */
  function CalledBeforeOptOut(): System
    requires |AfterOne().db.tasks| > 0
  {
    Next(Next(AfterOne(), Submit(OPT_OUT_HERE)), ClaimTask(0, AfterOne().db.tasks[0].scheduledAt, 0))
  }

  lemma CalledBeforeOptOutState()
    ensures |AfterOne().db.tasks| > 0
    ensures var s := CalledBeforeOptOut();
      && Inv(s) && IsCall(s, 0, 0) && CanRecord(s.db, 0) && s.claims[0].attempts < s.claims[0].maxAttempts
      && |s.submissions| == 2 && s.submissions[1] == Submission(OPT_OUT_HERE, true)
      && Insertable(s.db, OPT_OUT_HERE) && IsFor(s.db.tasks[0], OPT_OUT_HERE)
  {
    AfterOneState();
    AfterOneRows();
    OtherKeyFree(AfterOne(), "2");
    SubmitThenClaim(AfterOne(), OPT_OUT_HERE, 0);
    OptOutHereInserts(CalledBeforeOptOut());
  }

  lemma SubmitThenClaim(s: System, r: Request, id: nat)
    requires Inv(s) && s.claims == [] && id < |s.db.tasks| && s.db.tasks[id].status.Scheduled?
    requires FindEvent(s.db.events, r.source, r.externalId).None?
    ensures var s' := Next(Next(s, Submit(r)), ClaimTask(id, s.db.tasks[id].scheduledAt, 0));
      && Inv(s') && IsCall(s', id, 0) && CanRecord(s'.db, id) && s'.claims[0].attempts < s'.claims[0].maxAttempts
      && s'.submissions == s.submissions + [Submission(r, true)]
      && s'.db.accounts == s.db.accounts && s'.db.events == s.db.events
      && SameIdentity(s.db.tasks[id], s'.db.tasks[id])
  {
    StepKeeps(s, Submit(r));
    FirstClaim(Next(s, Submit(r)), id, s.db.tasks[id].scheduledAt);
    StepKeeps(Next(s, Submit(r)), ClaimTask(id, s.db.tasks[id].scheduledAt, 0));
    assert RowSane(s.db.tasks[id], s.db.clock);
  }

  /** An opt-out leaves a task of its own account queued when a retry of it is recorded between the
      cancellation query and the commit. */
  lemma OptOutMissesRetry()
    ensures |AfterOne().db.tasks| > 0
    ensures var s := CalledBeforeOptOut();
      var s' := Next(Requeued(s), Insert(1, Some(QueryNow(s, OPT_OUT_HERE))));
      && HasOptedOut(s'.db, "customer")
      && |s'.db.tasks| > 0 && s'.db.tasks[0].status.Scheduled? && IsFor(s'.db.tasks[0], OPT_OUT_HERE)
      && EverAccepted(s', 0)
  {
    CalledBeforeOptOutState();
    OptOutMissesRetryIn(CalledBeforeOptOut(), 1, 0);
  }

  /** The key text of an identity is not unique once a source may contain the separator. */
  lemma KeysCollide()
    ensures Key("a" + [SEPARATOR] + "b", "c") == Key("a", "b" + [SEPARATOR] + "c")
  {
  }
}
