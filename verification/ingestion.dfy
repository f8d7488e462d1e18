/** Idempotent ingestion of one event (src/orchestrator/domain/event_ingestion.py). */
module Ingestion {
  import opened Counting
  import opened Models
  import opened InboundEvents
  import opened Planner

  datatype CustomerSnapshot = CustomerSnapshot(
    externalId: string, timezone: int, smsConsent: bool, callConsent: bool, emailConsent: bool)

  datatype AccountSnapshot = AccountSnapshot(externalId: string, status: AccountStatus)

  datatype Request = Request(
    source: string, externalId: string, kind: EventType,
    customer: CustomerSnapshot, account: AccountSnapshot, occurredAt: int)

  datatype IngestionResult = IngestionResult(
    event: nat, created: nat, blocked: nat, deferred: nat, cancelled: nat, decisions: nat)

  /** How a submission ends: a new event is committed, an existing one is answered for, the
      snapshot is refused (HTTP 422), or an error other than that propagates. In the last
      three cases nothing is committed. */
  datatype Verdict =
    | Accepted(db: Store, result: IngestionResult)
    | Duplicate(result: IngestionResult)
    | Refused
    | Raised

  function FindEvent(events: seq<Event>, source: string, externalId: string): (e: Option<nat>)
    ensures e.Some? ==>
      e.value < |events| && events[e.value].source == source && events[e.value].externalId == externalId
    ensures e.None? ==>
      forall i :: 0 <= i < |events| ==> !(events[i].source == source && events[i].externalId == externalId)
  {
    if |events| == 0 then None
    else
      var last := |events| - 1;
      if events[last].source == source && events[last].externalId == externalId then Some(last)
      else FindEvent(events[..last], source, externalId)
  }

  predicate KeyTaken(events: seq<Event>, key: string) {
    exists i :: 0 <= i < |events| && events[i].key == key
  }

  function UpsertCustomer(customers: map<string, Customer>, s: CustomerSnapshot): map<string, Customer> {
    customers[s.externalId := Customer(
      s.timezone, s.smsConsent, s.callConsent, s.emailConsent,
      s.externalId in customers && customers[s.externalId].optedOut)]
  }

  /** None when the account already belongs to another customer. */
  function UpsertAccount(accounts: map<string, Account>, s: AccountSnapshot, customer: string)
    : Option<map<string, Account>>
  {
    if s.externalId in accounts && accounts[s.externalId].customer != customer then None
    else Some(accounts[s.externalId := Account(customer, s.status)])
  }

  function OutcomeOf(event: nat, outcome: Outcome): Decision -> bool {
    (d: Decision) => d.event == event && d.outcome == outcome
  }

  /** The join of a task with its decision, filtered on the decision's event. */
  function JoinsEvent(decisions: seq<Decision>, event: nat): Task -> bool {
    (t: Task) => t.decision < |decisions| && decisions[t.decision].event == event
  }

  function CancelledBy(event: nat): AuditRow -> bool {
    (r: AuditRow) => r.OutreachCancelled? && r.cause == Some(event)
  }

  /** _result_from_existing_event: the reply rebuilt from durable rows only. */
  function Reconstruct(db: Store, event: nat): IngestionResult {
    IngestionResult(
      event,
      Count(db.tasks, JoinsEvent(db.decisions, event)),
      Count(db.decisions, OutcomeOf(event, Block)),
      Count(db.decisions, OutcomeOf(event, Defer)),
      Count(db.audit, CancelledBy(event)),
      Count(db.decisions, DecidedFor(event)))
  }

  function ResultFromPlanner(event: nat, r: PlannerResult): IngestionResult {
    IngestionResult(event, r.created, r.blocked, r.deferred, r.cancelled, r.decisions)
  }

  function EventRow(r: Request): Event {
    Event(r.source, r.externalId, r.kind, r.customer.externalId, r.account.externalId,
          r.customer.timezone, Key(r.source, r.externalId), Received)
  }

  /** The store after the event row and its two receipt rows are flushed. */
  function Recorded(db: Store, r: Request, accounts: map<string, Account>): Store {
    db.(customers := UpsertCustomer(db.customers, r.customer),
        accounts := accounts,
        events := db.events + [EventRow(r)],
        audit := db.audit + [EventReceived(|db.events|), EventAccepted(|db.events|)])
  }

  function MarkProcessed(db: Store, event: nat): Store
    requires event < |db.events|
  {
    db.(events := db.events[event := db.events[event].(status := Processed)])
  }

  /** Everything ingest_event_snapshot does after its first lookup found no event. The unique
      constraints are only checked here, when the event row is flushed. */
  function InsertEvent(db: Store, r: Request, earlier: Option<seq<nat>>): Verdict
    requires InRange(db, earlier)
  {
    match UpsertAccount(db.accounts, r.account, r.customer.externalId)
    case None => Refused
    case Some(accounts) =>
      if KeyTaken(db.events, Key(r.source, r.externalId)) then
        match FindEvent(db.events, r.source, r.externalId)
        case Some(e) => Duplicate(Reconstruct(db, e))
        case None => Raised
      else
        var e := |db.events|;
        match PlanEvent(Recorded(db, r, accounts), e, r.occurredAt, FREQUENCY_CAP, earlier)
        case PlanError => Raised
        case Planned(db', result) =>
          if e < |db'.events| then Accepted(MarkProcessed(db', e), ResultFromPlanner(e, result)) else Raised
  }
}
