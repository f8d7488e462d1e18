/** The rows of the database and their enumerations (src/orchestrator/models.py). */
module Models {

  datatype Option<+T> = None | Some(value: T)

  datatype Channel = Call | Sms | Email

  datatype TaskStatus = Scheduled | Blocked | Dispatching | Sent | Failed | Cancelled

  datatype AccountStatus = Current | Delinquent | Resolved | Paused

  datatype EventStatus = Received | Processed

  datatype Outcome = Allow | Block | Defer

  datatype EventType =
    | AccountDelinquent
    | PaymentFailed
    | PaymentReceived
    | OptOutReceived
    | HardshipRequested
    | AccountPaused

  datatype Reason =
    | CustomerOptedOut
    | MissingConsent(channel: Channel)
    | AccountIsPaused
    | AccountIsResolved
    | QuietHours
    | FrequencyCapExceeded
    | PolicyAllowed

  const MAX_ATTEMPTS: nat := 3
  const FREQUENCY_CAP: nat := 3

  /** Times are integer microseconds; instants are UTC, counted from 0001-01-01 00:00. */
  const MINUTE: int := 60_000_000
  const HOUR: int := 60 * MINUTE
  const DAY: int := 24 * HOUR

  /** `timezone` is the zone's UTC offset, so that local wall time is `instant + timezone`. */
  datatype Customer = Customer(
    timezone: int, smsConsent: bool, callConsent: bool, emailConsent: bool, optedOut: bool)

  datatype Account = Account(customer: string, status: AccountStatus)

  /** `timezone` is the customer's zone in the snapshot the payload keeps. */
  datatype Event = Event(
    source: string, externalId: string, kind: EventType,
    customer: string, account: string, timezone: int, key: string, status: EventStatus)

  datatype Decision = Decision(
    event: nat, account: string, customer: string,
    channel: Channel, outcome: Outcome, reasons: seq<Reason>)

  /** `event` and `channel` together are the task's unique idempotency key. */
  datatype Task = Task(
    event: nat, decision: nat, account: string, customer: string, channel: Channel,
    status: TaskStatus, scheduledAt: int, attempts: nat, maxAttempts: nat,
    lastError: Option<string>, createdAt: int)

  /** One row of the append-only audit log; the payload keys that carry facts are fields.
      `OutreachCancelled.cause` is the payload's inbound_event_id, which only the planner writes. */
  datatype AuditRow =
    | EventReceived(event: nat)
    | EventAccepted(event: nat)
    | PolicyDecisionRecorded(event: nat, decision: nat, outcome: Outcome, channel: Channel, reasons: seq<Reason>)
    | OutreachBlocked(event: nat, account: string, channel: Channel, reasons: seq<Reason>)
    | OutreachDeferred(event: nat, account: string, channel: Channel, reasons: seq<Reason>, deferUntil: Option<int>)
    | OutreachTaskScheduled(event: nat, account: string, channel: Channel, at: int)
    | CustomerOptOut(event: nat, customer: string)
    | HardshipEscalation(event: nat, account: string)
    | AccountPause(event: nat, account: string)
    | ProcessedMarker(event: nat, kind: EventType)
    | OutreachCancelled(task: nat, cause: Option<nat>)
    | DispatchStarted(task: nat, attempt: nat)
    | DispatchSucceeded(task: nat)
    | DispatchFailed(task: nat, error: string, retryAt: Option<int>, final: TaskStatus)
    | DeliveryResultRecorded(task: nat, detailsError: Option<string>, previous: TaskStatus, status: TaskStatus)

  /** The committed contents of the database. Generated ids are row numbers: rows are never
      deleted, so appending a row is the same as giving it a fresh id. `clock` is the time
      the database stamps on the rows it inserts. */
  datatype Store = Store(
    clock: int,
    customers: map<string, Customer>,
    accounts: map<string, Account>,
    events: seq<Event>,
    decisions: seq<Decision>,
    tasks: seq<Task>,
    audit: seq<AuditRow>)

  predicate IsPolicyEvent(kind: EventType) {
    kind.AccountDelinquent? || kind.PaymentFailed?
  }

  /** The statuses that count as contact attempts for the frequency cap. */
  predicate CountsAsAttempt(status: TaskStatus) {
    status.Scheduled? || status.Dispatching? || status.Sent? || status.Failed?
  }
}
