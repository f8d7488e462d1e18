/** The row updates of the dispatch worker (src/orchestrator/workers/dispatch.py) and of the
    operational API (src/orchestrator/domain/operational_outreach.py). Each is a conditional
    UPDATE: it names the status it expects, and does nothing to a row that has another. */
module RowUpdates {
  import opened Models

  /** A store with one task row replaced and one audit row appended, in one commit. */
  function WriteRow(db: Store, id: nat, row: Task, entry: AuditRow): Store
    requires id < |db.tasks|
  {
    db.(tasks := db.tasks[id := row], audit := db.audit + [entry])
  }

  predicate IsDue(t: Task, now: int) {
    t.status.Scheduled? && t.scheduledAt <= now
  }

  predicate CanClaim(db: Store, id: nat, now: int) {
    id < |db.tasks| && IsDue(db.tasks[id], now)
  }

  function ClaimedRow(t: Task): Task {
    t.(status := Dispatching, attempts := t.attempts + 1)
  }

  function ClaimRow(db: Store, id: nat): Store
    requires id < |db.tasks|
  {
    WriteRow(db, id, ClaimedRow(db.tasks[id]), DispatchStarted(id, db.tasks[id].attempts + 1))
  }

  /** Does the WHERE status = DISPATCHING of a record step still match? */
  predicate CanRecord(db: Store, id: nat) {
    id < |db.tasks| && db.tasks[id].status.Dispatching?
  }

  function RecordSuccessRow(db: Store, id: nat): Store
    requires id < |db.tasks|
  {
    WriteRow(db, id, db.tasks[id].(status := Sent, lastError := None), DispatchSucceeded(id))
  }

  /** `attempts`, `maxAttempts` and `scheduledAt` are the worker's in-memory copy of the row. */
  function RetryTime(attempts: nat, maxAttempts: nat, retryAt: int): Option<int> {
    if attempts < maxAttempts then Some(retryAt) else None
  }

  function RecordFailureRow(
    db: Store, id: nat, attempts: nat, maxAttempts: nat, scheduledAt: int, error: string, retryAt: int): Store
    requires id < |db.tasks|
  {
    var retry := RetryTime(attempts, maxAttempts, retryAt);
    var final := if retry.Some? then Scheduled else TaskStatus.Failed;
    WriteRow(db, id,
      db.tasks[id].(status := final,
                    scheduledAt := if retry.Some? then retry.value else scheduledAt,
                    lastError := Some(error)),
      DispatchFailed(id, error, retry, final))
  }

  const MANUAL_FAILURE: string := "manual delivery result failed"

  predicate AllowsManualResult(status: TaskStatus) {
    status.Scheduled? || status.Dispatching? || status.Failed?
  }

  /** `delivered` is the requested status; `detailsError` the string under details["error"], if any. */
  function ManualStatus(delivered: bool): TaskStatus {
    if delivered then Sent else TaskStatus.Failed
  }

  function ManualError(delivered: bool, detailsError: Option<string>): Option<string> {
    if delivered then None
    else if detailsError.Some? then detailsError
    else Some(MANUAL_FAILURE)
  }

  predicate CanRecordManually(db: Store, id: nat, previous: TaskStatus) {
    && AllowsManualResult(previous)
    && id < |db.tasks|
    && db.tasks[id].status == previous
  }

  function ManualRow(db: Store, id: nat, previous: TaskStatus, delivered: bool, detailsError: Option<string>): Store
    requires id < |db.tasks|
  {
    WriteRow(db, id,
      db.tasks[id].(status := ManualStatus(delivered), lastError := ManualError(delivered, detailsError)),
      DeliveryResultRecorded(id, detailsError, previous, ManualStatus(delivered)))
  }

  predicate CanCancel(db: Store, id: nat) {
    id < |db.tasks| && db.tasks[id].status.Scheduled?
  }

  function OperatorCancelRow(db: Store, id: nat): Store
    requires id < |db.tasks|
  {
    WriteRow(db, id, db.tasks[id].(status := Cancelled), OutreachCancelled(id, None))
  }

  /** The loop of cancel_scheduled_account_outreach over a list selected earlier. */
  function OperatorCancelAll(db: Store, ids: seq<nat>): (db': Store)
    ensures |db'.tasks| == |db.tasks|
    decreases |ids|
  {
    if |ids| == 0 then db
    else OperatorCancelAll(if CanCancel(db, ids[0]) then OperatorCancelRow(db, ids[0]) else db, ids[1..])
  }
}
