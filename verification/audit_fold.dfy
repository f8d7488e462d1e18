/** Reading a task's row back from the audit log alone. */
module AuditFold {
  import opened Models
  import opened RowUpdates

  /** The mutable columns of a task row. */
  datatype RowState = RowState(status: TaskStatus, attempts: nat, scheduledAt: int, lastError: Option<string>)

  function StateOf(t: Task): RowState {
    RowState(t.status, t.attempts, t.scheduledAt, t.lastError)
  }

  /** What a log says about one task: nothing yet, a row, or a history that cannot have happened. */
  datatype History = Absent | Known(row: RowState) | Corrupt

  /** Does this audit row have a task as its entity? */
  predicate IsTaskRow(r: AuditRow) {
    r.OutreachCancelled? || r.DispatchStarted? || r.DispatchSucceeded? || r.DispatchFailed? || r.DeliveryResultRecorded?
  }

  /** One audit row read after the history so far. A row is only accepted where it makes sense:
      a claim of a scheduled task with the next attempt number, a provider result of a dispatching
      task, a manual result that names the status it replaced, an operator's cancellation of a
      scheduled task. */
  function Interpret(before: History, r: AuditRow, id: nat, event: nat, channel: Channel): History {
    if r.OutreachTaskScheduled? && r.event == event && r.channel == channel then
      if before.Absent? then Known(RowState(Scheduled, 0, r.at, None)) else Corrupt
    else if !IsTaskRow(r) || r.task != id then before
    else if !before.Known? then Corrupt
    else
      var row := before.row;
      match r
      case DispatchStarted(_, attempt) =>
        if row.status.Scheduled? && attempt == row.attempts + 1
        then Known(row.(status := Dispatching, attempts := attempt)) else Corrupt
      case DispatchSucceeded(_) =>
        if row.status.Dispatching? then Known(row.(status := Sent, lastError := None)) else Corrupt
      case DispatchFailed(_, error, retryAt, final) =>
        if row.status.Dispatching? && (retryAt.Some? <==> final.Scheduled?)
            && (retryAt.None? <==> final == TaskStatus.Failed)
        then Known(row.(status := final, lastError := Some(error),
                        scheduledAt := if retryAt.Some? then retryAt.value else row.scheduledAt)) else Corrupt
      case DeliveryResultRecorded(_, error, previous, status) =>
        if row.status == previous && (status == Sent || status == TaskStatus.Failed)
            && (previous == Scheduled || previous == Dispatching || previous == TaskStatus.Failed)
        then Known(row.(
          status := status,
          lastError := if status == Sent then None
                       else if error.Some? then error
                       else Some("manual delivery result failed"))) else Corrupt
      case OutreachCancelled(_, cause) =>
        if cause.Some? || row.status.Scheduled? then Known(row.(status := Cancelled)) else Corrupt
      case _ => before
  }

  /** The log read in commit order, for the task with this id and idempotency key. */
  function Fold(audit: seq<AuditRow>, id: nat, event: nat, channel: Channel): History {
    if |audit| == 0 then Absent
    else Interpret(Fold(audit[..|audit| - 1], id, event, channel), audit[|audit| - 1], id, event, channel)
  }

  predicate Concerns(r: AuditRow, id: nat, event: nat, channel: Channel) {
    || (r.OutreachTaskScheduled? && r.event == event && r.channel == channel)
    || (IsTaskRow(r) && r.task == id)
  }

  lemma FoldSnoc(audit: seq<AuditRow>, r: AuditRow, id: nat, event: nat, channel: Channel)
    ensures Fold(audit + [r], id, event, channel) == Interpret(Fold(audit, id, event, channel), r, id, event, channel)
  {
    assert (audit + [r])[..|audit|] == audit;
  }

  lemma {:induction false} FoldSkips(audit: seq<AuditRow>, audit': seq<AuditRow>, id: nat, event: nat, channel: Channel)
    requires audit <= audit'
    requires forall i :: |audit| <= i < |audit'| ==> !Concerns(audit'[i], id, event, channel)
    ensures Fold(audit', id, event, channel) == Fold(audit, id, event, channel)
    decreases |audit'|
  {
    if |audit| == |audit'| {
      assert audit == audit';
    } else {
      FoldSkips(audit, audit'[..|audit'| - 1], id, event, channel);
    }
  }

  lemma FoldAbsent(audit: seq<AuditRow>, id: nat, event: nat, channel: Channel)
    requires forall i :: 0 <= i < |audit| ==> !Concerns(audit[i], id, event, channel)
    ensures Fold(audit, id, event, channel) == Absent
  {
    FoldSkips([], audit, id, event, channel);
  }
}
