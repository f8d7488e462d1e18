/** The operational API (src/orchestrator/domain/operational_outreach.py): conditional updates
    made from an earlier read, with any steps of other processes in between. */
module OperationalOutreach {
  import opened Counting
  import opened Models
  import opened Planner
  import opened RowUpdates
  import opened Service
  import opened RunInvariant
  import opened FinalStatus
  import opened RunningService

  /** record_manual_delivery_result: false is TaskStateConflictError. The result is recorded exactly
      when the status read first is scheduled, dispatching or failed and the row still has it when it
      is updated; nothing else changes. */
  method RecordManualDeliveryResult(w: World, id: nat, sent: bool, detailsError: Option<string>, between: seq<Step>)
    returns (recorded: bool)
    requires id < |w.tasks|
    modifies w
    ensures var previous := old(w.tasks[id].status);
      var allowed := previous == Scheduled || previous == Dispatching || previous == TaskStatus.Failed;
      var s := Run(old(w.View()), between);
      && (recorded <==> allowed && id < |s.db.tasks| && s.db.tasks[id].status == previous)
      && (recorded ==> w.View() == Next(s, ManualResult(id, previous, sent, detailsError)))
      && (!recorded ==> w.View() == if allowed then s else old(w.View()))
    ensures recorded ==>
      var previous, s := old(w.tasks[id].status), Run(old(w.View()), between);
      var status := if sent then Sent else TaskStatus.Failed;
      var error := if sent then None
                   else if detailsError.Some? then detailsError
                   else Some("manual delivery result failed");
      && w.tasks == s.db.tasks[id := s.db.tasks[id].(status := status, lastError := error)]
      && w.audit == s.db.audit + [DeliveryResultRecorded(id, detailsError, previous, status)]
      && w.customers == s.db.customers && w.accounts == s.db.accounts
      && w.events == s.db.events && w.decisions == s.db.decisions
      && w.claims == s.claims && w.submissions == s.submissions && w.replies == s.replies
  {
    var previous := w.tasks[id].status;
    if !AllowsManualResult(previous) {
      return false;
    }
    var newStatus := if sent then Sent else TaskStatus.Failed;
    var lastError := if sent then None else if detailsError.Some? then detailsError else Some(MANUAL_FAILURE);
    w.Others(between);
    if id >= |w.tasks| || w.tasks[id].status != previous {
      return false;
    }
    w.tasks := w.tasks[id := w.tasks[id].(status := newStatus, lastError := lastError)];
    w.audit := w.audit + [DeliveryResultRecorded(id, detailsError, previous, newStatus)];
    return true;
  }

  /** The operator's query: the scheduled tasks of one account. */
  function QueuedOn(tasks: seq<Task>, account: string): (ids: seq<nat>)
    ensures AllBelow(ids, |tasks|)
    ensures forall k :: 0 <= k < |ids| ==> tasks[ids[k]].account == account && tasks[ids[k]].status.Scheduled?
    ensures forall i :: 0 <= i < |tasks| && tasks[i].account == account && tasks[i].status.Scheduled? ==> i in ids
    ensures Distinct(ids)
  {
    if |tasks| == 0 then []
    else
      var last := |tasks| - 1;
      var rest := QueuedOn(tasks[..last], account);
      if tasks[last].account == account && tasks[last].status.Scheduled? then rest + [last] else rest
  }

  predicate Distinct(ids: seq<nat>) {
    forall j, k :: 0 <= j < k < |ids| ==> ids[j] != ids[k]
  }

  function StillQueued(tasks: seq<Task>): nat -> bool {
    (id: nat) => id < |tasks| && tasks[id].status.Scheduled?
  }

  /** How many rows the loop finds still scheduled when it comes to them. */
  function CancelCount(db: Store, ids: seq<nat>): nat
    decreases |ids|
  {
    if |ids| == 0 then 0
    else if CanCancel(db, ids[0]) then 1 + CancelCount(OperatorCancelRow(db, ids[0]), ids[1..])
    else CancelCount(db, ids[1..])
  }

  /** Over distinct ids that is the number still scheduled when the loop starts, and there is one
      audit row for each. */
  lemma {:induction false} CancelCountIsQueued(db: Store, ids: seq<nat>)
    requires Distinct(ids)
    ensures CancelCount(db, ids) == Count<nat>(ids, StillQueued(db.tasks))
    ensures |OperatorCancelAll(db, ids).audit| == |db.audit| + CancelCount(db, ids)
    decreases |ids|
  {
    if |ids| > 0 {
      var one := if CanCancel(db, ids[0]) then OperatorCancelRow(db, ids[0]) else db;
      CancelCountIsQueued(one, ids[1..]);
      CountHead<nat>(ids, StillQueued(db.tasks));
      CountAgree<nat, nat>(ids[1..], StillQueued(db.tasks), ids[1..], StillQueued(one.tasks));
    }
  }

  /** The steps of the loop from position i on: before each update others take the steps `turns`
      gives for it. */
  function CancelSteps(ids: seq<nat>, turns: nat -> seq<Step>, i: nat): seq<Step>
    requires i <= |ids|
    decreases |ids| - i
  {
    if i == |ids| then [] else turns(i) + [OperatorCancel([ids[i]])] + CancelSteps(ids, turns, i + 1)
  }

  /** The listed tasks whose update goes through: those still scheduled when the loop comes to them. */
  function CancelledIds(s: System, ids: seq<nat>, turns: nat -> seq<Step>, i: nat): seq<nat>
    requires i <= |ids|
    decreases |ids| - i
  {
    if i == |ids| then []
    else
      var found := Run(s, turns(i));
      (if CanCancel(found.db, ids[i]) then [ids[i]] else [])
      + CancelledIds(Next(found, OperatorCancel([ids[i]])), ids, turns, i + 1)
  }

  lemma CancelStepsFirst(s: System, ids: seq<nat>, turns: nat -> seq<Step>, i: nat)
    requires i < |ids|
    ensures Run(s, CancelSteps(ids, turns, i))
         == Run(Next(Run(s, turns(i)), OperatorCancel([ids[i]])), CancelSteps(ids, turns, i + 1))
  {
    RunConcat(s, turns(i) + [OperatorCancel([ids[i]])], CancelSteps(ids, turns, i + 1));
    RunSnoc(s, turns(i), OperatorCancel([ids[i]]));
  }

  lemma CancelOneId(db: Store, id: nat)
    ensures OperatorCancelAll(db, [id]) == if CanCancel(db, id) then OperatorCancelRow(db, id) else db
  {
    assert [id][1..] == [];
    var one := if CanCancel(db, id) then OperatorCancelRow(db, id) else db;
    assert OperatorCancelAll(one, []) == one;
  }

  /** Whatever others do meanwhile, every task the loop reports as cancelled is cancelled at the end. */
  lemma {:induction false} ReportedStaysCancelled(s: System, ids: seq<nat>, turns: nat -> seq<Step>, i: nat, id: nat)
    requires Inv(s) && i <= |ids| && id in CancelledIds(s, ids, turns, i)
    ensures var db := Run(s, CancelSteps(ids, turns, i)).db;
      id < |db.tasks| && db.tasks[id].status.Cancelled?
    decreases |ids| - i
  {
    if i < |ids| {
      var found := Run(s, turns(i));
      var s' := Next(found, OperatorCancel([ids[i]]));
      CancelStepsFirst(s, ids, turns, i);
      RunKeeps(s, turns(i));
      StepKeeps(found, OperatorCancel([ids[i]]));
      CancelOneId(found.db, ids[i]);
      if id in CancelledIds(s', ids, turns, i + 1) {
        ReportedStaysCancelled(s', ids, turns, i + 1, id);
      } else {
        CancelledRun(s', CancelSteps(ids, turns, i + 1), id);
      }
    }
  }

  /** Nobody else works before any update. */
  ghost predicate LeftAlone(turns: nat -> seq<Step>) {
    forall j :: turns(j) == []
  }

  /** With nobody at work meanwhile, the loop is one batch cancellation of its list. */
  lemma {:induction false} UndisturbedCancel(s: System, ids: seq<nat>, turns: nat -> seq<Step>, i: nat)
    requires i <= |ids| && LeftAlone(turns)
    ensures Run(s, CancelSteps(ids, turns, i)) == Next(s, OperatorCancel(ids[i..]))
    ensures |CancelledIds(s, ids, turns, i)| == CancelCount(s.db, ids[i..])
    decreases |ids| - i
  {
    if i < |ids| {
      var s' := Next(s, OperatorCancel([ids[i]]));
      CancelStepsFirst(s, ids, turns, i);
      CancelOneId(s.db, ids[i]);
      UndisturbedCancel(s', ids, turns, i + 1);
      assert ids[i..][1..] == ids[i + 1..];
    }
  }

  /** One conditional cancellation; the result says whether a row was updated. */
  method CancelIfScheduled(w: World, id: nat) returns (done: bool)
    modifies w
    ensures done == CanCancel(old(w.Db()), id)
    ensures w.View() == Next(old(w.View()), OperatorCancel([id]))
  {
    CancelOneId(w.Db(), id);
    if id >= |w.tasks| || !w.tasks[id].status.Scheduled? {
      return false;
    }
    w.tasks := w.tasks[id := w.tasks[id].(status := Cancelled)];
    w.audit := w.audit + [OutreachCancelled(id, None)];
    return true;
  }

  /** cancel_scheduled_account_outreach: the tasks selected first are cancelled one conditional
      update at a time, while others work; the count is the number of updates that went through.
      Left alone, that is all of the account's queue, with one audit row each. */
  method CancelScheduledAccountOutreach(w: World, account: string, turns: nat -> seq<Step>)
    returns (cancelled: nat)
    modifies w
    ensures var ids := QueuedOn(old(w.tasks), account);
      && w.View() == Run(old(w.View()), CancelSteps(ids, turns, 0))
      && cancelled == |CancelledIds(old(w.View()), ids, turns, 0)|
      && (LeftAlone(turns) ==>
            w.View() == Next(old(w.View()), OperatorCancel(ids))
            && cancelled == |ids| && |w.audit| == |old(w.audit)| + cancelled)
  {
    ghost var start := w.View();
    var ids := QueuedOn(w.tasks, account);
    cancelled := 0;
    var i := 0;
    while i < |ids|
      invariant 0 <= i <= |ids|
      invariant Run(w.View(), CancelSteps(ids, turns, i)) == Run(start, CancelSteps(ids, turns, 0))
      invariant cancelled + |CancelledIds(w.View(), ids, turns, i)| == |CancelledIds(start, ids, turns, 0)|
    {
      CancelStepsFirst(w.View(), ids, turns, i);
      w.Others(turns(i));
      var done := CancelIfScheduled(w, ids[i]);
      if done {
        cancelled := cancelled + 1;
      }
      i := i + 1;
    }
    WholeQueue(start, ids, turns);
  }

  lemma WholeQueue(s: System, ids: seq<nat>, turns: nat -> seq<Step>)
    requires Distinct(ids)
    requires forall k :: 0 <= k < |ids| ==> StillQueued(s.db.tasks)(ids[k])
    ensures LeftAlone(turns) ==>
      && Run(s, CancelSteps(ids, turns, 0)) == Next(s, OperatorCancel(ids))
      && |CancelledIds(s, ids, turns, 0)| == |ids|
      && |Next(s, OperatorCancel(ids)).db.audit| == |s.db.audit| + |ids|
  {
    if LeftAlone(turns) {
      UndisturbedCancel(s, ids, turns, 0);
      assert ids[0..] == ids;
      CancelCountIsQueued(s.db, ids);
      CountAll<nat>(ids, StillQueued(s.db.tasks));
    }
  }
}
