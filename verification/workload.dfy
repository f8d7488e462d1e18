/** Worker effort: a rank on task rows that every effective worker step lowers. */
module Workload {
  import opened Counting
  import opened Models
  import opened Planner
  import opened Ingestion
  import opened RowUpdates
  import opened Service
  import opened Evolution
  import opened StoreInvariant
  import opened Insertion
  import opened Delivery
  import opened RunInvariant
  import opened Guarantees

  /** How many more effective worker steps a row can go through. */
  function Rank(t: Task): nat {
    var left := if t.attempts <= t.maxAttempts then t.maxAttempts - t.attempts else 0;
    match t.status
    case Scheduled => 2 * left
    case Dispatching => 2 * left + 1
    case _ => 0
  }

  function TotalRank(tasks: seq<Task>): nat {
    if |tasks| == 0 then 0 else TotalRank(tasks[..|tasks| - 1]) + Rank(tasks[|tasks| - 1])
  }

  lemma {:induction false} TotalRankUpdate(tasks: seq<Task>, id: nat, t: Task)
    requires id < |tasks|
    ensures TotalRank(tasks[id := t]) == TotalRank(tasks) - Rank(tasks[id]) + Rank(t)
  {
    var m := |tasks| - 1;
    if id == m {
      assert tasks[id := t][..m] == tasks[..m];
    } else {
      assert tasks[id := t][..m] == tasks[..m][id := t];
      TotalRankUpdate(tasks[..m], id, t);
    }
  }

  /** Rows that only settle, followed by new rows of rank at most six. */
  lemma {:induction false} TotalRankGrowth(tasks: seq<Task>, tasks': seq<Task>)
    requires |tasks| <= |tasks'|
    requires forall i :: 0 <= i < |tasks| ==> Rank(tasks'[i]) <= Rank(tasks[i])
    requires forall i :: |tasks| <= i < |tasks'| ==> Rank(tasks'[i]) <= 6
    ensures TotalRank(tasks') <= TotalRank(tasks) + 6 * (|tasks'| - |tasks|)
    decreases |tasks'|
  {
    if |tasks'| > |tasks| {
      TotalRankGrowth(tasks, tasks'[..|tasks'| - 1]);
    } else if |tasks| > 0 {
      TotalRankGrowth(tasks[..|tasks| - 1], tasks'[..|tasks| - 1]);
    }
  }

  /** Does this step claim a task, or record an answer that changes its row? */
  predicate Effective(s: System, step: Step) {
    match step
    case ClaimTask(id, now, _) => CanClaim(s.db, id, now)
    case RecordSuccess(k) => k < |s.claims| && s.claims[k].phase.Returned? && CanRecord(s.db, s.claims[k].task)
    case RecordFailure(k) => k < |s.claims| && s.claims[k].phase.Raising? && CanRecord(s.db, s.claims[k].task)
    case _ => false
  }

  /** The task an effective step works on. */
  function Target(s: System, step: Step): nat
    requires Effective(s, step)
  {
    if step.ClaimTask? then step.task else s.claims[step.claim].task
  }

  lemma TargetOnly(s: System, step: Step)
    requires Effective(s, step)
    ensures var id := Target(s, step);
      && id < |s.db.tasks| == |Next(s, step).db.tasks|
      && Next(s, step).db.tasks == s.db.tasks[id := Next(s, step).db.tasks[id]]
      && WorkerWrites(s, step, s.db.tasks[id], Next(s, step).db.tasks[id], id)
  {
  }

  lemma WriteLowersRank(s: System, step: Step, t: Task, t': Task, id: nat)
    requires WorkerWrites(s, step, t, t', id) && RowSane(t, s.db.clock)
    requires step.RecordFailure? ==> ClaimFits(s.claims[step.claim], t)
    ensures Rank(t') < Rank(t)
  {
  }

  /** Every effective worker step lowers the total rank. */
  lemma EffectiveStepLowersRank(s: System, step: Step)
    requires Inv(s) && Effective(s, step)
    ensures TotalRank(Next(s, step).db.tasks) < TotalRank(s.db.tasks)
  {
    TargetOnly(s, step);
    var id := Target(s, step);
    var t, t' := s.db.tasks[id], Next(s, step).db.tasks[id];
    assert RowSane(t, s.db.clock);
    if step.RecordFailure? {
      assert ClaimFits(s.claims[step.claim], t);
    }
    WriteLowersRank(s, step, t, t', id);
    TotalRankUpdate(s.db.tasks, id, t');
  }

  lemma CalmRank(t: Task, t': Task)
    requires CalmRow(t, t')
    requires t'.status.Dispatching? ==> t.status.Dispatching?
    ensures Rank(t') <= Rank(t)
  {
  }

  /** Outside the workers no row starts dispatching. */
  ghost predicate NoNewDispatch(tasks: seq<Task>, tasks': seq<Task>) {
    && |tasks| <= |tasks'|
    && (forall i :: 0 <= i < |tasks| && tasks'[i].status.Dispatching? ==> tasks[i].status.Dispatching?)
    && (forall i :: |tasks| <= i < |tasks'| ==>
         tasks'[i].maxAttempts == MAX_ATTEMPTS && tasks'[i].attempts == 0 && tasks'[i].status.Scheduled?)
  }

  lemma {:induction false} OperatorCancelNoDispatch(db: Store, ids: seq<nat>)
    ensures NoNewDispatch(db.tasks, OperatorCancelAll(db, ids).tasks)
    decreases |ids|
  {
    if |ids| > 0 {
      OperatorCancelNoDispatch(if CanCancel(db, ids[0]) then OperatorCancelRow(db, ids[0]) else db, ids[1..]);
    }
  }

  lemma InsertNoDispatch(db: Store, r: Request, earlier: Option<seq<nat>>)
    requires InRange(db, earlier)
    ensures NoNewDispatch(db.tasks, PlannedStore(db, r, earlier).tasks)
  {
    if IsPolicyEvent(r.kind) {
      PlanAllShape(StartOfPass(db, r), SubjectOf(db, r), Proposals(r.kind, r.occurredAt, r.customer.timezone),
                   FREQUENCY_CAP);
      forall i | |db.tasks| <= i < |PassOf(db, r).db.tasks|
        ensures PassOf(db, r).db.tasks[i].maxAttempts == MAX_ATTEMPTS && PassOf(db, r).db.tasks[i].attempts == 0
                && PassOf(db, r).db.tasks[i].status.Scheduled?
      {
        assert TaskAbout(PassOf(db, r).db.tasks[i], SubjectOf(db, r), db.clock);
      }
    } else {
      StateChangeShape(db, r);
      CancelAllShape(StateChange(BaseOf(db, r), SubjectOf(db, r), r.kind), |db.events|, SelectedBy(db, r, earlier));
    }
  }

  lemma OtherStepNoDispatch(s: System, step: Step)
    requires Inv(s) && !IsWorkerStep(step)
    ensures NoNewDispatch(s.db.tasks, Next(s, step).db.tasks)
  {
    if step.Insert? && CanInsert(s, step.submission, step.earlier) {
      InsertedOrNot(s, step.submission, step.earlier);
      InsertNoDispatch(s.db, s.submissions[step.submission].request, step.earlier);
    } else if step.OperatorCancel? {
      OperatorCancelNoDispatch(s.db, step.selected);
    }
  }

  /** Steps outside the workers raise the total rank by at most six per new task. */
  lemma OtherStepRank(s: System, step: Step)
    requires Inv(s) && !IsWorkerStep(step)
    ensures TotalRank(Next(s, step).db.tasks) <= TotalRank(s.db.tasks) + 6 * (|Next(s, step).db.tasks| - |s.db.tasks|)
  {
    var tasks, tasks' := s.db.tasks, Next(s, step).db.tasks;
    OtherStepCalm(s, step);
    OtherStepNoDispatch(s, step);
    forall i | 0 <= i < |tasks| ensures Rank(tasks'[i]) <= Rank(tasks[i]) {
      assert CalmRow(tasks[i], tasks'[i]);
      CalmRank(tasks[i], tasks'[i]);
    }
    TotalRankGrowth(tasks, tasks');
  }

  lemma IdleWorkerStep(s: System, step: Step)
    requires IsWorkerStep(step) && !Effective(s, step)
    ensures Next(s, step).db.tasks == s.db.tasks
  {
  }

  lemma StepRank(s: System, step: Step)
    requires Inv(s)
    ensures |s.db.tasks| <= |Next(s, step).db.tasks|
    ensures (if Effective(s, step) then 1 else 0) + TotalRank(Next(s, step).db.tasks)
         <= TotalRank(s.db.tasks) + 6 * (|Next(s, step).db.tasks| - |s.db.tasks|)
  {
    if Effective(s, step) {
      TargetOnly(s, step);
      EffectiveStepLowersRank(s, step);
    } else if !IsWorkerStep(step) {
      OtherStepCalm(s, step);
      OtherStepRank(s, step);
    } else {
      IdleWorkerStep(s, step);
    }
  }

  /** The number of effective worker steps in a run. */
  function Work(s: System, steps: seq<Step>): nat
    decreases |steps|
  {
    if |steps| == 0 then 0
    else (if Effective(s, steps[0]) then 1 else 0) + Work(Next(s, steps[0]), steps[1..])
  }

  lemma {:induction false} WorkRun(s: System, steps: seq<Step>)
    requires Inv(s)
    ensures |s.db.tasks| <= |Run(s, steps).db.tasks|
    ensures Work(s, steps) + TotalRank(Run(s, steps).db.tasks)
         <= TotalRank(s.db.tasks) + 6 * (|Run(s, steps).db.tasks| - |s.db.tasks|)
    decreases |steps|
  {
    if |steps| > 0 {
      StepRank(s, steps[0]);
      StepKeeps(s, steps[0]);
      WorkRun(Next(s, steps[0]), steps[1..]);
    }
  }

  /** However many workers poll, and however long, N accepted events cause at most 18 N effective
      worker steps; what a row has not used up of its share is still to come. */
  lemma WorkIsBounded(clock: int, steps: seq<Step>)
    ensures Work(Initial(clock), steps) + TotalRank(Reached(clock, steps).db.tasks)
         <= 18 * |Reached(clock, steps).db.events|
  {
    ReachableInv(clock, []);
    WorkRun(Initial(clock), steps);
    ReachableInv(clock, steps);
  }

  function Below(n: nat): Claim -> bool { (c: Claim) => c.task < n }

  lemma {:induction false} ClaimsBelow(s: System, n: nat)
    requires Inv(s) && n <= |s.db.tasks|
    ensures Count(s.claims, Below(n)) <= 3 * n
    decreases n
  {
    if n == 0 {
      CountNone(s.claims, Below(0));
    } else {
      ClaimsBelow(s, n - 1);
      CountSplit(s.claims, Below(n), Below(n - 1), OnTask(n - 1));
      assert RowSane(s.db.tasks[n - 1], s.db.clock);
    }
  }

  /** N accepted events lead to at most 9 N provider calls. */
  lemma SendsAreBounded(clock: int, steps: seq<Step>)
    ensures |Reached(clock, steps).claims| <= 9 * |Reached(clock, steps).db.events|
  {
    ReachableInv(clock, steps);
    var s := Reached(clock, steps);
    forall c | c in s.claims ensures Below(|s.db.tasks|)(c) {
      var k :| 0 <= k < |s.claims| && s.claims[k] == c;
      assert ClaimFits(s.claims[k], s.db.tasks[s.claims[k].task]);
    }
    CountAll(s.claims, Below(|s.db.tasks|));
    ClaimsBelow(s, |s.db.tasks|);
  }
}
