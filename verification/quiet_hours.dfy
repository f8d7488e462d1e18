/** When calls and texts are sent. Policy looks at quiet hours once, when a task is planned; what
    follows says how the instants at which workers claim tasks depend on that. */
module QuietHours {
  import opened Models
  import opened WallClock
  import opened Policy
  import opened Planner
  import opened RowUpdates
  import opened Service
  import opened Evolution
  import opened StoreInvariant
  import opened Delivery
  import opened RunInvariant
  import opened Guarantees

  /** The customer's zone in the snapshot a task was planned from. */
  function PlannedZone(db: Store, t: Task): int {
    if t.event < |db.events| then db.events[t.event].timezone else 0
  }

  /** Claim p is on this task, with this attempt number, and its failure is due again at `at`. */
  predicate RetriedFrom(claims: seq<Claim>, p: nat, id: nat, attempt: int, at: int) {
    p < |claims| && claims[p].task == id && claims[p].attempts == attempt && at == RetryAt(claims[p])
  }

  ghost predicate Retried(claims: seq<Claim>, n: nat, id: nat, attempt: int, at: int) {
    exists p: nat :: p < n && RetriedFrom(claims, p, id, attempt, at)
  }

  /** A queued call or text that was never claimed is due inside its customer's window; any queued
      task that was is due when the retry of its last claim is. */
  ghost predicate DueRow(s: System, id: nat)
    requires id < |s.db.tasks|
  {
    var t := s.db.tasks[id];
    t.status.Scheduled? ==>
      if t.attempts == 0 then t.channel.Email? || OpenAt(t.scheduledAt, PlannedZone(s.db, t))
      else Retried(s.claims, |s.claims|, id, t.attempts, t.scheduledAt)
  }

  /** The same about the row a claim was made on. */
  ghost predicate ClaimOrigin(s: System, k: nat)
    requires k < |s.claims|
  {
    var c := s.claims[k];
    && c.task < |s.db.tasks| && c.attempts > 0 && c.scheduledAt <= c.now
    && var t := s.db.tasks[c.task];
    if c.attempts == 1 then t.channel.Email? || OpenAt(c.scheduledAt, PlannedZone(s.db, t))
    else Retried(s.claims, k, c.task, c.attempts - 1, c.scheduledAt)
  }

  ghost predicate Timed(s: System) {
    && (forall id :: 0 <= id < |s.db.tasks| ==> DueRow(s, id))
    && (forall k :: 0 <= k < |s.claims| ==> ClaimOrigin(s, k))
  }

  // Every step keeps it.

  predicate SameOrder(c: Claim, c': Claim) {
    c'.(phase := c.phase, delivered := c.delivered) == c
  }

  ghost predicate ClaimsExtended(claims: seq<Claim>, claims': seq<Claim>) {
    |claims| <= |claims'| && forall k :: 0 <= k < |claims| ==> SameOrder(claims[k], claims'[k])
  }

  ghost predicate ZonesKept(db: Store, db': Store) {
    && |db.tasks| <= |db'.tasks| && |db.events| <= |db'.events|
    && (forall i :: 0 <= i < |db.events| ==> db'.events[i].timezone == db.events[i].timezone)
    && (forall i :: 0 <= i < |db.tasks| ==> SameIdentity(db.tasks[i], db'.tasks[i]))
    && (forall i :: 0 <= i < |db.tasks| ==> db.tasks[i].event < |db.events|)
  }

  lemma RetriedStays(claims: seq<Claim>, claims': seq<Claim>, n: nat, m: nat, id: nat, attempt: int, at: int)
    requires ClaimsExtended(claims, claims') && n <= m && Retried(claims, n, id, attempt, at)
    ensures Retried(claims', m, id, attempt, at)
  {
    var p: nat :| p < n && RetriedFrom(claims, p, id, attempt, at);
    assert SameOrder(claims[p], claims'[p]);
    assert RetriedFrom(claims', p, id, attempt, at);
  }

  lemma ClaimOriginStays(s: System, s': System, k: nat)
    requires k < |s.claims| && ClaimOrigin(s, k) && ClaimsExtended(s.claims, s'.claims) && ZonesKept(s.db, s'.db)
    ensures ClaimOrigin(s', k)
  {
    var c := s.claims[k];
    assert SameOrder(c, s'.claims[k]);
    assert SameIdentity(s.db.tasks[c.task], s'.db.tasks[c.task]);
    if c.attempts > 1 {
      RetriedStays(s.claims, s'.claims, k, k, c.task, c.attempts - 1, c.scheduledAt);
    }
  }

  lemma DueRowStays(s: System, s': System, id: nat)
    requires id < |s.db.tasks| && DueRow(s, id) && ClaimsExtended(s.claims, s'.claims) && ZonesKept(s.db, s'.db)
    requires s'.db.tasks[id].status.Scheduled? ==>
      && s.db.tasks[id].status.Scheduled?
      && s'.db.tasks[id].attempts == s.db.tasks[id].attempts
      && s'.db.tasks[id].scheduledAt == s.db.tasks[id].scheduledAt
    ensures DueRow(s', id)
  {
    var t := s.db.tasks[id];
    assert SameIdentity(t, s'.db.tasks[id]);
    if s'.db.tasks[id].status.Scheduled? && t.attempts > 0 {
      RetriedStays(s.claims, s'.claims, |s.claims|, |s'.claims|, id, t.attempts, t.scheduledAt);
    }
  }

  lemma RowsHaveEvents(db: Store)
    requires Lineage(db)
    ensures forall i :: 0 <= i < |db.tasks| ==> db.tasks[i].event < |db.events|
  {
    forall i | 0 <= i < |db.tasks| ensures db.tasks[i].event < |db.events| {
      assert TaskRefers(db.decisions, db.tasks[i]);
      assert DecisionRefers(db, db.decisions[db.tasks[i].decision]);
    }
  }

  lemma WorkerKeepsOrders(s: System, step: Step)
    requires IsWorkerStep(step)
    ensures ClaimsExtended(s.claims, Next(s, step).claims)
    ensures Next(s, step).db.events == s.db.events
  {
  }

  lemma WorkerZonesKept(s: System, step: Step)
    requires Inv(s) && IsWorkerStep(step)
    ensures ZonesKept(s.db, Next(s, step).db) && ClaimsExtended(s.claims, Next(s, step).claims)
  {
    RowsHaveEvents(s.db);
    WorkerStepLength(s, step);
    WorkerKeepsOrders(s, step);
    var tasks' := Next(s, step).db.tasks;
    forall i | 0 <= i < |s.db.tasks| ensures SameIdentity(s.db.tasks[i], tasks'[i]) {
      WorkerKeepsIdentity(s, step, i);
    }
  }

  lemma WorkerAddsClaim(s: System, step: Step)
    requires IsWorkerStep(step) && |s.claims| < |Next(s, step).claims|
    ensures step.ClaimTask? && CanClaim(s.db, step.task, step.now) && |Next(s, step).claims| == |s.claims| + 1
  {
  }

  lemma ClaimTimed(s: System, id: nat, now: int, retryDelay: int)
    requires Inv(s) && Timed(s) && CanClaim(s.db, id, now)
    ensures ClaimOrigin(NextClaim(s, id, now, retryDelay), |s.claims|)
  {
    var s' := NextClaim(s, id, now, retryDelay);
    var t := s.db.tasks[id];
    assert DueRow(s, id);
    RowsHaveEvents(s.db);
    if t.attempts > 0 {
      RetriedStays(s.claims, s'.claims, |s.claims|, |s.claims|, id, t.attempts, t.scheduledAt);
    }
  }

  lemma FailureTimed(s: System, k: nat)
    requires Inv(s) && Timed(s) && k < |s.claims| && s.claims[k].phase.Raising? && CanRecord(s.db, s.claims[k].task)
    ensures var s' := NextRecordFailure(s, k);
      s.claims[k].task < |s'.db.tasks| && DueRow(s', s.claims[k].task)
  {
    var s' := NextRecordFailure(s, k);
    var c := s.claims[k];
    assert ClaimOrigin(s, k) && ClaimFits(c, s.db.tasks[c.task]);
    if s'.db.tasks[c.task].status.Scheduled? {
      assert RetriedFrom(s'.claims, k, c.task, c.attempts, RetryAt(c));
    }
  }

  lemma WorkerDueRow(s: System, step: Step, id: nat)
    requires Inv(s) && Timed(s) && IsWorkerStep(step) && id < |s.db.tasks|
    ensures id < |Next(s, step).db.tasks| && DueRow(Next(s, step), id)
  {
    WorkerZonesKept(s, step);
    WorkerRowFate(s, step, id);
    assert DueRow(s, id);
    var t' := Next(s, step).db.tasks[id];
    if step.RecordFailure? && t' != s.db.tasks[id] {
      FailureTimed(s, step.claim);
    } else {
      DueRowStays(s, Next(s, step), id);
    }
  }

  lemma WorkerClaimOrigin(s: System, step: Step, k: nat)
    requires Inv(s) && Timed(s) && IsWorkerStep(step) && k < |Next(s, step).claims|
    ensures ClaimOrigin(Next(s, step), k)
  {
    WorkerZonesKept(s, step);
    if k < |s.claims| {
      ClaimOriginStays(s, Next(s, step), k);
    } else {
      WorkerAddsClaim(s, step);
      ClaimTimed(s, step.task, step.now, step.retryDelay);
    }
  }

  lemma InsertZonesKept(s: System, i: nat, earlier: Option<seq<nat>>)
    requires Inv(s) && CanInsert(s, i, earlier)
    ensures ZonesKept(s.db, NextInsert(s, i, earlier).db)
  {
    var r := s.submissions[i].request;
    RowsHaveEvents(s.db);
    InsertedOrNot(s, i, earlier);
    PlannedEvents(s.db, r, earlier);
    InsertCalm(s.db, r, earlier);
    var tasks' := PlannedStore(s.db, r, earlier).tasks;
    forall t | 0 <= t < |s.db.tasks| ensures SameIdentity(s.db.tasks[t], tasks'[t]) {
      assert CalmRow(s.db.tasks[t], tasks'[t]);
    }
  }

  lemma OtherZonesKept(s: System, step: Step)
    requires Inv(s) && !IsWorkerStep(step)
    ensures ZonesKept(s.db, Next(s, step).db) && Next(s, step).claims == s.claims
  {
    RowsHaveEvents(s.db);
    if step.Insert? && CanInsert(s, step.submission, step.earlier) {
      InsertZonesKept(s, step.submission, step.earlier);
    } else if WritesRows(step) {
      RowWriterStep(s, step);
      OtherStepCalm(s, step);
      forall i | 0 <= i < |s.db.tasks| ensures SameIdentity(s.db.tasks[i], Next(s, step).db.tasks[i]) {
        assert CalmRow(s.db.tasks[i], Next(s, step).db.tasks[i]);
      }
    }
  }

  /** A new call or text is due inside the window of the zone its event came with. */
  lemma InsertedRowDue(s: System, i: nat, earlier: Option<seq<nat>>, t: nat)
    requires Inv(s) && CanInsert(s, i, earlier)
    requires |s.db.tasks| <= t < |NextInsert(s, i, earlier).db.tasks|
    ensures DueRow(NextInsert(s, i, earlier), t)
  {
    var r := s.submissions[i].request;
    VerdictOf(s.db, r, earlier);
    PlannedEvents(s.db, r, earlier);
    if IsPolicyEvent(r.kind) {
      PlanAllShape(StartOfPass(s.db, r), SubjectOf(s.db, r),
                   Proposals(r.kind, r.occurredAt, r.customer.timezone), FREQUENCY_CAP);
      assert TaskAbout(PassOf(s.db, r).db.tasks[t], SubjectOf(s.db, r), s.db.clock);
    } else {
      StateChangeShape(s.db, r);
    }
  }

  lemma OtherDueRow(s: System, step: Step, id: nat)
    requires Inv(s) && Timed(s) && !IsWorkerStep(step) && id < |Next(s, step).db.tasks|
    ensures DueRow(Next(s, step), id)
  {
    OtherZonesKept(s, step);
    if id < |s.db.tasks| {
      OtherStepCalm(s, step);
      assert DueRow(s, id) && CalmRow(s.db.tasks[id], Next(s, step).db.tasks[id]);
      DueRowStays(s, Next(s, step), id);
    } else {
      OtherStepAddsRows(s, step);
      InsertedRowDue(s, step.submission, step.earlier, id);
    }
  }

  lemma OtherStepAddsRows(s: System, step: Step)
    requires |s.db.tasks| < |Next(s, step).db.tasks|
    ensures step.Insert? && CanInsert(s, step.submission, step.earlier)
  {
  }

  lemma TimedStep(s: System, step: Step)
    requires Inv(s) && Timed(s)
    ensures Timed(Next(s, step))
  {
    var s' := Next(s, step);
    if IsWorkerStep(step) {
      WorkerStepLength(s, step);
      forall id | 0 <= id < |s'.db.tasks| ensures DueRow(s', id) {
        WorkerDueRow(s, step, id);
      }
      forall k | 0 <= k < |s'.claims| ensures ClaimOrigin(s', k) {
        WorkerClaimOrigin(s, step, k);
      }
    } else {
      OtherZonesKept(s, step);
      forall id | 0 <= id < |s'.db.tasks| ensures DueRow(s', id) {
        OtherDueRow(s, step, id);
      }
      forall k | 0 <= k < |s'.claims| ensures ClaimOrigin(s', k) {
        ClaimOriginStays(s, s', k);
      }
    }
  }

  lemma {:induction false} TimedRun(s: System, steps: seq<Step>)
    requires Inv(s) && Timed(s)
    ensures Timed(Run(s, steps))
    decreases |steps|
  {
    if |steps| > 0 {
      TimedStep(s, steps[0]);
      StepKeeps(s, steps[0]);
      TimedRun(Next(s, steps[0]), steps[1..]);
    }
  }

  lemma ReachableTimed(clock: int, steps: seq<Step>)
    ensures Timed(Reached(clock, steps)) && Inv(Reached(clock, steps))
  {
    ReachableInv(clock, []);
    TimedRun(Initial(clock), steps);
    ReachableInv(clock, steps);
  }

  // Being in the window.

  function UntilClosing(at: int, zone: int): int {
    WINDOW_END - TimeOfDay(at + zone)
  }

  const NIGHT: int := DAY - (WINDOW_END - WINDOW_START)

  /** Does a wait that starts inside the window end inside it? It does not reach that day's closing,
      or it lasts over whole nights and ends before the next closing. */
  predicate EndsInWindow(from: int, zone: int, wait: int) {
    wait % DAY < UntilClosing(from, zone) || wait % DAY >= UntilClosing(from, zone) + NIGHT
  }

  lemma WaitInWindow(from: int, zone: int, wait: int)
    requires OpenAt(from, zone)
    ensures OpenAt(from + wait, zone) <==> EndsInWindow(from, zone, wait)
  {
    var time := TimeOfDay(from + zone);
    assert from + wait + zone == (DateOf(from + zone) + wait / DAY) * DAY + time + wait % DAY;
    if time + wait % DAY < DAY {
      DateAndTime(DateOf(from + zone) + wait / DAY, time + wait % DAY);
    } else {
      DateAndTime(DateOf(from + zone) + wait / DAY + 1, time + wait % DAY - DAY);
    }
  }

  /** Does a send at `now`, to a customer whose zone is then `stored`, arrive inside the window, when
      it was planned for `at` in zone `planned`? A change of zone counts as waiting. */
  predicate ArrivesInWindow(at: int, planned: int, now: int, stored: int) {
    EndsInWindow(at, planned, now - at + stored - planned)
  }

  lemma ArrivalInWindow(at: int, planned: int, now: int, stored: int)
    requires OpenAt(at, planned)
    ensures OpenAt(now, stored) <==> ArrivesInWindow(at, planned, now, stored)
  {
    WaitInWindow(at, planned, now - at + stored - planned);
  }

  /** Exactly when a call or text that is claimed for the first time is claimed inside the window of
      the customer's stored zone. It always was planned for an instant inside the window of the zone
      its event came with, so only lateness, or another zone stored since, can take it out. */
  lemma FirstSendInWindowIff(clock: int, steps: seq<Step>, id: nat, now: int)
    requires CanClaim(Reached(clock, steps).db, id, now)
    requires var t := Reached(clock, steps).db.tasks[id]; t.attempts == 0 && !t.channel.Email?
    ensures var db := Reached(clock, steps).db;
      var t := db.tasks[id];
      && t.event < |db.events| && t.customer in db.customers
      && var planned, stored := db.events[t.event].timezone, db.customers[t.customer].timezone;
      && OpenAt(t.scheduledAt, planned) && t.scheduledAt <= now
      && (OpenAt(now, stored) <==> ArrivesInWindow(t.scheduledAt, planned, now, stored))
  {
    ReachableTimed(clock, steps);
    TaskLineage(clock, steps, id, id);
    var s := Reached(clock, steps);
    var t := s.db.tasks[id];
    assert DueRow(s, id) && EventRefers(s.db, s.db.events[t.event]);
    ArrivalInWindow(t.scheduledAt, s.db.events[t.event].timezone, now, s.db.customers[t.customer].timezone);
  }

  /** Claim f is the first one on this task. Its copy of the row holds the planned instant. */
  predicate IsFirst(s: System, f: nat, id: nat) {
    f < |s.claims| && s.claims[f].task == id && s.claims[f].attempts == 1
  }

  /** Every claim goes back to a first one. */
  lemma {:induction false} GoesBackToFirst(s: System, k: nat) returns (f: nat)
    requires Timed(s) && k < |s.claims|
    ensures f <= k && IsFirst(s, f, s.claims[k].task)
    decreases k
  {
    assert ClaimOrigin(s, k);
    var c := s.claims[k];
    if c.attempts == 1 {
      f := k;
    } else {
      var p: nat :| p < k && RetriedFrom(s.claims, p, c.task, c.attempts - 1, c.scheduledAt);
      f := GoesBackToFirst(s, p);
    }
  }

  lemma FirstWasOpen(s: System, f: nat, id: nat)
    requires Timed(s) && IsFirst(s, f, id) && id < |s.db.tasks| && !s.db.tasks[id].channel.Email?
    ensures OpenAt(s.claims[f].scheduledAt, PlannedZone(s.db, s.db.tasks[id]))
  {
    assert ClaimOrigin(s, f);
  }

  /** Exactly when a retry of a call or text is claimed inside the window of the customer's stored
      zone, wherever the attempts before it fell. `p` is the last of them, whose pass set the time the
      retry is due; `f` is the first, which still has the planned instant the wait counts from. */
  lemma RetryInWindowIff(clock: int, steps: seq<Step>, id: nat, now: int) returns (p: nat, f: nat)
    requires CanClaim(Reached(clock, steps).db, id, now)
    requires var t := Reached(clock, steps).db.tasks[id]; t.attempts > 0 && !t.channel.Email?
    ensures var s := Reached(clock, steps);
      var t := s.db.tasks[id];
      && RetriedFrom(s.claims, p, id, t.attempts, t.scheduledAt)
      && s.claims[p].retryDelay <= now - s.claims[p].now
      && IsFirst(s, f, id) && f <= p
      && t.event < |s.db.events| && t.customer in s.db.customers
      && var planned, stored := s.db.events[t.event].timezone, s.db.customers[t.customer].timezone;
      var at := s.claims[f].scheduledAt;
      && OpenAt(at, planned)
      && (OpenAt(now, stored) <==> ArrivesInWindow(at, planned, now, stored))
  {
    ReachableTimed(clock, steps);
    TaskLineage(clock, steps, id, id);
    var s := Reached(clock, steps);
    var t := s.db.tasks[id];
    assert DueRow(s, id) && EventRefers(s.db, s.db.events[t.event]);
    p :| p < |s.claims| && RetriedFrom(s.claims, p, id, t.attempts, t.scheduledAt);
    f := GoesBackToFirst(s, p);
    FirstWasOpen(s, f, id);
    ArrivalInWindow(s.claims[f].scheduledAt, s.db.events[t.event].timezone, now, s.db.customers[t.customer].timezone);
  }

  /** The wait of a retry since the planned instant is that of the attempt before it, the retry delay
      of that attempt's pass, and how late its own pass is, which is never negative. */
  lemma WaitAddsUp(clock: int, steps: seq<Step>, k: nat, at: int) returns (p: nat)
    requires k < |Reached(clock, steps).claims| && Reached(clock, steps).claims[k].attempts != 1
    ensures var claims := Reached(clock, steps).claims;
      && p < k && claims[p].task == claims[k].task && claims[p].attempts == claims[k].attempts - 1
      && claims[k].scheduledAt <= claims[k].now
      && claims[k].now - at
         == (claims[p].now - at) + claims[p].retryDelay + (claims[k].now - claims[k].scheduledAt)
  {
    ReachableTimed(clock, steps);
    var s := Reached(clock, steps);
    var c := s.claims[k];
    assert ClaimOrigin(s, k);
    p :| p < k && RetriedFrom(s.claims, p, c.task, c.attempts - 1, c.scheduledAt);
  }

  // Whole runs.

  predicate IsCallOrText(s: System, k: nat)
    requires k < |s.claims|
  {
    s.claims[k].task < |s.db.tasks| && !s.db.tasks[s.claims[k].task].channel.Email?
  }

  /** The pass that made this claim ran inside the window of the zone stored for the customer then. */
  predicate SentInWindow(s: System, k: nat)
    requires k < |s.claims|
  {
    OpenAt(s.claims[k].now, s.claims[k].zone)
  }

  /** What its planned instant, the time of its pass and the two zones say about that. */
  ghost predicate WaitedRight(s: System, k: nat)
    requires k < |s.claims| && s.claims[k].task < |s.db.tasks|
  {
    var c := s.claims[k];
    var planned := PlannedZone(s.db, s.db.tasks[c.task]);
    exists f: nat :: IsFirst(s, f, c.task) && ArrivesInWindow(s.claims[f].scheduledAt, planned, c.now, c.zone)
  }

  lemma WindowOfOne(s: System, k: nat)
    requires Timed(s) && k < |s.claims| && IsCallOrText(s, k)
    ensures SentInWindow(s, k) <==> WaitedRight(s, k)
  {
    var c := s.claims[k];
    var planned := PlannedZone(s.db, s.db.tasks[c.task]);
    var first := GoesBackToFirst(s, k);
    forall f: nat | IsFirst(s, f, c.task)
      ensures SentInWindow(s, k) <==> ArrivesInWindow(s.claims[f].scheduledAt, planned, c.now, c.zone)
    {
      FirstWasOpen(s, f, c.task);
      ArrivalInWindow(s.claims[f].scheduledAt, planned, c.now, c.zone);
    }
  }

  /** Each provider call of a run for a call or text falls inside the window of the zone stored for
      its customer at that moment exactly when it waited right since the instant it was planned for;
      so "calls and texts are not sent outside the window" holds of a run exactly when all did. */
  lemma QuietHoursKeptIff(clock: int, steps: seq<Step>)
    ensures var s := Reached(clock, steps);
      && (forall k :: 0 <= k < |s.claims| ==> s.claims[k].task < |s.db.tasks|)
      && (forall k :: 0 <= k < |s.claims| && IsCallOrText(s, k) ==> (SentInWindow(s, k) <==> WaitedRight(s, k)))
  {
    ReachableTimed(clock, steps);
    var s := Reached(clock, steps);
    forall k | 0 <= k < |s.claims|
      ensures s.claims[k].task < |s.db.tasks|
      ensures IsCallOrText(s, k) ==> (SentInWindow(s, k) <==> WaitedRight(s, k))
    {
      assert ClaimOrigin(s, k);
      if IsCallOrText(s, k) {
        WindowOfOne(s, k);
      }
    }
  }

  /** The zone a claim records is the one stored for the customer when it was made. */
  lemma ClaimRecordsZone(clock: int, steps: seq<Step>, id: nat, now: int, retryDelay: int)
    requires CanClaim(Reached(clock, steps).db, id, now)
    ensures var s := Reached(clock, steps);
      var s' := Next(s, ClaimTask(id, now, retryDelay));
      && s.db.tasks[id].customer in s.db.customers
      && |s'.claims| == |s.claims| + 1
      && s'.claims[|s.claims|].now == now && s'.claims[|s.claims|].retryDelay == retryDelay
      && s'.claims[|s.claims|].zone == s.db.customers[s.db.tasks[id].customer].timezone
  {
    ReachableInv(clock, steps);
    TaskLineage(clock, steps, id, id);
    var s := Reached(clock, steps);
    assert EventRefers(s.db, s.db.events[s.db.tasks[id].event]);
  }
}
