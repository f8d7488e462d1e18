/** The whole service as one transition system: the committed database, together with the
    work that processes hold outside it. Every step is one commit, one provider answer or
    one process ending; a step that is not possible in a state leaves it as it is, so that
    every sequence of steps is a run. */
module Service {
  import opened Models
  import opened Planner
  import opened Ingestion
  import opened RowUpdates

  /** Where a worker is with a task it has claimed: calling the provider, holding its answer,
      or done with it (recorded, found the row changed, or crashed). */
  datatype Phase = Sending | Returned | Raising(error: string) | Closed

  /** A worker's claim, kept after it is closed. `attempts`, `maxAttempts` and `scheduledAt` are
      its copy of the row, `now` and `retryDelay` the arguments of its pass, and `zone` the zone
      stored for its customer then; `delivered` says that the provider accepted the message. */
  datatype Claim = Claim(
    task: nat, attempts: nat, maxAttempts: nat, scheduledAt: int, now: int, retryDelay: int, zone: int,
    phase: Phase, delivered: bool)

  /** A request whose first lookup found no event and which has not been answered yet. */
  datatype Submission = Submission(request: Request, open: bool)

  /** An answer given to a submitter. */
  datatype Reply = Reply(source: string, externalId: string, result: IngestionResult)

  datatype System = System(
    db: Store, claims: seq<Claim>, submissions: seq<Submission>, replies: seq<Reply>)

  datatype Step =
    | Tick(to: int)
    // an API process ingests an event: first lookup, then everything else
    | Submit(request: Request)
    | Insert(submission: nat, earlier: Option<seq<nat>>)
    | Abandon(submission: nat)
    // a dispatch worker: claim, provider answer, record
    | ClaimTask(task: nat, now: int, retryDelay: int)
    | SendReturns(claim: nat)
    | SendRaises(claim: nat, error: string)
    | RecordSuccess(claim: nat)
    | RecordFailure(claim: nat)
    | Crash(claim: nat)
    // the operational API
    | ManualResult(task: nat, previous: TaskStatus, sent: bool, detailsError: Option<string>)
    | OperatorCancel(selected: seq<nat>)

  function Initial(clock: int): System {
    System(Store(clock, map[], map[], [], [], [], []), [], [], [])
  }

  /** An earlier answer to the cancellation query: distinct tasks of the account and customer.
      Every task was scheduled when it was inserted, so each may have been in such an answer. */
  predicate ValidEarlier(db: Store, r: Request, earlier: Option<seq<nat>>) {
    earlier.Some? ==>
      && AllBelow(earlier.value, |db.tasks|)
      && (forall k :: 0 <= k < |earlier.value| ==>
            db.tasks[earlier.value[k]].account == r.account.externalId
            && db.tasks[earlier.value[k]].customer == r.customer.externalId)
      && (forall j, k :: 0 <= j < k < |earlier.value| ==> earlier.value[j] != earlier.value[k])
  }

  predicate CanInsert(s: System, i: nat, earlier: Option<seq<nat>>) {
    && i < |s.submissions|
    && s.submissions[i].open
    && ValidEarlier(s.db, s.submissions[i].request, earlier)
  }

  function ReplyTo(r: Request, result: IngestionResult): Reply {
    Reply(r.source, r.externalId, result)
  }

  function NextSubmit(s: System, r: Request): System {
    match FindEvent(s.db.events, r.source, r.externalId)
    case Some(e) => s.(replies := s.replies + [ReplyTo(r, Reconstruct(s.db, e))])
    case None => s.(submissions := s.submissions + [Submission(r, true)])
  }

  function CloseSubmission(s: System, i: nat): System
    requires i < |s.submissions|
  {
    s.(submissions := s.submissions[i := s.submissions[i].(open := false)])
  }

  function NextInsert(s: System, i: nat, earlier: Option<seq<nat>>): System
    requires CanInsert(s, i, earlier)
  {
    var r := s.submissions[i].request;
    var closed := CloseSubmission(s, i);
    match InsertEvent(s.db, r, earlier)
    case Accepted(db, result) => closed.(db := db, replies := s.replies + [ReplyTo(r, result)])
    case Duplicate(result) => closed.(replies := s.replies + [ReplyTo(r, result)])
    case _ => closed
  }

  predicate IsOpen(s: System, k: nat) {
    k < |s.claims| && !s.claims[k].phase.Closed?
  }

  function SetPhase(s: System, k: nat, phase: Phase): System
    requires k < |s.claims|
  {
    s.(claims := s.claims[k := s.claims[k].(phase := phase)])
  }

  /** The time zone stored for a customer. */
  function StoredZone(db: Store, customer: string): int {
    if customer in db.customers then db.customers[customer].timezone else 0
  }

  function NewClaim(db: Store, id: nat, now: int, retryDelay: int): Claim
    requires id < |db.tasks|
  {
    var t := db.tasks[id];
    Claim(id, t.attempts + 1, t.maxAttempts, t.scheduledAt, now, retryDelay, StoredZone(db, t.customer),
          Sending, false)
  }

  /** When a failed send is due again. */
  function RetryAt(c: Claim): int {
    c.now + c.retryDelay
  }

  function NextClaim(s: System, id: nat, now: int, retryDelay: int): System
    requires CanClaim(s.db, id, now)
  {
    s.(db := ClaimRow(s.db, id), claims := s.claims + [NewClaim(s.db, id, now, retryDelay)])
  }

  predicate CanAnswer(s: System, k: nat) {
    k < |s.claims| && s.claims[k].phase.Sending?
  }

  function NextSendReturns(s: System, k: nat): System
    requires CanAnswer(s, k)
  {
    s.(claims := s.claims[k := s.claims[k].(phase := Returned, delivered := true)])
  }

  function NextRecordSuccess(s: System, k: nat): System
    requires k < |s.claims|
  {
    var closed := SetPhase(s, k, Closed);
    var id := s.claims[k].task;
    if CanRecord(s.db, id) then closed.(db := RecordSuccessRow(s.db, id)) else closed
  }

  function NextRecordFailure(s: System, k: nat): System
    requires k < |s.claims| && s.claims[k].phase.Raising?
  {
    var closed := SetPhase(s, k, Closed);
    var c := s.claims[k];
    if CanRecord(s.db, c.task) then
      closed.(db := RecordFailureRow(s.db, c.task, c.attempts, c.maxAttempts, c.scheduledAt, c.phase.error,
                                     RetryAt(c)))
    else closed
  }

  function Next(s: System, step: Step): System {
    match step
    case Tick(to) => if s.db.clock <= to then s.(db := s.db.(clock := to)) else s
    case Submit(r) => NextSubmit(s, r)
    case Insert(i, earlier) => if CanInsert(s, i, earlier) then NextInsert(s, i, earlier) else s
    case Abandon(i) => if i < |s.submissions| then CloseSubmission(s, i) else s
    case ClaimTask(id, now, retryDelay) => if CanClaim(s.db, id, now) then NextClaim(s, id, now, retryDelay) else s
    case SendReturns(k) => if CanAnswer(s, k) then NextSendReturns(s, k) else s
    case SendRaises(k, error) => if CanAnswer(s, k) then SetPhase(s, k, Raising(error)) else s
    case RecordSuccess(k) => if k < |s.claims| && s.claims[k].phase.Returned? then NextRecordSuccess(s, k) else s
    case RecordFailure(k) => if k < |s.claims| && s.claims[k].phase.Raising? then NextRecordFailure(s, k) else s
    case Crash(k) => if IsOpen(s, k) then SetPhase(s, k, Closed) else s
    case ManualResult(id, previous, sent, error) =>
      if CanRecordManually(s.db, id, previous) then s.(db := ManualRow(s.db, id, previous, sent, error)) else s
    case OperatorCancel(ids) => s.(db := OperatorCancelAll(s.db, ids))
  }

  function Run(s: System, steps: seq<Step>): System
    decreases |steps|
  {
    if |steps| == 0 then s else Run(Next(s, steps[0]), steps[1..])
  }

  lemma {:induction false} RunConcat(s: System, a: seq<Step>, b: seq<Step>)
    ensures Run(s, a + b) == Run(Run(s, a), b)
    decreases |a|
  {
    if |a| == 0 {
      assert a + b == b;
    } else {
      assert (a + b)[1..] == a[1..] + b;
      RunConcat(Next(s, a[0]), a[1..], b);
    }
  }

  lemma {:induction false} RunSnoc(s: System, steps: seq<Step>, step: Step)
    ensures Run(s, steps + [step]) == Next(Run(s, steps), step)
  {
    RunConcat(s, steps, [step]);
    assert [step][1..] == [];
    assert Run(Run(s, steps), [step]) == Run(Next(Run(s, steps), step), []);
  }

  /** The claim history only grows, and keeps what it says about tasks. */
  lemma {:induction false} ClaimsOnlyGrow(s: System, steps: seq<Step>)
    ensures var s' := Run(s, steps);
      |s.claims| <= |s'.claims| && forall k :: 0 <= k < |s.claims| ==> s'.claims[k].task == s.claims[k].task
    decreases |steps|
  {
    if |steps| > 0 {
      ClaimsOnlyGrow(Next(s, steps[0]), steps[1..]);
    }
  }

  /** Planning runs are serial when no cancellation works from an earlier answer. */
  predicate Serial(step: Step) {
    step.Insert? ==> step.earlier.None?
  }

  predicate SerialRun(steps: seq<Step>) {
    forall i :: 0 <= i < |steps| ==> Serial(steps[i])
  }

  /** The event a step inserts is not dated after the database clock. */
  predicate Timely(s: System, step: Step) {
    step.Insert? ==>
      step.submission < |s.submissions| ==>
        s.submissions[step.submission].request.occurredAt <= s.db.clock
  }

  predicate TimelyRun(s: System, steps: seq<Step>)
    decreases |steps|
  {
    |steps| == 0 || (Timely(s, steps[0]) && TimelyRun(Next(s, steps[0]), steps[1..]))
  }
}
