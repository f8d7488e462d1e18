/** The outreach planner (src/orchestrator/orchestration/planner.py) as functions on the store. */
module Planner {
  import opened Counting
  import opened Models
  import opened WallClock
  import opened Policy

  datatype Proposal = Proposal(channel: Channel, at: int)

  datatype PlannerResult = PlannerResult(
    created: nat, cancelled: nat, decisions: nat, blocked: nat, deferred: nat)

  const NOTHING_DONE: PlannerResult := PlannerResult(0, 0, 0, 0, 0)

  /** The planner either returns normally or raises ValueError. */
  datatype PlanOutcome = Planned(db: Store, result: PlannerResult) | PlanError

  /** The rows a planning pass works from. */
  datatype Subject = Subject(
    event: nat, accountId: string, customerId: string, customer: Customer, accountStatus: AccountStatus)

  /** The running state of the loop over proposals. */
  datatype Progress = Progress(
    db: Store, recent: nat, created: nat, decisions: nat, blocked: nat, deferred: nat)

  function Proposals(kind: EventType, now: int, timezone: int): seq<Proposal>
    requires IsPolicyEvent(kind)
  {
    if kind.AccountDelinquent? then
      [Proposal(Email, now), Proposal(Sms, now + 30 * MINUTE), Proposal(Call, NextBusinessDayAt10(now, timezone))]
    else
      [Proposal(Email, now), Proposal(Sms, now + 15 * MINUTE)]
  }

  function InputFor(s: Subject, p: Proposal, recent: nat, cap: nat): PolicyInput {
    PolicyInput(p.channel, p.at, s.customer.timezone,
                s.customer.smsConsent, s.customer.callConsent, s.customer.emailConsent,
                s.customer.optedOut, s.accountStatus, recent, cap)
  }

  /** The instant a task is created for, if this policy result lets one be created at all. */
  function TaskTime(p: Proposal, r: PolicyResult): Option<int> {
    match r.decision
    case Block => None
    case Allow => Some(p.at)
    case Defer => if FrequencyCapExceeded in r.reasons then None else r.deferUntil
  }

  /** Decisions that stand for a task: allowed, or put off only because of quiet hours. */
  predicate Schedulable(d: Decision) {
    d.outcome.Allow? || (d.outcome.Defer? && d.reasons == [QuietHours])
  }

  function DecisionRow(s: Subject, r: PolicyResult): Decision {
    Decision(s.event, s.accountId, s.customerId, r.channel, r.decision, r.reasons)
  }

  function NewTask(s: Subject, decision: nat, channel: Channel, at: int, clock: int): Task {
    Task(s.event, decision, s.accountId, s.customerId, channel, Scheduled, at, 0, MAX_ATTEMPTS, None, clock)
  }

  /** The audit rows one proposal leaves behind. */
  function ProposalAudit(s: Subject, decision: nat, p: Proposal, r: PolicyResult): seq<AuditRow> {
    [PolicyDecisionRecorded(s.event, decision, r.decision, r.channel, r.reasons)]
    + (if r.decision.Block? then [OutreachBlocked(s.event, s.accountId, r.channel, r.reasons)] else [])
    + (if r.decision.Defer? then [OutreachDeferred(s.event, s.accountId, r.channel, r.reasons, r.deferUntil)] else [])
    + (if TaskTime(p, r).Some?
       then [OutreachTaskScheduled(s.event, s.accountId, r.channel, TaskTime(p, r).value)]
       else [])
  }

  /** The rows and counters of one proposal, given the policy's verdict on it. */
  function StoreVerdict(g: Progress, s: Subject, p: Proposal, r: PolicyResult): Progress {
    var d := |g.db.decisions|;
    var at := TaskTime(p, r);
    var n := if at.Some? then 1 else 0;
    Progress(
      g.db.(decisions := g.db.decisions + [DecisionRow(s, r)],
            tasks := if at.Some? then g.db.tasks + [NewTask(s, d, r.channel, at.value, g.db.clock)] else g.db.tasks,
            audit := g.db.audit + ProposalAudit(s, d, p, r)),
      g.recent + n, g.created + n, g.decisions + 1,
      g.blocked + (if r.decision.Block? then 1 else 0),
      g.deferred + (if r.decision.Defer? then 1 else 0))
  }

  /** One turn of the loop in _plan_policy_event. */
  function PlanOne(g: Progress, s: Subject, p: Proposal, cap: nat): Progress {
    StoreVerdict(g, s, p, Evaluate(InputFor(s, p, g.recent, cap)))
  }

  function PlanAll(g: Progress, s: Subject, proposals: seq<Proposal>, cap: nat): Progress
    decreases |proposals|
  {
    if |proposals| == 0 then g
    else PlanAll(PlanOne(g, s, proposals[0], cap), s, proposals[1..], cap)
  }

  function RecentFor(customer: string, since: int): Task -> bool {
    (t: Task) => t.customer == customer && CountsAsAttempt(t.status) && t.createdAt >= since
  }

  function RecentAttempts(db: Store, customer: string, now: int): nat {
    Count(db.tasks, RecentFor(customer, now - 24 * HOUR))
  }

  function DecidedFor(event: nat): Decision -> bool { (d: Decision) => d.event == event }

  predicate HasDecision(db: Store, event: nat) {
    exists d :: 0 <= d < |db.decisions| && db.decisions[d].event == event
  }

  predicate HasMarker(db: Store, event: nat, kind: EventType) {
    ProcessedMarker(event, kind) in db.audit
  }

  /** The rows an event refers to, re-checked against each other. */
  function LoadSubject(db: Store, event: nat): Option<Subject>
    requires event < |db.events|
  {
    var e := db.events[event];
    if e.customer in db.customers && e.account in db.accounts && db.accounts[e.account].customer == e.customer then
      Some(Subject(event, e.account, e.customer, db.customers[e.customer], db.accounts[e.account].status))
    else None
  }

  function PlanPolicyEvent(db: Store, s: Subject, kind: EventType, now: int, cap: nat): PlanOutcome
    requires IsPolicyEvent(kind)
  {
    if HasDecision(db, s.event) then Planned(db, NOTHING_DONE)
    else
      var g := PlanAll(Progress(db, RecentAttempts(db, s.customerId, now), 0, 0, 0, 0),
                       s, Proposals(kind, now, s.customer.timezone), cap);
      Planned(g.db, PlannerResult(g.created, 0, g.decisions, g.blocked, g.deferred))
  }

  predicate IsScheduledFor(t: Task, customer: string, account: string) {
    t.account == account && t.customer == customer && t.status.Scheduled?
  }

  predicate AllBelow(ids: seq<nat>, n: nat) {
    forall k :: 0 <= k < |ids| ==> ids[k] < n
  }

  /** What the cancellation query selects: the scheduled tasks of this account and customer. */
  function ScheduledFor(tasks: seq<Task>, customer: string, account: string): (ids: seq<nat>)
    ensures AllBelow(ids, |tasks|)
    ensures forall k :: 0 <= k < |ids| ==>
      var t := tasks[ids[k]];
      t.account == account && t.customer == customer && t.status == Scheduled && IsScheduledFor(t, customer, account)
    ensures forall i :: 0 <= i < |tasks| ==>
      (i in ids <==> tasks[i].account == account && tasks[i].customer == customer && tasks[i].status == Scheduled)
    ensures forall j, k :: 0 <= j < k < |ids| ==> ids[j] < ids[k]
  {
    if |tasks| == 0 then []
    else
      var rest := ScheduledFor(tasks[..|tasks| - 1], customer, account);
      if IsScheduledFor(tasks[|tasks| - 1], customer, account) then rest + [|tasks| - 1] else rest
  }

  /** The unconditional write of one selected row. */
  function CancelOne(db: Store, cause: nat, id: nat): Store
    requires id < |db.tasks|
  {
    db.(tasks := db.tasks[id := db.tasks[id].(status := Cancelled)],
        audit := db.audit + [OutreachCancelled(id, Some(cause))])
  }

  function CancelAll(db: Store, cause: nat, ids: seq<nat>): (db': Store)
    requires AllBelow(ids, |db.tasks|)
    ensures |db'.tasks| == |db.tasks|
    decreases |ids|
  {
    if |ids| == 0 then db else CancelAll(CancelOne(db, cause, ids[0]), cause, ids[1..])
  }

  /** The durable effect a non-policy event has before its cancellations. */
  function StateChange(db: Store, s: Subject, kind: EventType): Store
    requires s.customerId in db.customers && s.accountId in db.accounts
  {
    match kind
    case OptOutReceived =>
      db.(customers := db.customers[s.customerId := db.customers[s.customerId].(optedOut := true)],
          audit := db.audit + [CustomerOptOut(s.event, s.customerId)])
    case HardshipRequested =>
      db.(audit := db.audit + [HardshipEscalation(s.event, s.accountId)])
    case AccountPaused =>
      db.(accounts := db.accounts[s.accountId := db.accounts[s.accountId].(status := Paused)],
          audit := db.audit + [AccountPause(s.event, s.accountId)])
    case _ => db
  }

  /** The ids the cancellation works on: what the query returns now, or a list it returned
      earlier, when other transactions were free to commit in between. */
  function Selected(db: Store, s: Subject, earlier: Option<seq<nat>>): seq<nat> {
    if earlier.Some? then earlier.value else ScheduledFor(db.tasks, s.customerId, s.accountId)
  }

  predicate InRange(db: Store, earlier: Option<seq<nat>>) {
    earlier.Some? ==> AllBelow(earlier.value, |db.tasks|)
  }

  function PlanCancellation(db: Store, s: Subject, kind: EventType, earlier: Option<seq<nat>>): PlanOutcome
    requires s.customerId in db.customers && s.accountId in db.accounts
    requires InRange(db, earlier)
  {
    if HasMarker(db, s.event, kind) then Planned(db, NOTHING_DONE)
    else
      var ids := Selected(db, s, earlier);
      var db' := CancelAll(StateChange(db, s, kind), s.event, ids);
      Planned(db'.(audit := db'.audit + [ProcessedMarker(s.event, kind)]),
              PlannerResult(0, |ids|, 0, 0, 0))
  }

  /** plan_outreach_for_event. */
  function PlanEvent(db: Store, event: nat, now: int, cap: nat, earlier: Option<seq<nat>>): PlanOutcome
    requires InRange(db, earlier)
  {
    if event >= |db.events| then PlanError
    else match LoadSubject(db, event)
      case None => PlanError
      case Some(s) =>
        var kind := db.events[event].kind;
        if IsPolicyEvent(kind) then PlanPolicyEvent(db, s, kind, now, cap)
        else PlanCancellation(db, s, kind, earlier)
  }
}
