/** The planner as it works on the tables (src/orchestrator/orchestration/planner.py): rows added and
    overwritten one by one inside the caller's transaction. */
module PlannerProcedure {
  import opened Models
  import opened WallClock
  import opened Policy
  import opened Planner
  import opened RunningService

  twostate predicate OnlyTables(w: World)
    reads w
  {
    w.claims == old(w.claims) && w.submissions == old(w.submissions) && w.replies == old(w.replies)
  }

  /** _proposals_for_event. */
  method ProposalsForEvent(kind: EventType, now: int, timezone: int) returns (proposals: seq<Proposal>)
    requires IsPolicyEvent(kind)
    ensures proposals == Proposals(kind, now, timezone)
  {
    if kind == AccountDelinquent {
      var call := ComputeNextBusinessDayAt10(now, timezone);
      return [Proposal(Email, now), Proposal(Sms, now + 30 * MINUTE), Proposal(Call, call)];
    }
    return [Proposal(Email, now), Proposal(Sms, now + 15 * MINUTE)];
  }

  /** The rows of one candidate channel: the decision is always stored, a task only if it may be
      scheduled. `g` is the loop's state so far. */
  method StoreProposal(w: World, s: Subject, p: Proposal, result: PolicyResult, ghost g: Progress)
    returns (created: bool)
    requires g.db == w.Db()
    modifies w
    ensures OnlyTables(w)
    ensures StoreVerdict(g, s, p, result).db == w.Db() && created == TaskTime(p, result).Some?
  {
    created := false;
    var decision := |w.decisions|;
    w.decisions := w.decisions
        + [Decision(s.event, s.accountId, s.customerId, result.channel, result.decision, result.reasons)];
    w.audit := w.audit + [PolicyDecisionRecorded(s.event, decision, result.decision, result.channel, result.reasons)];
    if result.decision == Block {
      w.audit := w.audit + [OutreachBlocked(s.event, s.accountId, result.channel, result.reasons)];
      return;
    }
    var scheduledAt := p.at;
    if result.decision == Defer {
      w.audit := w.audit + [OutreachDeferred(s.event, s.accountId, result.channel, result.reasons, result.deferUntil)];
      if FrequencyCapExceeded in result.reasons || result.deferUntil == None {
        return;
      }
      scheduledAt := result.deferUntil.value;
    }
    w.tasks := w.tasks + [Task(s.event, decision, s.accountId, s.customerId, result.channel, Scheduled,
                               scheduledAt, 0, MAX_ATTEMPTS, None, w.clock)];
    w.audit := w.audit + [OutreachTaskScheduled(s.event, s.accountId, result.channel, scheduledAt)];
    created := true;
  }

  /** One candidate channel: `outcome` is the policy's verdict, `created` says whether a task row was
      added. */
  method PlanProposal(w: World, s: Subject, p: Proposal, recent: nat, cap: nat, ghost g: Progress)
    returns (outcome: Outcome, created: bool)
    requires g.db == w.Db() && g.recent == recent
    modifies w
    ensures OnlyTables(w)
    ensures var g' := PlanOne(g, s, p, cap);
      && g'.db == w.Db() && g'.decisions == g.decisions + 1
      && g'.created == g.created + (if created then 1 else 0) && g'.recent - g.recent == g'.created - g.created
      && g'.blocked == g.blocked + (if outcome.Block? then 1 else 0)
      && g'.deferred == g.deferred + (if outcome.Defer? then 1 else 0)
  {
    var result := EvaluatePolicy(InputFor(s, p, recent, cap));
    outcome := result.decision;
    created := StoreProposal(w, s, p, result, g);
  }

  lemma PlanAllFrom(g: Progress, s: Subject, proposals: seq<Proposal>, i: nat, cap: nat)
    requires i < |proposals|
    ensures PlanAll(g, s, proposals[i..], cap)
         == PlanAll(PlanOne(g, s, proposals[i], cap), s, proposals[i + 1..], cap)
  {
    assert proposals[i..][0] == proposals[i] && proposals[i..][1..] == proposals[i + 1..];
  }

  /** The loop of _plan_policy_event. */
  method PlanProposals(w: World, s: Subject, proposals: seq<Proposal>, recentAttempts: nat, cap: nat)
    returns (r: PlannerResult)
    modifies w
    ensures OnlyTables(w)
    ensures var g := PlanAll(Progress(old(w.Db()), recentAttempts, 0, 0, 0, 0), s, proposals, cap);
      w.Db() == g.db && r == PlannerResult(g.created, 0, g.decisions, g.blocked, g.deferred)
  {
    ghost var g := Progress(w.Db(), recentAttempts, 0, 0, 0, 0);
    ghost var end := PlanAll(g, s, proposals, cap);
    assert proposals[0..] == proposals;
    var recent, created, decisions, blocked, deferred := recentAttempts, 0, 0, 0, 0;
    var i := 0;
    while i < |proposals|
      invariant 0 <= i <= |proposals|
      invariant OnlyTables(w)
      invariant g.db == w.Db() && g.recent == recent && g.created == created
      invariant g.decisions == decisions && g.blocked == blocked && g.deferred == deferred
      invariant PlanAll(g, s, proposals[i..], cap) == end
    {
      PlanAllFrom(g, s, proposals, i, cap);
      var outcome, added := PlanProposal(w, s, proposals[i], recent, cap, g);
      g := PlanOne(g, s, proposals[i], cap);
      decisions := decisions + 1;
      if outcome == Block {
        blocked := blocked + 1;
      }
      if outcome == Defer {
        deferred := deferred + 1;
      }
      if added {
        created := created + 1;
        recent := recent + 1;
      }
      i := i + 1;
    }
    r := PlannerResult(created, 0, decisions, blocked, deferred);
  }

  /** _plan_policy_event. */
  method PlanPolicyEventRows(w: World, s: Subject, kind: EventType, now: int, cap: nat) returns (r: PlannerResult)
    requires IsPolicyEvent(kind)
    modifies w
    ensures OnlyTables(w)
    ensures Planned(w.Db(), r) == PlanPolicyEvent(old(w.Db()), s, kind, now, cap)
  {
    if exists d :: 0 <= d < |w.decisions| && w.decisions[d].event == s.event {
      return NOTHING_DONE;
    }
    var recent := RecentAttempts(w.Db(), s.customerId, now);
    var proposals := ProposalsForEvent(kind, now, s.customer.timezone);
    r := PlanProposals(w, s, proposals, recent, cap);
  }

  /** The loop of _cancel_scheduled_tasks: every selected row is overwritten, whatever it holds now. */
  method CancelSelected(w: World, event: nat, ids: seq<nat>) returns (cancelled: nat)
    requires AllBelow(ids, |w.tasks|)
    modifies w
    ensures OnlyTables(w)
    ensures w.Db() == CancelAll(old(w.Db()), event, ids) && cancelled == |ids|
  {
    var i := 0;
    while i < |ids|
      invariant 0 <= i <= |ids|
      invariant OnlyTables(w)
      invariant |w.tasks| == |old(w.tasks)|
      invariant CancelAll(w.Db(), event, ids[i..]) == CancelAll(old(w.Db()), event, ids)
    {
      assert ids[i..][1..] == ids[i + 1..];
      w.tasks := w.tasks[ids[i] := w.tasks[ids[i]].(status := Cancelled)];
      w.audit := w.audit + [OutreachCancelled(ids[i], Some(event))];
      i := i + 1;
    }
    cancelled := |ids|;
  }

  /** The cancellation and state-change events. */
  method PlanCancellationRows(w: World, s: Subject, kind: EventType, earlier: Option<seq<nat>>)
    returns (r: PlannerResult)
    requires s.customerId in w.customers && s.accountId in w.accounts && !IsPolicyEvent(kind)
    requires InRange(w.Db(), earlier)
    modifies w
    ensures OnlyTables(w)
    ensures Planned(w.Db(), r) == PlanCancellation(old(w.Db()), s, kind, earlier)
  {
    if ProcessedMarker(s.event, kind) in w.audit {
      return NOTHING_DONE;
    }
    var ids := if earlier.Some? then earlier.value else ScheduledFor(w.tasks, s.customerId, s.accountId);
    if kind == OptOutReceived {
      w.customers := w.customers[s.customerId := w.customers[s.customerId].(optedOut := true)];
      w.audit := w.audit + [CustomerOptOut(s.event, s.customerId)];
    } else if kind == HardshipRequested {
      w.audit := w.audit + [HardshipEscalation(s.event, s.accountId)];
    } else if kind == AccountPaused {
      w.accounts := w.accounts[s.accountId := w.accounts[s.accountId].(status := Paused)];
      w.audit := w.audit + [AccountPause(s.event, s.accountId)];
    }
    assert w.Db() == StateChange(old(w.Db()), s, kind);
    var cancelled := CancelSelected(w, s.event, ids);
    w.audit := w.audit + [ProcessedMarker(s.event, kind)];
    r := PlannerResult(0, cancelled, 0, 0, 0);
  }

  /** plan_outreach_for_event: `planned` is false where it raises ValueError, and then nothing changed. */
  method PlanOutreachForEvent(w: World, event: nat, now: int, cap: nat, earlier: Option<seq<nat>>)
    returns (planned: bool, r: PlannerResult)
    requires InRange(w.Db(), earlier)
    modifies w
    ensures OnlyTables(w)
    ensures PlanEvent(old(w.Db()), event, now, cap, earlier) == if planned then Planned(w.Db(), r) else PlanError
    ensures !planned ==> w.Db() == old(w.Db())
  {
    planned, r := false, NOTHING_DONE;
    if event >= |w.events| {
      return;
    }
    var e := w.events[event];
    if e.customer !in w.customers || e.account !in w.accounts || w.accounts[e.account].customer != e.customer {
      return;
    }
    var s := Subject(event, e.account, e.customer, w.customers[e.customer], w.accounts[e.account].status);
    planned := true;
    if IsPolicyEvent(e.kind) {
      r := PlanPolicyEventRows(w, s, e.kind, now, cap);
    } else {
      r := PlanCancellationRows(w, s, e.kind, earlier);
    }
  }
}
