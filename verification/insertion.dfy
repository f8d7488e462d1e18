/** Committing one event: the store invariant, and what the commit leaves for later replies. */
module Insertion {
  import opened Counting
  import opened Models
  import opened InboundEvents
  import opened Policy
  import opened Planner
  import opened Ingestion
  import opened Evolution
  import opened StoreInvariant

  /** Every event was planned: a policy event has decisions, any other its processed marker. */
  ghost predicate EventHandled(db: Store, e: nat)
    requires e < |db.events|
  {
    && db.events[e].status.Processed?
    && (if IsPolicyEvent(db.events[e].kind) then HasDecision(db, e) else HasMarker(db, e, db.events[e].kind))
  }

  ghost predicate AllHandled(db: Store) {
    forall e :: 0 <= e < |db.events| ==> EventHandled(db, e)
  }

  /** An event plans at most three tasks. */
  ghost predicate SizeBound(db: Store) {
    |db.tasks| <= 3 * |db.events|
  }

  lemma {:induction false} CancelAllKeeps(db: Store, cause: nat, ids: seq<nat>)
    requires StoreInv(db) && AllBelow(ids, |db.tasks|) && cause < |db.events|
    ensures StoreInv(CancelAll(db, cause, ids))
    decreases |ids|
  {
    if |ids| > 0 {
      var t := db.tasks[ids[0]];
      assert RowSane(t, db.clock);
      WriteRowKeeps(db, ids[0], t.(status := Cancelled), OutreachCancelled(ids[0], Some(cause)));
      CancelAllKeeps(CancelOne(db, cause, ids[0]), cause, ids[1..]);
    }
  }

  lemma RecordedKeeps(db: Store, r: Request)
    requires StoreInv(db) && !KeyTaken(db.events, Key(r.source, r.externalId))
    requires UpsertAccount(db.accounts, r.account, r.customer.externalId).Some?
    ensures StoreInv(BaseOf(db, r)) && SubjectFits(BaseOf(db, r), SubjectOf(db, r))
  {
    NeutralKeeps(db, BaseOf(db, r));
  }

  lemma StateChangeKeeps(db: Store, r: Request)
    requires StoreInv(BaseOf(db, r))
    ensures StoreInv(StateChange(BaseOf(db, r), SubjectOf(db, r), r.kind))
  {
    var base := BaseOf(db, r);
    var db' := StateChange(base, SubjectOf(db, r), r.kind);
    assert KeysUnique(base);
    forall a | a in db'.accounts ensures db'.accounts[a].customer in db'.customers {
      assert a in base.accounts;
    }
    NeutralKeeps(base, db');
  }

  lemma SelectedInRange(db: Store, r: Request, earlier: Option<seq<nat>>)
    requires InRange(db, earlier)
    ensures AllBelow(SelectedBy(db, r, earlier), |db.tasks|)
  {
  }

  lemma BatchKeeps(db: Store, r: Request, earlier: Option<seq<nat>>)
    requires StoreInv(BaseOf(db, r)) && InRange(db, earlier)
    ensures StoreInv(CancelledBatch(db, r, earlier))
  {
    StateChangeKeeps(db, r);
    StateChangeShape(db, r);
    SelectedInRange(db, r, earlier);
    CancelAllKeeps(StateChange(BaseOf(db, r), SubjectOf(db, r), r.kind), |db.events|, SelectedBy(db, r, earlier));
  }

  lemma MarkerKeeps(db: Store, event: nat, kind: EventType)
    requires StoreInv(db) && event < |db.events|
    ensures StoreInv(db.(audit := db.audit + [ProcessedMarker(event, kind)]))
  {
    var db' := db.(audit := db.audit + [ProcessedMarker(event, kind)]);
    assert KeysUnique(db) && Lineage(db);
    NeutralKeeps(db, db');
  }

  lemma MarkProcessedKeeps(db: Store, event: nat)
    requires StoreInv(db) && event < |db.events|
    ensures StoreInv(MarkProcessed(db, event))
  {
    var db' := MarkProcessed(db, event);
    assert KeysUnique(db) && Lineage(db);
    NeutralKeeps(db, db');
  }

  lemma PassKeeps(db: Store, r: Request)
    requires StoreInv(BaseOf(db, r)) && SubjectFits(BaseOf(db, r), SubjectOf(db, r))
    requires IsPolicyEvent(r.kind) && NoRowsAhead(db)
    ensures StoreInv(PassOf(db, r).db)
  {
    PlanAllKeeps(StartOfPass(db, r), SubjectOf(db, r), Proposals(r.kind, r.occurredAt, r.customer.timezone),
                 FREQUENCY_CAP);
  }

  /** Can this request be committed as a new event? */
  predicate Insertable(db: Store, r: Request) {
    && !(r.account.externalId in db.accounts && db.accounts[r.account.externalId].customer != r.customer.externalId)
    && !KeyTaken(db.events, Key(r.source, r.externalId))
  }

  function InsertedStore(db: Store, r: Request, earlier: Option<seq<nat>>): Store
    requires InRange(db, earlier) && |db.events| < |PlannedStore(db, r, earlier).events|
  {
    MarkProcessed(PlannedStore(db, r, earlier), |db.events|)
  }

  lemma InsertKeeps(db: Store, r: Request, earlier: Option<seq<nat>>)
    requires StoreInv(db) && InRange(db, earlier) && Insertable(db, r)
    ensures |db.events| < |PlannedStore(db, r, earlier).events|
    ensures StoreInv(InsertedStore(db, r, earlier))
  {
    PlannedEvents(db, r, earlier);
    RecordedKeeps(db, r);
    if IsPolicyEvent(r.kind) {
      PassKeeps(db, r);
    } else {
      BatchKeeps(db, r, earlier);
      MarkerKeeps(CancelledBatch(db, r, earlier), |db.events|, r.kind);
    }
    MarkProcessedKeeps(PlannedStore(db, r, earlier), |db.events|);
  }

  // Handled events and the number of tasks.

  lemma {:induction false} PlanAllSizes(g: Progress, s: Subject, proposals: seq<Proposal>, cap: nat)
    ensures var g' := PlanAll(g, s, proposals, cap);
      && |g'.db.decisions| == |g.db.decisions| + |proposals|
      && g'.decisions == g.decisions + |proposals|
      && |g'.db.tasks| <= |g.db.tasks| + |proposals|
      && |g'.db.tasks| - |g.db.tasks| == g'.created - g.created == g'.recent - g.recent
    decreases |proposals|
  {
    if |proposals| > 0 {
      PlanAllSizes(PlanOne(g, s, proposals[0], cap), s, proposals[1..], cap);
    }
  }

  lemma NewEventHandled(db: Store, r: Request, earlier: Option<seq<nat>>)
    requires InRange(db, earlier)
    ensures if IsPolicyEvent(r.kind) then HasDecision(PlannedStore(db, r, earlier), |db.events|)
            else HasMarker(PlannedStore(db, r, earlier), |db.events|, r.kind)
  {
    var db' := PlannedStore(db, r, earlier);
    if IsPolicyEvent(r.kind) {
      var s, proposals := SubjectOf(db, r), Proposals(r.kind, r.occurredAt, r.customer.timezone);
      PlanAllSizes(StartOfPass(db, r), s, proposals, FREQUENCY_CAP);
      PlanAllShape(StartOfPass(db, r), s, proposals, FREQUENCY_CAP);
      assert DecisionAbout(db'.decisions[|db.decisions|], s);
    } else {
      assert db'.audit[|db'.audit| - 1] == ProcessedMarker(|db.events|, r.kind);
    }
  }

  lemma InsertSize(db: Store, r: Request, earlier: Option<seq<nat>>)
    requires InRange(db, earlier)
    ensures |PlannedStore(db, r, earlier).tasks| <= |db.tasks| + 3
  {
    if IsPolicyEvent(r.kind) {
      PlanAllSizes(StartOfPass(db, r), SubjectOf(db, r), Proposals(r.kind, r.occurredAt, r.customer.timezone),
                   FREQUENCY_CAP);
    } else {
      StateChangeShape(db, r);
    }
  }

  lemma InsertHandles(db: Store, r: Request, earlier: Option<seq<nat>>)
    requires AllHandled(db) && SizeBound(db) && InRange(db, earlier)
    ensures |db.events| < |PlannedStore(db, r, earlier).events|
    ensures AllHandled(InsertedStore(db, r, earlier)) && SizeBound(InsertedStore(db, r, earlier))
  {
    PlannedEvents(db, r, earlier);
    InsertAppends(db, r, earlier);
    InsertSize(db, r, earlier);
    NewEventHandled(db, r, earlier);
    var db' := InsertedStore(db, r, earlier);
    forall x | 0 <= x < |db'.events| ensures EventHandled(db', x) {
      if x < |db.events| {
        assert EventHandled(db, x);
        HandledStays(db, db', x);
      }
    }
  }

  lemma HandledStays(db: Store, db': Store, e: nat)
    requires e < |db.events| <= |db'.events| && EventHandled(db, e)
    requires db'.events[e] == db.events[e] && db.decisions <= db'.decisions && db.audit <= db'.audit
    ensures EventHandled(db', e)
  {
    if IsPolicyEvent(db.events[e].kind) {
      var d :| 0 <= d < |db.decisions| && db.decisions[d].event == e;
      assert db'.decisions[d].event == e;
    } else {
      var i :| 0 <= i < |db.audit| && db.audit[i] == ProcessedMarker(e, db.events[e].kind);
      assert db'.audit[i] == db.audit[i];
    }
  }

  // The reply rebuilt from rows right after the commit is the planner's own summary.

  /** The loop's counters are the counts a reply would be rebuilt from. */
  ghost predicate Tallied(g: Progress, event: nat) {
    && g.created == Count(g.db.tasks, JoinsEvent(g.db.decisions, event))
    && g.blocked == Count(g.db.decisions, OutcomeOf(event, Block))
    && g.deferred == Count(g.db.decisions, OutcomeOf(event, Defer))
    && g.decisions == Count(g.db.decisions, DecidedFor(event))
  }

  ghost predicate JoinsInRange(db: Store) {
    forall i :: 0 <= i < |db.tasks| ==> db.tasks[i].decision < |db.decisions|
  }

  lemma PlanOneTalliesDecisions(g: Progress, s: Subject, p: Proposal, cap: nat)
    requires Tallied(g, s.event)
    ensures var g' := PlanOne(g, s, p, cap);
      && g'.blocked == Count(g'.db.decisions, OutcomeOf(s.event, Block))
      && g'.deferred == Count(g'.db.decisions, OutcomeOf(s.event, Defer))
      && g'.decisions == Count(g'.db.decisions, DecidedFor(s.event))
  {
    var row := DecisionRow(s, Evaluate(InputFor(s, p, g.recent, cap)));
    CountSnoc(g.db.decisions, row, OutcomeOf(s.event, Block));
    CountSnoc(g.db.decisions, row, OutcomeOf(s.event, Defer));
    CountSnoc(g.db.decisions, row, DecidedFor(s.event));
  }

  /** A decision appended joins only the task appended with it. */
  lemma JoinGrows(tasks: seq<Task>, decisions: seq<Decision>, d: Decision, event: nat)
    requires forall i :: 0 <= i < |tasks| ==> tasks[i].decision < |decisions|
    ensures Count(tasks, JoinsEvent(decisions + [d], event)) == Count(tasks, JoinsEvent(decisions, event))
    ensures forall t: Task :: t.decision == |decisions| && d.event == event ==>
      Count(tasks + [t], JoinsEvent(decisions + [d], event)) == Count(tasks, JoinsEvent(decisions, event)) + 1
  {
    CountAgree(tasks, JoinsEvent(decisions, event), tasks, JoinsEvent(decisions + [d], event));
    forall t: Task | t.decision == |decisions| && d.event == event
      ensures Count(tasks + [t], JoinsEvent(decisions + [d], event)) == Count(tasks, JoinsEvent(decisions, event)) + 1
    {
      CountSnoc(tasks, t, JoinsEvent(decisions + [d], event));
    }
  }

  lemma PlanOneTallies(g: Progress, s: Subject, p: Proposal, cap: nat)
    requires Tallied(g, s.event) && JoinsInRange(g.db)
    ensures Tallied(PlanOne(g, s, p, cap), s.event) && JoinsInRange(PlanOne(g, s, p, cap).db)
  {
    PlanOneTalliesDecisions(g, s, p, cap);
    JoinGrows(g.db.tasks, g.db.decisions, DecisionRow(s, Evaluate(InputFor(s, p, g.recent, cap))), s.event);
  }

  lemma {:induction false} PlanAllTallies(g: Progress, s: Subject, proposals: seq<Proposal>, cap: nat)
    requires Tallied(g, s.event) && JoinsInRange(g.db)
    ensures Tallied(PlanAll(g, s, proposals, cap), s.event)
    decreases |proposals|
  {
    if |proposals| > 0 {
      PlanOneTallies(g, s, proposals[0], cap);
      PlanAllTallies(PlanOne(g, s, proposals[0], cap), s, proposals[1..], cap);
    }
  }

  /** Nothing in the store counts for an event that does not exist yet. */
  lemma NothingCountedAhead(db: Store)
    requires NoRowsAhead(db) && JoinsInRange(db)
    ensures Count(db.tasks, JoinsEvent(db.decisions, |db.events|)) == 0
    ensures Count(db.decisions, OutcomeOf(|db.events|, Block)) == 0
    ensures Count(db.decisions, OutcomeOf(|db.events|, Defer)) == 0
    ensures Count(db.decisions, DecidedFor(|db.events|)) == 0
    ensures Count(db.audit, CancelledBy(|db.events|)) == 0
  {
    CountNone(db.tasks, JoinsEvent(db.decisions, |db.events|));
    CountNone(db.decisions, OutcomeOf(|db.events|, Block));
    CountNone(db.decisions, OutcomeOf(|db.events|, Defer));
    CountNone(db.decisions, DecidedFor(|db.events|));
    CountNone(db.audit, CancelledBy(|db.events|));
  }

  /** A batch writes one counted row per selected id. */
  lemma CancelAllCounts(db: Store, cause: nat, ids: seq<nat>)
    requires AllBelow(ids, |db.tasks|)
    ensures Count(CancelAll(db, cause, ids).audit, CancelledBy(cause)) == Count(db.audit, CancelledBy(cause)) + |ids|
  {
    CancelAllShape(db, cause, ids);
    var audit := CancelAll(db, cause, ids).audit;
    var added := audit[|db.audit|..];
    forall x | x in added ensures CancelledBy(cause)(x) {
      var k :| 0 <= k < |added| && added[k] == x;
      assert audit[|db.audit| + k] == OutreachCancelled(ids[k], Some(cause));
    }
    assert audit == db.audit + added;
    CountConcat(db.audit, added, CancelledBy(cause));
    CountAll(added, CancelledBy(cause));
  }

  lemma BatchCounts(db: Store, r: Request, earlier: Option<seq<nat>>)
    requires NoRowsAhead(db) && JoinsInRange(db) && InRange(db, earlier)
    ensures Count(MarkedBatch(db, r, earlier).audit, CancelledBy(|db.events|)) == |SelectedBy(db, r, earlier)|
  {
    var e := |db.events|;
    var changed := StateChange(BaseOf(db, r), SubjectOf(db, r), r.kind);
    StateChangeShape(db, r);
    NothingCountedAhead(db);
    CountExtend(db.audit, changed.audit, CancelledBy(e));
    CancelAllCounts(changed, e, SelectedBy(db, r, earlier));
    CountSnoc(CancelledBatch(db, r, earlier).audit, ProcessedMarker(e, r.kind), CancelledBy(e));
  }

  lemma PassTallied(db: Store, r: Request)
    requires NoRowsAhead(db) && JoinsInRange(db) && IsPolicyEvent(r.kind)
    ensures Tallied(PassOf(db, r), |db.events|)
  {
    NothingCountedAhead(db);
    PlanAllTallies(StartOfPass(db, r), SubjectOf(db, r), Proposals(r.kind, r.occurredAt, r.customer.timezone),
                   FREQUENCY_CAP);
  }

  lemma PlanningCancelsNothing(db: Store, db': Store, s: Subject)
    requires PlansFor(db, db', s)
    ensures Count(db'.audit, CancelledBy(s.event)) == Count(db.audit, CancelledBy(s.event))
  {
    assert forall i :: |db.audit| <= i < |db'.audit| ==> PlanningRow(db'.audit[i], s.event);
    CountExtend(db.audit, db'.audit, CancelledBy(s.event));
  }

  lemma PassCancelsNothing(db: Store, r: Request)
    requires NoRowsAhead(db) && JoinsInRange(db) && IsPolicyEvent(r.kind)
    ensures Count(PassOf(db, r).db.audit, CancelledBy(|db.events|)) == 0
  {
    NothingCountedAhead(db);
    CountExtend(db.audit, BaseOf(db, r).audit, CancelledBy(|db.events|));
    PlanAllShape(StartOfPass(db, r), SubjectOf(db, r), Proposals(r.kind, r.occurredAt, r.customer.timezone),
                 FREQUENCY_CAP);
    PlanningCancelsNothing(BaseOf(db, r), PassOf(db, r).db, SubjectOf(db, r));
  }

  lemma PassReply(db: Store, r: Request)
    requires NoRowsAhead(db) && JoinsInRange(db) && IsPolicyEvent(r.kind)
    ensures Reconstruct(PassOf(db, r).db, |db.events|) == ResultFromPlanner(|db.events|, PlannedResult(db, r, None))
  {
    PassTallied(db, r);
    PassCancelsNothing(db, r);
  }

  lemma BatchReply(db: Store, r: Request, earlier: Option<seq<nat>>)
    requires NoRowsAhead(db) && JoinsInRange(db) && InRange(db, earlier) && !IsPolicyEvent(r.kind)
    ensures Reconstruct(MarkedBatch(db, r, earlier), |db.events|)
      == ResultFromPlanner(|db.events|, PlannedResult(db, r, earlier))
  {
    var db' := MarkedBatch(db, r, earlier);
    NothingCountedAhead(db);
    BatchCounts(db, r, earlier);
    StateChangeShape(db, r);
    CancelAllShape(StateChange(BaseOf(db, r), SubjectOf(db, r), r.kind), |db.events|, SelectedBy(db, r, earlier));
    CountAgree(db.tasks, JoinsEvent(db.decisions, |db.events|), db'.tasks, JoinsEvent(db.decisions, |db.events|));
  }

  lemma ReplyMatchesPlan(db: Store, r: Request, earlier: Option<seq<nat>>)
    requires NoRowsAhead(db) && JoinsInRange(db) && InRange(db, earlier)
    ensures |db.events| < |PlannedStore(db, r, earlier).events|
    ensures Reconstruct(InsertedStore(db, r, earlier), |db.events|)
         == ResultFromPlanner(|db.events|, PlannedResult(db, r, earlier))
  {
    PlannedEvents(db, r, earlier);
    assert Reconstruct(InsertedStore(db, r, earlier), |db.events|)
        == Reconstruct(PlannedStore(db, r, earlier), |db.events|);
    if IsPolicyEvent(r.kind) {
      PassReply(db, r);
    } else {
      BatchReply(db, r, earlier);
    }
  }
}
