/** What holds in every reachable state, whatever the interleaving of submitters, workers,
    operators, crashes and late cancellations. */
module Guarantees {
  import opened Counting
  import opened Models
  import opened WallClock
  import opened InboundEvents
  import opened Policy
  import opened Planner
  import opened Ingestion
  import opened RowUpdates
  import opened Service
  import opened Evolution
  import opened AuditFold
  import opened StoreInvariant
  import opened Insertion
  import opened Delivery
  import opened RunInvariant

  function Reached(clock: int, steps: seq<Step>): System {
    Run(Initial(clock), steps)
  }

  // Delivery.

  /** The provider accepts at most one message per task. */
  lemma AtMostOneDelivery(clock: int, steps: seq<Step>, j: nat, k: nat)
    requires var s := Reached(clock, steps);
      j < |s.claims| && k < |s.claims| && s.claims[j].task == s.claims[k].task
      && s.claims[j].delivered && s.claims[k].delivered
    ensures j == k
  {
    ReachableInv(clock, steps);
  }

  /** At most one worker is busy with a task, and while it is, the task cannot be claimed again. */
  lemma ExclusiveClaim(clock: int, steps: seq<Step>, j: nat, k: nat)
    requires var s := Reached(clock, steps);
      IsOpen(s, j) && IsOpen(s, k) && s.claims[j].task == s.claims[k].task
    ensures j == k
    ensures forall now :: !CanClaim(Reached(clock, steps).db, Reached(clock, steps).claims[j].task, now)
  {
    ReachableInv(clock, steps);
    var s := Reached(clock, steps);
    assert ClaimFits(s.claims[j], s.db.tasks[s.claims[j].task]);
  }

  /** A recorded failure is decided on the row's own counters: a worker whose update goes through
      holds an exact copy of the row, and the task goes back to the queue just when attempts remain. */
  lemma StaleCopyIsCurrent(clock: int, steps: seq<Step>, k: nat)
    requires var s := Reached(clock, steps); k < |s.claims| && s.claims[k].phase.Raising?
    requires var s := Reached(clock, steps); Next(s, RecordFailure(k)).db != s.db
    ensures var s := Reached(clock, steps);
      var c := s.claims[k];
      && c.task < |s.db.tasks|
      && var t := s.db.tasks[c.task];
      var t' := Next(s, RecordFailure(k)).db.tasks[c.task];
      && c.attempts == t.attempts && c.maxAttempts == t.maxAttempts && c.scheduledAt == t.scheduledAt
      && t' == t.(status := if t.attempts < 3 then Scheduled else TaskStatus.Failed,
                  scheduledAt := if t.attempts < 3 then c.now + c.retryDelay else t.scheduledAt,
                  lastError := Some(c.phase.error))
  {
    ReachableInv(clock, steps);
    var s := Reached(clock, steps);
    var c := s.claims[k];
    assert ClaimFits(c, s.db.tasks[c.task]) && RowSane(s.db.tasks[c.task], s.db.clock);
  }

  /** A task is claimed at most three times, counted by its own attempt column, although the claim
      itself never looks at the maximum. */
  lemma AttemptsBounded(clock: int, steps: seq<Step>, id: nat)
    requires id < |Reached(clock, steps).db.tasks|
    ensures var s := Reached(clock, steps);
      && ClaimsOf(s, id) == s.db.tasks[id].attempts <= 3
      && (s.db.tasks[id].status.Scheduled? ==> s.db.tasks[id].attempts < 3)
  {
    ReachableInv(clock, steps);
    var s := Reached(clock, steps);
    assert RowSane(s.db.tasks[id], s.db.clock);
  }

  /** In every reachable state a manual result is recorded exactly when the status read before is
      scheduled, dispatching or failed and still stands; the row is then sent without an error, or
      failed with the text given or the standard one, and otherwise nothing changes. */
  lemma ManualResultIff(
    clock: int, steps: seq<Step>, id: nat, previous: TaskStatus, sent: bool, detailsError: Option<string>)
    requires id < |Reached(clock, steps).db.tasks|
    ensures var s := Reached(clock, steps);
      var s' := Next(s, ManualResult(id, previous, sent, detailsError));
      var t := s.db.tasks[id];
      var status := if sent then Sent else TaskStatus.Failed;
      var error := if sent then None
                   else if detailsError.Some? then detailsError
                   else Some("manual delivery result failed");
      && ((previous == Scheduled || previous == Dispatching || previous == TaskStatus.Failed) && t.status == previous
          <==> s' != s)
      && (s' != s ==> s' == s.(db := s.db.(
            tasks := s.db.tasks[id := t.(status := status, lastError := error)],
            audit := s.db.audit + [DeliveryResultRecorded(id, detailsError, previous, status)])))
  {
    var s := Reached(clock, steps);
    var s' := Next(s, ManualResult(id, previous, sent, detailsError));
    if CanRecordManually(s.db, id, previous) {
      assert |s'.db.audit| == |s.db.audit| + 1;
    }
  }

  // The audit log.

  /** Reading the log from the start gives every task row exactly. */
  lemma AuditDeterminesTask(clock: int, steps: seq<Step>, id: nat)
    requires id < |Reached(clock, steps).db.tasks|
    ensures var db := Reached(clock, steps).db;
      Fold(db.audit, id, db.tasks[id].event, db.tasks[id].channel) == Known(StateOf(db.tasks[id]))
  {
    ReachableInv(clock, steps);
    var db := Reached(clock, steps).db;
    assert LoggedRow(db.audit, id, db.tasks[id]);
  }

  function StartedFor(id: nat): AuditRow -> bool {
    (r: AuditRow) => r.DispatchStarted? && r.task == id
  }

  /** In any log that makes sense for a task, the attempt count is the number of dispatch_started rows. */
  lemma {:induction false} FoldCountsStarts(audit: seq<AuditRow>, id: nat, event: nat, channel: Channel)
    ensures match Fold(audit, id, event, channel)
            case Absent => Count(audit, StartedFor(id)) == 0
            case Known(row) => Count(audit, StartedFor(id)) == row.attempts
            case Corrupt => true
  {
    if |audit| > 0 {
      var m := |audit| - 1;
      FoldCountsStarts(audit[..m], id, event, channel);
      assert audit == audit[..m] + [audit[m]];
      CountSnoc(audit[..m], audit[m], StartedFor(id));
    }
  }

  lemma AttemptsAreLogged(clock: int, steps: seq<Step>, id: nat)
    requires id < |Reached(clock, steps).db.tasks|
    ensures var s := Reached(clock, steps);
      s.db.tasks[id].attempts == Count(s.db.audit, StartedFor(id)) == ClaimsOf(s, id)
  {
    AuditDeterminesTask(clock, steps, id);
    AttemptsBounded(clock, steps, id);
    var db := Reached(clock, steps).db;
    FoldCountsStarts(db.audit, id, db.tasks[id].event, db.tasks[id].channel);
  }

  // Ingestion.

  /** All answers ever given for one source identity are the same: the original, every duplicate
      submission and every submission that lost the race to insert. */
  lemma OneAnswerPerIdentity(clock: int, steps: seq<Step>, i: nat, j: nat)
    requires var s := Reached(clock, steps);
      i < |s.replies| && j < |s.replies|
      && s.replies[i].source == s.replies[j].source && s.replies[i].externalId == s.replies[j].externalId
    ensures Reached(clock, steps).replies[i].result == Reached(clock, steps).replies[j].result
  {
    ReachableInv(clock, steps);
    var s := Reached(clock, steps);
    assert ReplyHolds(s.db, s.replies[i]) && ReplyHolds(s.db, s.replies[j]);
    IdentityUnique(s.db, s.replies[i].result.event, s.replies[j].result.event);
  }

  lemma IdentityUnique(db: Store, e: nat, f: nat)
    requires KeysUnique(db) && e < |db.events| && f < |db.events|
    requires db.events[e].source == db.events[f].source && db.events[e].externalId == db.events[f].externalId
    ensures e == f
  {
  }

  /** At most one event per source identity, however many submitters race. */
  lemma OneEventPerIdentity(clock: int, steps: seq<Step>, e: nat, f: nat)
    requires var events := Reached(clock, steps).db.events;
      e < |events| && f < |events|
      && events[e].source == events[f].source && events[e].externalId == events[f].externalId
    ensures e == f
  {
    ReachableInv(clock, steps);
    IdentityUnique(Reached(clock, steps).db, e, f);
  }

  /** Submitting an event again after it was answered, at any later point of any run, changes no
      row, holds nothing open, and gives the first answer again. */
  lemma ReplayAnswersTheSame(clock: int, steps: seq<Step>, later: seq<Step>, i: nat, r: Request)
    requires var s := Reached(clock, steps);
      i < |s.replies| && r.source == s.replies[i].source && r.externalId == s.replies[i].externalId
    ensures var first := Reached(clock, steps).replies[i];
      var s := Reached(clock, steps + later);
      Next(s, Submit(r)) == s.(replies := s.replies + [first])
  {
    var s0 := Reached(clock, steps);
    var s := Reached(clock, steps + later);
    RunConcat(Initial(clock), steps, later);
    ReachableInv(clock, steps);
    RepliesGrow(s0, later);
    ReachableInv(clock, steps + later);
    assert ReplyHolds(s.db, s0.replies[i]);
    var e := FindEvent(s.db.events, r.source, r.externalId);
    IdentityUnique(s.db, e.value, s0.replies[i].result.event);
  }

  lemma {:induction false} RepliesGrow(s: System, steps: seq<Step>)
    ensures s.replies <= Run(s, steps).replies
    decreases |steps|
  {
    if |steps| > 0 {
      RepliesGrow(Next(s, steps[0]), steps[1..]);
    }
  }

  lemma InsertVerdict(db: Store, r: Request, earlier: Option<seq<nat>>)
    requires NoRowsAhead(db) && JoinsInRange(db) && InRange(db, earlier)
    ensures Insertable(db, r) ==>
      && |db.events| < |PlannedStore(db, r, earlier).events|
      && |InsertedStore(db, r, earlier).events| == |db.events| + 1
      && InsertEvent(db, r, earlier)
         == Accepted(InsertedStore(db, r, earlier), Reconstruct(InsertedStore(db, r, earlier), |db.events|))
    ensures !Insertable(db, r) ==> !InsertEvent(db, r, earlier).Accepted?
  {
    VerdictOf(db, r, earlier);
    PlannedEvents(db, r, earlier);
    if Insertable(db, r) {
      ReplyMatchesPlan(db, r, earlier);
    }
  }

  /** The row an event is stored as. */
  lemma EventRowInColumns(db: Store, r: Request, earlier: Option<seq<nat>>)
    requires InRange(db, earlier)
    ensures |db.events| < |PlannedStore(db, r, earlier).events|
    ensures InsertedStore(db, r, earlier).events == db.events + [
      Event(r.source, r.externalId, r.kind, r.customer.externalId, r.account.externalId, r.customer.timezone,
            r.source + [31 as char] + r.externalId, Processed)]
  {
    PlannedEvents(db, r, earlier);
  }

  lemma InsertableInColumns(db: Store, r: Request)
    ensures Insertable(db, r) <==>
      && (r.account.externalId in db.accounts ==> db.accounts[r.account.externalId].customer == r.customer.externalId)
      && (forall e :: 0 <= e < |db.events| ==> db.events[e].key != r.source + [31 as char] + r.externalId)
  {
    assert Key(r.source, r.externalId) == r.source + [31 as char] + r.externalId;
  }

  /** The step that inserts: everything, or nothing but an answer. */
  lemma InsertOutcome(s: System, i: nat, earlier: Option<seq<nat>>)
    requires NoRowsAhead(s.db) && JoinsInRange(s.db) && CanInsert(s, i, earlier)
    ensures var r := s.submissions[i].request;
      var s' := NextInsert(s, i, earlier);
      && |s.db.events| < |PlannedStore(s.db, r, earlier).events|
      && (Insertable(s.db, r) ==>
            && s'.db == InsertedStore(s.db, r, earlier)
            && s'.replies == s.replies + [ReplyTo(r, Reconstruct(s'.db, |s.db.events|))])
      && (!Insertable(s.db, r) ==> s'.db == s.db)
  {
    InsertVerdict(s.db, s.submissions[i].request, earlier);
    PlannedEvents(s.db, s.submissions[i].request, earlier);
  }

  /** A submission commits its event, as sent and marked processed, exactly when its account is not
      another customer's and no event has its key text; one that is refused, loses the race or hits a
      key collision leaves no row behind. */
  lemma OnlyAcceptedLeavesTrace(clock: int, steps: seq<Step>, i: nat, earlier: Option<seq<nat>>)
    requires CanInsert(Reached(clock, steps), i, earlier)
    ensures var s := Reached(clock, steps);
      var r := s.submissions[i].request;
      var s' := Next(s, Insert(i, earlier));
      var key := r.source + [31 as char] + r.externalId;
      var insertable :=
        && (r.account.externalId in s.db.accounts ==>
              s.db.accounts[r.account.externalId].customer == r.customer.externalId)
        && (forall e :: 0 <= e < |s.db.events| ==> s.db.events[e].key != key);
      && (insertable ==> s'.db.events == s.db.events + [
            Event(r.source, r.externalId, r.kind, r.customer.externalId, r.account.externalId, r.customer.timezone,
                  key, Processed)])
      && (!insertable ==> s'.db == s.db)
      && (insertable ==> s'.replies == s.replies + [ReplyTo(r, Reconstruct(s'.db, |s.db.events|))])
  {
    ReachableInv(clock, steps);
    var s := Reached(clock, steps);
    StoreJoins(s.db);
    InsertOutcome(s, i, earlier);
    InsertableInColumns(s.db, s.submissions[i].request);
    EventRowInColumns(s.db, s.submissions[i].request, earlier);
  }

  /** An answer counts rows: the tasks of the event, its blocked and its deferred decisions, the
      cancellations that name it, and all its decisions. */
  lemma AnswersCountRows(clock: int, steps: seq<Step>, i: nat)
    requires i < |Reached(clock, steps).replies|
    ensures var db := Reached(clock, steps).db;
      var p := Reached(clock, steps).replies[i].result;
      && p.created == Count(db.tasks, (t: Task) => t.event == p.event)
      && p.blocked == Count(db.decisions, (d: Decision) => d.event == p.event && d.outcome == Block)
      && p.deferred == Count(db.decisions, (d: Decision) => d.event == p.event && d.outcome == Defer)
      && p.cancelled == Count(db.audit, (r: AuditRow) => r.OutreachCancelled? && r.cause == Some(p.event))
      && p.decisions == Count(db.decisions, (d: Decision) => d.event == p.event)
  {
    ReachableInv(clock, steps);
    var db := Reached(clock, steps).db;
    var p := Reached(clock, steps).replies[i].result;
    assert ReplyHolds(db, Reached(clock, steps).replies[i]);
    assert forall t :: 0 <= t < |db.tasks| ==> TaskRefers(db.decisions, db.tasks[t]);
    CountAgree(db.tasks, JoinsEvent(db.decisions, p.event), db.tasks, (t: Task) => t.event == p.event);
    CountAgree(db.decisions, OutcomeOf(p.event, Block),
               db.decisions, (d: Decision) => d.event == p.event && d.outcome == Block);
    CountAgree(db.decisions, OutcomeOf(p.event, Defer),
               db.decisions, (d: Decision) => d.event == p.event && d.outcome == Defer);
    CountAgree(db.audit, CancelledBy(p.event),
               db.audit, (r: AuditRow) => r.OutreachCancelled? && r.cause == Some(p.event));
    CountAgree(db.decisions, DecidedFor(p.event), db.decisions, (d: Decision) => d.event == p.event);
  }

  /** A new identity is taken for another's, and ends in an error, only if the separator occurs in its
      source or its external id, and in its source or the source of an event already there. */
  lemma CollisionNeedsSeparator(clock: int, steps: seq<Step>, source: string, externalId: string)
    requires var db := Reached(clock, steps).db;
      FindEvent(db.events, source, externalId).None? && KeyTaken(db.events, Key(source, externalId))
    ensures SEPARATOR in source || SEPARATOR in externalId
    ensures var events := Reached(clock, steps).db.events;
      SEPARATOR in source || exists i :: 0 <= i < |events| && SEPARATOR in events[i].source
  {
    ReachableInv(clock, steps);
    var db := Reached(clock, steps).db;
    var i :| 0 <= i < |db.events| && db.events[i].key == Key(source, externalId);
    assert (db.events[i].source, db.events[i].externalId) != (source, externalId);
    KeyAmbiguousIff(source, externalId);
    if SEPARATOR !in source && SEPARATOR !in db.events[i].source {
      KeyInjective(source, externalId, db.events[i].source, db.events[i].externalId);
      assert false;
    }
  }

  // Planning.

  /** Running the planner again for an event that was ingested does nothing and counts nothing,
      whatever time, cap or earlier selection it is given. */
  lemma PlannerIsIdempotent(clock: int, steps: seq<Step>, event: nat, now: int, cap: nat, earlier: Option<seq<nat>>)
    requires event < |Reached(clock, steps).db.events| && InRange(Reached(clock, steps).db, earlier)
    ensures var db := Reached(clock, steps).db;
      PlanEvent(db, event, now, cap, earlier) == Planned(db, NOTHING_DONE)
  {
    ReachableInv(clock, steps);
    var db := Reached(clock, steps).db;
    assert EventHandled(db, event) && EventRefers(db, db.events[event]);
  }

  /** The planner raises exactly when the event, its customer or its account is missing, or the account
      is another customer's. */
  lemma PlanErrorIff(db: Store, event: nat, now: int, cap: nat, earlier: Option<seq<nat>>)
    requires InRange(db, earlier)
    ensures PlanEvent(db, event, now, cap, earlier).PlanError? <==>
      || event >= |db.events|
      || var e := db.events[event];
         e.customer !in db.customers || e.account !in db.accounts || db.accounts[e.account].customer != e.customer
  {
  }

  ghost predicate TaskFor(db: Store, event: nat, channel: Channel, t: nat) {
    t < |db.tasks| && db.tasks[t].event == event && db.tasks[t].channel == channel
  }

  ghost predicate DecisionFor(db: Store, event: nat, channel: Channel, d: nat) {
    d < |db.decisions| && db.decisions[d].event == event && db.decisions[d].channel == channel
  }

  /** A task exists for an event and channel exactly when the decision on them allows it, or defers
      it for quiet hours alone. */
  lemma TaskIffSchedulable(clock: int, steps: seq<Step>, event: nat, channel: Channel)
    ensures var db := Reached(clock, steps).db;
      (exists t: nat :: TaskFor(db, event, channel, t))
      <==> (exists d: nat :: DecisionFor(db, event, channel, d)
              && (db.decisions[d].outcome == Allow
                  || (db.decisions[d].outcome == Defer && db.decisions[d].reasons == [QuietHours])))
  {
    ReachableInv(clock, steps);
    var db := Reached(clock, steps).db;
    if t: nat :| TaskFor(db, event, channel, t) {
      assert TaskRefers(db.decisions, db.tasks[t]);
      assert DecisionFor(db, event, channel, db.tasks[t].decision);
    }
    if d: nat :| DecisionFor(db, event, channel, d) && Schedulable(db.decisions[d]) {
      assert HasTask(db.tasks, d);
      var t :| 0 <= t < |db.tasks| && db.tasks[t].decision == d;
      assert TaskRefers(db.decisions, db.tasks[t]);
      assert TaskFor(db, event, channel, t);
    }
  }

  /** Each event decides at most once on each channel, and every decision agrees with its event and
      with the owner of its account. */
  lemma DecisionLineage(clock: int, steps: seq<Step>, d: nat, e: nat)
    requires d < |Reached(clock, steps).db.decisions| && e < |Reached(clock, steps).db.decisions|
    ensures var db := Reached(clock, steps).db;
      var a, b := db.decisions[d], db.decisions[e];
      && (a.event == b.event && a.channel == b.channel ==> d == e)
      && a.event < |db.events| && a.account == db.events[a.event].account && a.account in db.accounts
      && a.customer == db.events[a.event].customer == db.accounts[a.account].customer
  {
    ReachableInv(clock, steps);
    var db := Reached(clock, steps).db;
    var a, b := db.decisions[d], db.decisions[e];
    assert DecisionRefers(db, a) && EventRefers(db, db.events[a.event]);
    assert a.event == b.event && a.channel == b.channel ==> SameProposal(a, b) && SameProposal(b, a);
  }

  /** The idempotency key of a task is unique without help from the constraint, and the task
      agrees with its decision, its event and its account's owner. */
  lemma TaskLineage(clock: int, steps: seq<Step>, t: nat, u: nat)
    requires t < |Reached(clock, steps).db.tasks| && u < |Reached(clock, steps).db.tasks|
    ensures var db := Reached(clock, steps).db;
      var a, b := db.tasks[t], db.tasks[u];
      && (a.event == b.event && a.channel == b.channel ==> t == u)
      && a.decision < |db.decisions| && a.event < |db.events| && a.account in db.accounts
      && db.accounts[a.account].customer == a.customer == db.decisions[a.decision].customer
         == db.events[a.event].customer
      && a.account == db.decisions[a.decision].account == db.events[a.event].account
      && a.channel == db.decisions[a.decision].channel && a.event == db.decisions[a.decision].event
  {
    ReachableInv(clock, steps);
    var db := Reached(clock, steps).db;
    var a, b := db.tasks[t], db.tasks[u];
    assert TaskRefers(db.decisions, a) && TaskRefers(db.decisions, b);
    assert DecisionRefers(db, db.decisions[a.decision]);
    assert EventRefers(db, db.events[a.event]);
    if a.event == b.event && a.channel == b.channel {
      assert SameProposal(db.decisions[a.decision], db.decisions[b.decision]);
    }
  }

  /** An account once seen stays with its customer, whatever happens later. */
  lemma AccountNeverMoves(clock: int, steps: seq<Step>, later: seq<Step>, account: string)
    requires account in Reached(clock, steps).db.accounts
    ensures var s, s' := Reached(clock, steps), Reached(clock, steps + later);
      account in s'.db.accounts && s'.db.accounts[account].customer == s.db.accounts[account].customer
  {
    ReachableInv(clock, steps);
    RunConcat(Initial(clock), steps, later);
    AccountOwnerIsStable(Reached(clock, steps), later, account);
  }

  lemma {:induction false} AccountOwnerIsStable(s: System, steps: seq<Step>, account: string)
    requires Inv(s) && account in s.db.accounts
    ensures var s' := Run(s, steps);
      account in s'.db.accounts && s'.db.accounts[account].customer == s.db.accounts[account].customer
    decreases |steps|
  {
    if |steps| > 0 {
      AccountOwnerStep(s, steps[0], account);
      StepKeeps(s, steps[0]);
      AccountOwnerIsStable(Next(s, steps[0]), steps[1..], account);
    }
  }

  lemma AccountOwnerInsert(s: System, i: nat, earlier: Option<seq<nat>>, account: string)
    requires NoRowsAhead(s.db) && account in s.db.accounts && CanInsert(s, i, earlier)
    ensures var accounts := NextInsert(s, i, earlier).db.accounts;
      account in accounts && accounts[account].customer == s.db.accounts[account].customer
  {
    VerdictOf(s.db, s.submissions[i].request, earlier);
    PlannedPeople(s.db, s.submissions[i].request, earlier);
  }

  lemma AccountOwnerStep(s: System, step: Step, account: string)
    requires Inv(s) && account in s.db.accounts
    ensures account in Next(s, step).db.accounts
    ensures Next(s, step).db.accounts[account].customer == s.db.accounts[account].customer
  {
    if WritesRows(step) {
      RowWriterStep(s, step);
    } else if step.Insert? && CanInsert(s, step.submission, step.earlier) {
      AccountOwnerInsert(s, step.submission, step.earlier, account);
    }
  }

  /** The customers and accounts an accepted request leaves. */
  function CustomersAfter(db: Store, r: Request): map<string, Customer> {
    var c := UpsertCustomer(db.customers, r.customer)[r.customer.externalId];
    db.customers[r.customer.externalId := c.(optedOut := c.optedOut || r.kind.OptOutReceived?)]
  }

  function AccountsAfter(db: Store, r: Request): map<string, Account> {
    db.accounts[r.account.externalId :=
      Account(r.customer.externalId, if r.kind.AccountPaused? then Paused else r.account.status)]
  }

  lemma ChangedPeople(db: Store, r: Request)
    requires !IsPolicyEvent(r.kind)
    ensures var db' := StateChange(BaseOf(db, r), SubjectOf(db, r), r.kind);
      db'.customers == CustomersAfter(db, r) && db'.accounts == AccountsAfter(db, r)
  {
  }

  lemma PlannedPeople(db: Store, r: Request, earlier: Option<seq<nat>>)
    requires InRange(db, earlier)
    ensures PlannedStore(db, r, earlier).customers == CustomersAfter(db, r)
    ensures PlannedStore(db, r, earlier).accounts == AccountsAfter(db, r)
  {
    if IsPolicyEvent(r.kind) {
      PlanAllShape(StartOfPass(db, r), SubjectOf(db, r), Proposals(r.kind, r.occurredAt, r.customer.timezone),
                   FREQUENCY_CAP);
    } else {
      ChangedPeople(db, r);
      StateChangeShape(db, r);
      CancelAllShape(StateChange(BaseOf(db, r), SubjectOf(db, r), r.kind), |db.events|, SelectedBy(db, r, earlier));
    }
  }

  /** Pausing does not last: the account's status is the latest snapshot's, except that a pause
      event sets it to paused. Opting out does. */
  lemma PauseLastsOneSnapshot(db: Store, r: Request, earlier: Option<seq<nat>>)
    requires InRange(db, earlier)
    ensures var db' := PlannedStore(db, r, earlier);
      && r.account.externalId in db'.accounts && r.customer.externalId in db'.customers
      && (db'.accounts[r.account.externalId].status.Paused? <==> r.kind.AccountPaused? || r.account.status.Paused?)
      && (db'.customers[r.customer.externalId].optedOut
          <==> r.kind.OptOutReceived?
               || (r.customer.externalId in db.customers && db.customers[r.customer.externalId].optedOut))
      && db'.accounts == db.accounts[r.account.externalId := Account(
           r.customer.externalId, if r.kind == AccountPaused then Paused else r.account.status)]
      && db'.customers == db.customers[r.customer.externalId := Customer(
           r.customer.timezone, r.customer.smsConsent, r.customer.callConsent, r.customer.emailConsent,
           db'.customers[r.customer.externalId].optedOut)]
  {
    PlannedPeople(db, r, earlier);
  }

  /** Every task an event inserts respects the event's own snapshot: the customer consents to the
      channel and has not opted out, the account is neither paused nor resolved, and a call or text
      is planned inside the customer's window. */
  lemma InsertedTasksAreCompliant(db: Store, r: Request, earlier: Option<seq<nat>>, t: nat)
    requires InRange(db, earlier)
    requires |db.tasks| <= t < |PlannedStore(db, r, earlier).tasks|
    ensures var task := PlannedStore(db, r, earlier).tasks[t];
      && task.customer == r.customer.externalId && task.account == r.account.externalId
      && task.status == Scheduled && task.attempts == 0 && task.maxAttempts == 3 && task.lastError == None
      && task.createdAt == db.clock && task.event == |db.events|
      && !(r.customer.externalId in db.customers && db.customers[r.customer.externalId].optedOut)
      && !r.account.status.Paused? && !r.account.status.Resolved?
      && (match task.channel
          case Sms => r.customer.smsConsent
          case Call => r.customer.callConsent
          case Email => r.customer.emailConsent)
      && (!task.channel.Email? ==> DayTime(task.scheduledAt, r.customer.timezone))
  {
    if IsPolicyEvent(r.kind) {
      PlanAllShape(StartOfPass(db, r), SubjectOf(db, r), Proposals(r.kind, r.occurredAt, r.customer.timezone),
                   FREQUENCY_CAP);
      assert TaskAbout(PassOf(db, r).db.tasks[t], SubjectOf(db, r), db.clock);
    } else {
      StateChangeShape(db, r);
    }
  }

  /** The instant a proposal is planned for, if it is planned at all. */
  function PlannedTime(s: Subject, p: Proposal): int {
    var d := QuietHoursDeferUntil(InputFor(s, p, 0, 0));
    if d.Some? then d.value else p.at
  }

  ghost predicate OnTime(t: Task, s: Subject, proposals: seq<Proposal>) {
    exists j :: 0 <= j < |proposals| && proposals[j].channel == t.channel
        && t.scheduledAt == PlannedTime(s, proposals[j])
  }

  /** Blocked or capped proposals aside, a task is due at the planned time. */
  lemma TaskTimeIsPlanned(s: Subject, p: Proposal, recent: nat, cap: nat)
    ensures var at := TaskTime(p, Evaluate(InputFor(s, p, recent, cap)));
      at.Some? ==> at.value == PlannedTime(s, p)
  {
    var i := InputFor(s, p, recent, cap);
    OutcomeMeaning(i);
    ReasonsMeaning(i);
    assert QuietHoursDeferUntil(i) == QuietHoursDeferUntil(InputFor(s, p, 0, 0));
  }

  lemma PlanOneOnTime(g: Progress, s: Subject, p: Proposal, cap: nat)
    ensures var tasks' := PlanOne(g, s, p, cap).db.tasks;
      |tasks'| > |g.db.tasks| ==>
          tasks'[|g.db.tasks|].channel == p.channel && tasks'[|g.db.tasks|].scheduledAt == PlannedTime(s, p)
  {
    TaskTimeIsPlanned(s, p, g.recent, cap);
  }

  lemma {:induction false} PlanAllOnTime(g: Progress, s: Subject, proposals: seq<Proposal>, cap: nat, t: nat)
    requires |g.db.tasks| <= t < |PlanAll(g, s, proposals, cap).db.tasks|
    ensures OnTime(PlanAll(g, s, proposals, cap).db.tasks[t], s, proposals)
    decreases |proposals|
  {
    if |proposals| > 0 {
      var one := PlanOne(g, s, proposals[0], cap);
      PlanOneOnTime(g, s, proposals[0], cap);
      PlanAllShape(one, s, proposals[1..], cap);
      if t >= |one.db.tasks| {
        PlanAllOnTime(one, s, proposals[1..], cap, t);
        var task := PlanAll(g, s, proposals, cap).db.tasks[t];
        var j :| 0 <= j < |proposals[1..]| && proposals[1..][j].channel == task.channel
            && task.scheduledAt == PlannedTime(s, proposals[1..][j]);
        assert proposals[j + 1] == proposals[1..][j];
      }
    }
  }

  /** `at` is the first instant from `from` on at which the customer may be called or texted. */
  ghost predicate FirstDayTime(at: int, from: int, zone: int) {
    from <= at && DayTime(at, zone) && forall x :: from <= x < at ==> !DayTime(x, zone)
  }

  lemma OpenIsDayTime(at: int, zone: int)
    ensures OpenAt(at, zone) <==> DayTime(at, zone)
  {
  }

  lemma TextTimeIsFirst(s: Subject, at: int)
    ensures FirstDayTime(PlannedTime(s, Proposal(Sms, at)), at, s.customer.timezone)
  {
    var i := InputFor(s, Proposal(Sms, at), 0, 0);
    var planned := PlannedTime(s, Proposal(Sms, at));
    if IsQuiet(i) {
      DeferralIsEarliest(i);
    }
    OpenIsDayTime(planned, s.customer.timezone);
    forall x | at <= x < planned ensures !DayTime(x, s.customer.timezone) {
      OpenIsDayTime(x, s.customer.timezone);
    }
  }

  /** The instant a task on this channel is due under the sequencing rules: the email at the event's
      date, the text at the first daytime instant half an hour after a delinquency or a quarter of an
      hour after a failed payment, the call at 10:00 local on the day after the event's local date,
      or on Monday after a Friday or Saturday. Local dates count from a Monday. */
  ghost predicate RightTime(channel: Channel, at: int, kind: EventType, occurredAt: int, zone: int) {
    match channel
    case Email => at == occurredAt
    case Sms => FirstDayTime(at, occurredAt + (if kind == AccountDelinquent then 1_800_000_000 else 900_000_000), zone)
    case Call =>
      var date := (occurredAt + zone) / 86_400_000_000;
      var days := if date % 7 == 4 then 3 else if date % 7 == 5 then 2 else 1;
      at + zone == (date + days) * 86_400_000_000 + 36_000_000_000
  }

  lemma ProposalTime(s: Subject, kind: EventType, now: int, j: nat)
    requires IsPolicyEvent(kind) && j < |Proposals(kind, now, s.customer.timezone)|
    ensures var p := Proposals(kind, now, s.customer.timezone)[j];
      RightTime(p.channel, PlannedTime(s, p), kind, now, s.customer.timezone)
  {
    if j == 1 {
      TextTimeIsFirst(s, Proposals(kind, now, s.customer.timezone)[1].at);
    } else if j == 2 {
      CallTime(s, now);
    }
  }

  /** Every task an event inserts is planned for the instant the sequencing rules give. */
  lemma InsertedSchedule(db: Store, r: Request, earlier: Option<seq<nat>>, t: nat)
    requires InRange(db, earlier)
    requires |db.tasks| <= t < |PlannedStore(db, r, earlier).tasks|
    ensures var task := PlannedStore(db, r, earlier).tasks[t];
      RightTime(task.channel, task.scheduledAt, r.kind, r.occurredAt, r.customer.timezone)
  {
    if IsPolicyEvent(r.kind) {
      var s, proposals := SubjectOf(db, r), Proposals(r.kind, r.occurredAt, r.customer.timezone);
      PlanAllOnTime(StartOfPass(db, r), s, proposals, FREQUENCY_CAP, t);
      var task := PassOf(db, r).db.tasks[t];
      var j :| 0 <= j < |proposals| && proposals[j].channel == task.channel
          && task.scheduledAt == PlannedTime(s, proposals[j]);
      ProposalTime(s, r.kind, r.occurredAt, j);
    } else {
      StateChangeShape(db, r);
    }
  }

  /** The time a planning row gives, if it gives one. */
  function TimeGiven(r: AuditRow): Option<(Channel, int)> {
    match r
    case OutreachDeferred(_, _, channel, _, until) => if until.Some? then Some((channel, until.value)) else None
    case OutreachTaskScheduled(_, _, channel, at) => Some((channel, at))
    case _ => None
  }

  ghost predicate TimeOfProposal(time: Option<(Channel, int)>, s: Subject, proposals: seq<Proposal>) {
    time.Some? ==>
      exists j :: 0 <= j < |proposals| && time.value == (proposals[j].channel, PlannedTime(s, proposals[j]))
  }

  lemma PlanOneGives(g: Progress, s: Subject, p: Proposal, cap: nat, k: nat)
    requires |g.db.audit| <= k < |PlanOne(g, s, p, cap).db.audit|
    ensures var time := TimeGiven(PlanOne(g, s, p, cap).db.audit[k]);
      time.Some? ==> time.value == (p.channel, PlannedTime(s, p))
  {
    var i := InputFor(s, p, g.recent, cap);
    TaskTimeIsPlanned(s, p, g.recent, cap);
    OutcomeMeaning(i);
    assert QuietHoursDeferUntil(i) == QuietHoursDeferUntil(InputFor(s, p, 0, 0));
    var rows := ProposalAudit(s, |g.db.decisions|, p, Evaluate(i));
    assert PlanOne(g, s, p, cap).db.audit[k] == rows[k - |g.db.audit|];
  }

  lemma {:induction false} PlanAllGives(g: Progress, s: Subject, proposals: seq<Proposal>, cap: nat, k: nat)
    requires |g.db.audit| <= k < |PlanAll(g, s, proposals, cap).db.audit|
    ensures TimeOfProposal(TimeGiven(PlanAll(g, s, proposals, cap).db.audit[k]), s, proposals)
    decreases |proposals|
  {
    if |proposals| > 0 {
      var one := PlanOne(g, s, proposals[0], cap);
      PlanAllShape(one, s, proposals[1..], cap);
      if k < |one.db.audit| {
        PlanOneGives(g, s, proposals[0], cap, k);
      } else {
        PlanAllGives(one, s, proposals[1..], cap, k);
        LaterProposal(TimeGiven(PlanAll(g, s, proposals, cap).db.audit[k]), s, proposals);
      }
    }
  }

  lemma LaterProposal(time: Option<(Channel, int)>, s: Subject, proposals: seq<Proposal>)
    requires |proposals| > 0 && TimeOfProposal(time, s, proposals[1..])
    ensures TimeOfProposal(time, s, proposals)
  {
    if time.Some? {
      var j :| 0 <= j < |proposals[1..]|
        && time.value == (proposals[1..][j].channel, PlannedTime(s, proposals[1..][j]));
      assert proposals[j + 1] == proposals[1..][j];
    }
  }

  /** Every time that planning an event logs, for a deferral or for a task, is the right one. */
  lemma LoggedTimesAreRight(db: Store, r: Request, earlier: Option<seq<nat>>, k: nat)
    requires InRange(db, earlier)
    requires |db.audit| <= k < |PlannedStore(db, r, earlier).audit|
    ensures match PlannedStore(db, r, earlier).audit[k]
            case OutreachDeferred(_, _, channel, _, until) =>
              until.Some? ==> RightTime(channel, until.value, r.kind, r.occurredAt, r.customer.timezone)
            case OutreachTaskScheduled(_, _, channel, at) =>
              RightTime(channel, at, r.kind, r.occurredAt, r.customer.timezone)
            case _ => true
  {
    if IsPolicyEvent(r.kind) {
      var s, proposals := SubjectOf(db, r), Proposals(r.kind, r.occurredAt, r.customer.timezone);
      if k >= |BaseOf(db, r).audit| {
        PlanAllGives(StartOfPass(db, r), s, proposals, FREQUENCY_CAP, k);
        var time := TimeGiven(PassOf(db, r).db.audit[k]);
        if time.Some? {
          var j :| 0 <= j < |proposals| && time.value == (proposals[j].channel, PlannedTime(s, proposals[j]));
          ProposalTime(s, r.kind, r.occurredAt, j);
        }
      } else {
        PlanAllShape(StartOfPass(db, r), s, proposals, FREQUENCY_CAP);
      }
    } else {
      BatchTimes(db, r, earlier, k);
    }
  }

  lemma BatchTimes(db: Store, r: Request, earlier: Option<seq<nat>>, k: nat)
    requires InRange(db, earlier) && !IsPolicyEvent(r.kind)
    requires |db.audit| <= k < |MarkedBatch(db, r, earlier).audit|
    ensures TimeGiven(MarkedBatch(db, r, earlier).audit[k]).None?
  {
    var base := BaseOf(db, r);
    var changed := StateChange(base, SubjectOf(db, r), r.kind);
    CancelsGiveNoTime(changed, |db.events|, SelectedBy(db, r, earlier), k);
    ChangeGivesNoTime(base, SubjectOf(db, r), r.kind, k);
  }

  lemma ChangeGivesNoTime(db: Store, s: Subject, kind: EventType, k: nat)
    requires s.customerId in db.customers && s.accountId in db.accounts
    ensures db.audit <= StateChange(db, s, kind).audit
    ensures |db.audit| <= k < |StateChange(db, s, kind).audit| ==> TimeGiven(StateChange(db, s, kind).audit[k]).None?
  {
  }

  lemma CancelsGiveNoTime(db: Store, cause: nat, ids: seq<nat>, k: nat)
    requires AllBelow(ids, |db.tasks|)
    ensures db.audit <= CancelAll(db, cause, ids).audit
    ensures |db.audit| <= k < |CancelAll(db, cause, ids).audit| ==> TimeGiven(CancelAll(db, cause, ids).audit[k]).None?
  {
    CancelAllShape(db, cause, ids);
    if |db.audit| <= k < |CancelAll(db, cause, ids).audit| {
      var j := k - |db.audit|;
      assert CancelAll(db, cause, ids).audit[|db.audit| + j] == OutreachCancelled(ids[j], Some(cause));
    }
  }

  lemma CallTime(s: Subject, now: int)
    ensures RightTime(Call, PlannedTime(s, Proposal(Call, NextBusinessDayAt10(now, s.customer.timezone))),
                      AccountDelinquent, now, s.customer.timezone)
  {
    NextBusinessDayInWindow(now, s.customer.timezone);
    FirstWeekdayAfter(DateOf(now + s.customer.timezone));
  }

  /** The call proposal is never put off for quiet hours. */
  lemma CallsAreNeverQuiet(s: Subject, now: int, recent: nat, cap: nat)
    ensures var call := Proposals(AccountDelinquent, now, s.customer.timezone)[2];
      QuietHours !in Evaluate(InputFor(s, call, recent, cap)).reasons
  {
    NextBusinessDayInWindow(now, s.customer.timezone);
    OutcomeMeaning(InputFor(s, Proposals(AccountDelinquent, now, s.customer.timezone)[2], recent, cap));
    ReasonsMeaning(InputFor(s, Proposals(AccountDelinquent, now, s.customer.timezone)[2], recent, cap));
  }
}
