/** What every committed store satisfies, and that every operation keeps it. */
module StoreInvariant {
  import opened Models
  import opened InboundEvents
  import opened Policy
  import opened Planner
  import opened RowUpdates
  import opened Evolution
  import opened AuditFold

  // Lineage: accounts belong to known customers, and every event, decision and task agrees
  // with the account it is about.

  ghost predicate EventRefers(db: Store, e: Event) {
    && e.customer in db.customers && e.account in db.accounts
    && db.accounts[e.account].customer == e.customer
  }

  ghost predicate DecisionRefers(db: Store, d: Decision) {
    && d.event < |db.events|
    && d.account == db.events[d.event].account && d.customer == db.events[d.event].customer
  }

  /** A task carries out one decision that stands for it. */
  ghost predicate TaskRefers(decisions: seq<Decision>, t: Task) {
    && t.decision < |decisions|
    && var d := decisions[t.decision];
    && t.event == d.event && t.channel == d.channel && t.account == d.account && t.customer == d.customer
    && Schedulable(d)
  }

  ghost predicate Lineage(db: Store) {
    && (forall a :: a in db.accounts ==> db.accounts[a].customer in db.customers)
    && (forall i :: 0 <= i < |db.events| ==> EventRefers(db, db.events[i]))
    && (forall i :: 0 <= i < |db.decisions| ==> DecisionRefers(db, db.decisions[i]))
    && (forall i :: 0 <= i < |db.tasks| ==> TaskRefers(db.decisions, db.tasks[i]))
  }

  ghost predicate KeysUnique(db: Store) {
    && (forall i :: 0 <= i < |db.events| ==> db.events[i].key == Key(db.events[i].source, db.events[i].externalId))
    && (forall i, j :: 0 <= i < j < |db.events| ==> db.events[i].key != db.events[j].key)
  }

  predicate SameProposal(a: Decision, b: Decision) {
    a.event == b.event && a.channel == b.channel
  }

  ghost predicate DecisionsUnique(db: Store) {
    forall i, j :: 0 <= i < j < |db.decisions| ==> !SameProposal(db.decisions[i], db.decisions[j])
  }

  ghost predicate HasTask(tasks: seq<Task>, decision: nat) {
    exists t :: 0 <= t < |tasks| && tasks[t].decision == decision
  }

  ghost predicate TaskPerDecision(db: Store) {
    && (forall i, j :: 0 <= i < j < |db.tasks| ==> db.tasks[i].decision != db.tasks[j].decision)
    && (forall d :: 0 <= d < |db.decisions| && Schedulable(db.decisions[d]) ==> HasTask(db.tasks, d))
  }

  ghost predicate RowSane(t: Task, clock: int) {
    && t.maxAttempts == MAX_ATTEMPTS && t.attempts <= t.maxAttempts
    && (t.status.Scheduled? ==> t.attempts < t.maxAttempts)
    && t.createdAt <= clock
    && !t.status.Blocked?
  }

  ghost predicate RowsSane(db: Store) {
    forall i :: 0 <= i < |db.tasks| ==> RowSane(db.tasks[i], db.clock)
  }

  /** The log gives the row back. */
  ghost predicate LoggedRow(audit: seq<AuditRow>, id: nat, t: Task) {
    Fold(audit, id, t.event, t.channel) == Known(StateOf(t))
  }

  ghost predicate Logged(db: Store) {
    forall i :: 0 <= i < |db.tasks| ==> LoggedRow(db.audit, i, db.tasks[i])
  }

  /** Log rows name existing tasks, and scheduling rows an existing decision. */
  ghost predicate RowBacked(db: Store, r: AuditRow) {
    && (IsTaskRow(r) ==> r.task < |db.tasks|)
    && (r.OutreachTaskScheduled? ==>
         exists d :: 0 <= d < |db.decisions| && db.decisions[d].event == r.event
             && db.decisions[d].channel == r.channel)
  }

  ghost predicate AuditBacked(db: Store) {
    forall i :: 0 <= i < |db.audit| ==> RowBacked(db, db.audit[i])
  }

  ghost predicate StoreInv(db: Store) {
    && NoRowsAhead(db) && Lineage(db) && KeysUnique(db)
    && DecisionsUnique(db) && TaskPerDecision(db)
    && RowsSane(db) && Logged(db) && AuditBacked(db)
  }

  // One task row rewritten together with its audit row.

  /** The audit row tells the change of this task row truthfully. */
  ghost predicate Tells(entry: AuditRow, id: nat, t: Task, t': Task) {
    && IsTaskRow(entry) && entry.task == id
    && Interpret(Known(StateOf(t)), entry, id, t.event, t.channel) == Known(StateOf(t'))
  }

  lemma WriteRowLogged(db: Store, id: nat, row: Task, entry: AuditRow)
    requires Logged(db) && AuditBacked(db) && id < |db.tasks|
    requires SameIdentity(db.tasks[id], row) && Tells(entry, id, db.tasks[id], row)
    ensures Logged(WriteRow(db, id, row, entry)) && AuditBacked(WriteRow(db, id, row, entry))
  {
    var db' := WriteRow(db, id, row, entry);
    forall i | 0 <= i < |db'.tasks| ensures LoggedRow(db'.audit, i, db'.tasks[i]) {
      assert LoggedRow(db.audit, i, db.tasks[i]);
      FoldSnoc(db.audit, entry, i, db.tasks[i].event, db.tasks[i].channel);
    }
    forall i | 0 <= i < |db'.audit| ensures RowBacked(db', db'.audit[i]) {
      assert i < |db.audit| ==> RowBacked(db, db.audit[i]);
    }
  }

  lemma WriteRowKeeps(db: Store, id: nat, row: Task, entry: AuditRow)
    requires StoreInv(db) && id < |db.tasks|
    requires SameIdentity(db.tasks[id], row) && RowSane(row, db.clock)
    requires Tells(entry, id, db.tasks[id], row)
    requires entry.OutreachCancelled? && entry.cause.Some? ==> entry.cause.value < |db.events|
    ensures StoreInv(WriteRow(db, id, row, entry))
  {
    var db' := WriteRow(db, id, row, entry);
    WriteRowLogged(db, id, row, entry);
    forall i | 0 <= i < |db'.tasks| ensures TaskRefers(db'.decisions, db'.tasks[i]) {
      assert TaskRefers(db.decisions, db.tasks[i]);
    }
    forall d | 0 <= d < |db'.decisions| && Schedulable(db'.decisions[d]) ensures HasTask(db'.tasks, d) {
      var t :| 0 <= t < |db.tasks| && db.tasks[t].decision == d;
      assert db'.tasks[t].decision == d;
    }
    forall i | 0 <= i < |db'.events| ensures EventRefers(db', db'.events[i]) {
      assert EventRefers(db, db.events[i]);
    }
    forall i | 0 <= i < |db'.decisions| ensures DecisionRefers(db', db'.decisions[i]) {
      assert DecisionRefers(db, db.decisions[i]);
    }
  }

  // Audit rows that do not concern any task, and changes to customers, accounts and event status.

  /** Two stores alike in everything the task and decision facts read. */
  lemma NeutralKeeps(db: Store, db': Store)
    requires StoreInv(db)
    requires db'.tasks == db.tasks && db'.decisions == db.decisions && db.clock <= db'.clock
    requires db.customers.Keys <= db'.customers.Keys
    requires forall a :: a in db.accounts ==> a in db'.accounts && db'.accounts[a].customer == db.accounts[a].customer
    requires forall a :: a in db'.accounts ==> db'.accounts[a].customer in db'.customers
    requires |db.events| <= |db'.events|
    requires forall i :: 0 <= i < |db.events| ==> db'.events[i] == db.events[i].(status := db'.events[i].status)
    requires forall i :: |db.events| <= i < |db'.events| ==> EventRefers(db', db'.events[i])
    requires KeysUnique(db')
    requires db.audit <= db'.audit
    requires forall i :: |db.audit| <= i < |db'.audit| ==> NeutralRow(db'.audit[i], |db'.events|)
    ensures StoreInv(db')
  {
    forall i | 0 <= i < |db'.events| ensures EventRefers(db', db'.events[i]) {
      assert i < |db.events| ==> EventRefers(db, db.events[i]);
    }
    forall i | 0 <= i < |db'.decisions| ensures DecisionRefers(db', db'.decisions[i]) {
      assert DecisionRefers(db, db.decisions[i]);
    }
    forall i | 0 <= i < |db'.tasks| ensures LoggedRow(db'.audit, i, db'.tasks[i]) {
      assert LoggedRow(db.audit, i, db.tasks[i]);
      FoldSkips(db.audit, db'.audit, i, db.tasks[i].event, db.tasks[i].channel);
    }
    forall i | 0 <= i < |db'.audit| ensures RowBacked(db', db'.audit[i]) {
      assert i < |db.audit| ==> RowBacked(db, db.audit[i]);
    }
    assert forall i :: 0 <= i < |db'.tasks| ==> RowSane(db.tasks[i], db.clock);
  }

  ghost predicate NeutralRow(r: AuditRow, events: nat) {
    && !IsTaskRow(r) && !r.OutreachTaskScheduled?
    && (r.ProcessedMarker? ==> r.event < events)
  }

  // One proposal planned.

  /** The event has no decision for this channel yet. */
  predicate Undecided(db: Store, event: nat, channel: Channel) {
    forall d :: 0 <= d < |db.decisions| ==> !(db.decisions[d].event == event && db.decisions[d].channel == channel)
  }

  predicate SubjectFits(db: Store, s: Subject) {
    s.event < |db.events| && db.events[s.event].account == s.accountId && db.events[s.event].customer == s.customerId
  }

  lemma DecisionStandsForTask(s: Subject, p: Proposal, recent: nat, cap: nat)
    ensures var r := Evaluate(InputFor(s, p, recent, cap));
      r.channel == p.channel && (Schedulable(DecisionRow(s, r)) <==> TaskTime(p, r).Some?)
  {
    OutcomeMeaning(InputFor(s, p, recent, cap));
    ReasonsMeaning(InputFor(s, p, recent, cap));
  }

  /** One decision and at most one task are added. */
  lemma PlanOneAdds(g: Progress, s: Subject, p: Proposal, cap: nat)
    ensures var db, db' := g.db, PlanOne(g, s, p, cap).db;
      var r := Evaluate(InputFor(s, p, g.recent, cap));
      var d := DecisionRow(s, r);
      && db'.decisions == db.decisions + [d] && d.channel == p.channel
      && (Schedulable(d) <==> TaskTime(p, r).Some?)
      && (Schedulable(d) ==>
            db'.tasks == db.tasks + [NewTask(s, |db.decisions|, p.channel, TaskTime(p, r).value, db.clock)])
      && (!Schedulable(d) ==> db'.tasks == db.tasks)
      && db'.events == db.events && db'.accounts == db.accounts
      && db'.customers == db.customers && db'.clock == db.clock
  {
    DecisionStandsForTask(s, p, g.recent, cap);
  }

  lemma PlanOneLineage(g: Progress, s: Subject, p: Proposal, cap: nat)
    requires Lineage(g.db) && SubjectFits(g.db, s)
    ensures Lineage(PlanOne(g, s, p, cap).db)
  {
    var db := g.db;
    var db' := PlanOne(g, s, p, cap).db;
    PlanOneAdds(g, s, p, cap);
    forall i | 0 <= i < |db'.tasks| ensures TaskRefers(db'.decisions, db'.tasks[i]) {
      assert i < |db.tasks| ==> TaskRefers(db.decisions, db.tasks[i]);
    }
    forall i | 0 <= i < |db'.decisions| ensures DecisionRefers(db', db'.decisions[i]) {
      assert i < |db.decisions| ==> DecisionRefers(db, db.decisions[i]);
    }
    forall i | 0 <= i < |db'.events| ensures EventRefers(db', db'.events[i]) {
      assert EventRefers(db, db.events[i]);
    }
  }

  lemma PlanOneTables(g: Progress, s: Subject, p: Proposal, cap: nat)
    requires StoreInv(g.db) && SubjectFits(g.db, s) && Undecided(g.db, s.event, p.channel)
    ensures var db' := PlanOne(g, s, p, cap).db;
      NoRowsAhead(db') && Lineage(db') && KeysUnique(db') && DecisionsUnique(db') && RowsSane(db')
  {
    PlanOneAdds(g, s, p, cap);
    PlanOneLineage(g, s, p, cap);
  }

  lemma PlanOneTaskPerDecision(g: Progress, s: Subject, p: Proposal, cap: nat)
    requires TaskPerDecision(g.db) && Lineage(g.db)
    ensures TaskPerDecision(PlanOne(g, s, p, cap).db)
  {
    var db := g.db;
    var db' := PlanOne(g, s, p, cap).db;
    DecisionStandsForTask(s, p, g.recent, cap);
    assert forall i :: 0 <= i < |db.tasks| ==> TaskRefers(db.decisions, db.tasks[i]);
    forall d | 0 <= d < |db'.decisions| && Schedulable(db'.decisions[d]) ensures HasTask(db'.tasks, d) {
      if d < |db.decisions| {
        assert HasTask(db.tasks, d);
        var t :| 0 <= t < |db.tasks| && db.tasks[t].decision == d;
        assert db'.tasks[t].decision == d;
      } else {
        assert db'.tasks[|db.tasks|].decision == d;
      }
    }
  }

  /** The rows of one proposal end in the row that schedules its task. */
  lemma ProposalFold(db: Store, s: Subject, p: Proposal, r: PolicyResult, at: int)
    requires AuditBacked(db) && Undecided(db, s.event, p.channel)
    requires r.channel == p.channel && TaskTime(p, r) == Some(at)
    ensures Fold(db.audit + ProposalAudit(s, |db.decisions|, p, r), |db.tasks|, s.event, p.channel)
         == Known(RowState(Scheduled, 0, at, None))
  {
    var rows := ProposalAudit(s, |db.decisions|, p, r);
    var last := |rows| - 1;
    NewTaskAbsent(db, s.event, p.channel);
    FoldSkips(db.audit, db.audit + rows[..last], |db.tasks|, s.event, p.channel);
    assert db.audit + rows == (db.audit + rows[..last]) + [rows[last]];
    FoldSnoc(db.audit + rows[..last], rows[last], |db.tasks|, s.event, p.channel);
  }

  /** The rows of a proposal are not about any task there was. */
  lemma OldTaskLogged(g: Progress, s: Subject, p: Proposal, cap: nat, i: nat)
    requires i < |g.db.tasks| && LoggedRow(g.db.audit, i, g.db.tasks[i]) && TaskRefers(g.db.decisions, g.db.tasks[i])
    requires Undecided(g.db, s.event, p.channel)
    ensures LoggedRow(PlanOne(g, s, p, cap).db.audit, i, g.db.tasks[i])
  {
    DecisionStandsForTask(s, p, g.recent, cap);
    FoldSkips(g.db.audit, PlanOne(g, s, p, cap).db.audit, i, g.db.tasks[i].event, g.db.tasks[i].channel);
  }

  lemma PlanOneLogged(g: Progress, s: Subject, p: Proposal, cap: nat)
    requires Logged(g.db) && AuditBacked(g.db) && Lineage(g.db) && Undecided(g.db, s.event, p.channel)
    ensures Logged(PlanOne(g, s, p, cap).db)
  {
    var db := g.db;
    var db' := PlanOne(g, s, p, cap).db;
    var r := Evaluate(InputFor(s, p, g.recent, cap));
    PlanOneAdds(g, s, p, cap);
    forall i | 0 <= i < |db'.tasks| ensures LoggedRow(db'.audit, i, db'.tasks[i]) {
      if i < |db.tasks| {
        assert LoggedRow(db.audit, i, db.tasks[i]) && TaskRefers(db.decisions, db.tasks[i]);
        OldTaskLogged(g, s, p, cap, i);
      } else {
        ProposalFold(db, s, p, r, TaskTime(p, r).value);
      }
    }
  }

  lemma NewTaskAbsent(db: Store, event: nat, channel: Channel)
    requires AuditBacked(db) && Undecided(db, event, channel)
    ensures Fold(db.audit, |db.tasks|, event, channel) == Absent
  {
    forall i | 0 <= i < |db.audit| ensures !Concerns(db.audit[i], |db.tasks|, event, channel) {
      assert RowBacked(db, db.audit[i]);
    }
    FoldAbsent(db.audit, |db.tasks|, event, channel);
  }

  lemma PlanOneBacked(g: Progress, s: Subject, p: Proposal, cap: nat)
    requires AuditBacked(g.db)
    ensures AuditBacked(PlanOne(g, s, p, cap).db)
  {
    var db := g.db;
    var db' := PlanOne(g, s, p, cap).db;
    assert db'.decisions[|db.decisions|].event == s.event;
    forall i | 0 <= i < |db'.audit| ensures RowBacked(db', db'.audit[i]) {
      if i < |db.audit| {
        assert RowBacked(db, db.audit[i]);
        if db.audit[i].OutreachTaskScheduled? {
          var d :| 0 <= d < |db.decisions| && db.decisions[d].event == db.audit[i].event
              && db.decisions[d].channel == db.audit[i].channel;
          assert db'.decisions[d] == db.decisions[d];
        }
      }
    }
  }

  lemma PlanOneKeeps(g: Progress, s: Subject, p: Proposal, cap: nat)
    requires StoreInv(g.db) && SubjectFits(g.db, s) && Undecided(g.db, s.event, p.channel)
    ensures StoreInv(PlanOne(g, s, p, cap).db)
  {
    PlanOneTables(g, s, p, cap);
    PlanOneTaskPerDecision(g, s, p, cap);
    PlanOneLogged(g, s, p, cap);
    PlanOneBacked(g, s, p, cap);
  }

  predicate DistinctChannels(proposals: seq<Proposal>) {
    forall i, j :: 0 <= i < j < |proposals| ==> proposals[i].channel != proposals[j].channel
  }

  lemma {:induction false} PlanAllKeeps(g: Progress, s: Subject, proposals: seq<Proposal>, cap: nat)
    requires StoreInv(g.db) && SubjectFits(g.db, s) && DistinctChannels(proposals)
    requires forall i :: 0 <= i < |proposals| ==> Undecided(g.db, s.event, proposals[i].channel)
    ensures StoreInv(PlanAll(g, s, proposals, cap).db)
    decreases |proposals|
  {
    if |proposals| > 0 {
      var one := PlanOne(g, s, proposals[0], cap);
      PlanOneKeeps(g, s, proposals[0], cap);
      forall i | 0 <= i < |proposals[1..]| ensures Undecided(one.db, s.event, proposals[1..][i].channel) {
        assert Undecided(g.db, s.event, proposals[i + 1].channel);
        assert proposals[0].channel != proposals[i + 1].channel;
      }
      PlanAllKeeps(one, s, proposals[1..], cap);
    }
  }
}
