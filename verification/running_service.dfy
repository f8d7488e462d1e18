/** The running service: the tables as the processes share them, and the work they hold. */
module RunningService {
  import opened Models
  import opened Service

  class World {
    // the database
    var clock: int
    var customers: map<string, Customer>
    var accounts: map<string, Account>
    var events: seq<Event>
    var decisions: seq<Decision>
    var tasks: seq<Task>
    var audit: seq<AuditRow>
    // outside the database
    var claims: seq<Claim>
    var submissions: seq<Submission>
    var replies: seq<Reply>

    constructor (clock: int)
      ensures View() == Initial(clock)
    {
      this.clock := clock;
      customers, accounts := map[], map[];
      events, decisions, tasks, audit := [], [], [], [];
      claims, submissions, replies := [], [], [];
    }

    function Db(): Store
      reads this
    {
      Store(clock, customers, accounts, events, decisions, tasks, audit)
    }

    function View(): System
      reads this
    {
      System(Db(), claims, submissions, replies)
    }

    /** Rolls the tables back to a saved state. */
    method Restore(db: Store)
      modifies this
      ensures Db() == db
      ensures claims == old(claims) && submissions == old(submissions) && replies == old(replies)
    {
      clock, customers, accounts := db.clock, db.customers, db.accounts;
      events, decisions, tasks, audit := db.events, db.decisions, db.tasks, db.audit;
    }

    /** Other processes take these steps. */
    method Others(steps: seq<Step>)
      modifies this
      ensures View() == Run(old(View()), steps)
    {
      var i := 0;
      while i < |steps|
        invariant 0 <= i <= |steps|
        invariant Run(View(), steps[i..]) == Run(old(View()), steps)
      {
        var s := Next(View(), steps[i]);
        Restore(s.db);
        claims, submissions, replies := s.claims, s.submissions, s.replies;
        assert steps[i..][1..] == steps[i + 1..];
        i := i + 1;
      }
    }
  }

  /** Steps only the holder of a claim, or the process answering a submission, takes itself. */
  predicate TakenBy(step: Step, claim: Option<nat>, submission: Option<nat>) {
    match step
    case SendReturns(k) => claim == Some(k)
    case SendRaises(k, _) => claim == Some(k)
    case RecordSuccess(k) => claim == Some(k)
    case RecordFailure(k) => claim == Some(k)
    case Crash(k) => claim == Some(k)
    case Insert(i, _) => submission == Some(i)
    case Abandon(i) => submission == Some(i)
    case _ => false
  }

  /** What is left of some steps when those of one process are taken out. */
  function Foreign(steps: seq<Step>, claim: Option<nat>, submission: Option<nat>): (kept: seq<Step>)
    ensures forall i :: 0 <= i < |kept| ==> !TakenBy(kept[i], claim, submission)
  {
    if |steps| == 0 then []
    else
      var rest := Foreign(steps[1..], claim, submission);
      if TakenBy(steps[0], claim, submission) then rest else [steps[0]] + rest
  }

  lemma ForeignStepSpares(s: System, step: Step, claim: Option<nat>, submission: Option<nat>)
    requires !TakenBy(step, claim, submission)
    ensures var s' := Next(s, step);
      && |s.claims| <= |s'.claims| && |s.submissions| <= |s'.submissions|
      && (claim.Some? && claim.value < |s.claims| ==> s'.claims[claim.value] == s.claims[claim.value])
      && (submission.Some? && submission.value < |s.submissions| ==>
           s'.submissions[submission.value] == s.submissions[submission.value])
  {
  }

  /** While others work, a claim and a submission stay as their holders left them. */
  lemma {:induction false} ForeignRunSpares(s: System, steps: seq<Step>, claim: Option<nat>, submission: Option<nat>)
    requires forall i :: 0 <= i < |steps| ==> !TakenBy(steps[i], claim, submission)
    ensures var s' := Run(s, steps);
      && |s.claims| <= |s'.claims| && |s.submissions| <= |s'.submissions|
      && (claim.Some? && claim.value < |s.claims| ==> s'.claims[claim.value] == s.claims[claim.value])
      && (submission.Some? && submission.value < |s.submissions| ==>
           s'.submissions[submission.value] == s.submissions[submission.value])
    decreases |steps|
  {
    if |steps| > 0 {
      ForeignStepSpares(s, steps[0], claim, submission);
      ForeignRunSpares(Next(s, steps[0]), steps[1..], claim, submission);
    }
  }
}
