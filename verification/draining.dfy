/** Repeated dispatch passes, left alone, work the queue off. */
module Draining {
  import opened Counting
  import opened Models
  import opened RowUpdates
  import opened Service
  import opened StoreInvariant
  import opened RunInvariant
  import opened Guarantees
  import opened Workload
  import opened OperationalOutreach
  import opened DispatchWorker

  lemma {:induction false} WorkConcat(s: System, a: seq<Step>, b: seq<Step>)
    ensures Work(s, a + b) == Work(s, a) + Work(Run(s, a), b)
    decreases |a|
  {
    if |a| == 0 {
      assert a + b == b;
    } else {
      assert (a + b)[1..] == a[1..] + b;
      WorkConcat(Next(s, a[0]), a[1..], b);
    }
  }

  lemma WorkOfThree(s: System, a: Step, b: Step, c: Step)
    ensures Work(s, [a] + [b, c])
      == (if Effective(s, a) then 1 else 0) + (if Effective(Next(s, a), b) then 1 else 0)
         + (if Effective(Next(Next(s, a), b), c) then 1 else 0)
  {
    var s1, s2 := Next(s, a), Next(Next(s, a), b);
    assert ([a] + [b, c])[1..] == [b, c];
    assert [b, c][1..] == [c];
    assert [c][1..] == [];
    assert Work(s2, [c]) == (if Effective(s2, c) then 1 else 0) + Work(Next(s2, c), []);
    assert Work(s1, [b, c]) == (if Effective(s1, b) then 1 else 0) + Work(s2, [c]);
  }

  /** A turn that is left alone does two effective steps: the claim and the recording. */
  lemma TurnWork(s: System, p: Pass, i: nat)
    requires i < |p.ids| && UndisturbedTurn(p.turns(i)) && CanClaim(s.db, p.ids[i], p.now)
    ensures Work(s, TurnSteps(s, p, i)) == 2
  {
    var own := |s.claims|;
    var turn := p.turns(i);
    var claim := ClaimTask(p.ids[i], p.now, p.retryDelay);
    var x, y := AnswerStep(turn, own), RecordStep(turn, own);
    assert Claims(s, p, i) && OwnClaim(s, p, i) == own;
    assert AfterClaim(turn, own) == [x, y];
    assert TurnSteps(s, p, i) == [claim] + [x, y];
    WorkOfThree(s, claim, x, y);
  }

  /** The work of a pass that still has `left` turns to take, and the table it leaves. */
  ghost predicate Works(s: System, p: Pass, i: nat, left: nat)
    requires i <= |p.ids|
  {
    Work(s, PassSteps(s, p, i)) == 2 * left && |EndOfPass(s, p, i).db.tasks| == |s.db.tasks|
  }

  lemma FirstTurnWorks(s: System, p: Pass, i: nat, left: nat)
    requires i < |p.ids| && UndisturbedTurn(p.turns(i)) && CanClaim(s.db, p.ids[i], p.now)
    requires Works(Run(s, TurnSteps(s, p, i)), p, i + 1, left)
    ensures Works(s, p, i, left + 1)
  {
    TurnWork(s, p, i);
    UndisturbedTurnSpares(s, p, i);
    PassGoesOn(s, p, i);
    var steps := TurnSteps(s, p, i);
    WorkConcat(s, steps, PassSteps(Run(s, steps), p, i + 1));
  }

  lemma {:induction false} PassWork(s: System, p: Pass, i: nat)
    requires i <= |p.ids| && Distinct(p.ids) && Undisturbed(p.turns) && StillDue(s.db, p, i)
    ensures Works(s, p, i, |p.ids| - i)
    decreases |p.ids| - i
  {
    if i < |p.ids| {
      StillDueAfter(s, p, i);
      PassWork(Run(s, TurnSteps(s, p, i)), p, i + 1);
      FirstTurnWorks(s, p, i, |p.ids| - i - 1);
    }
  }

  /** A pass left alone lowers the total rank by two for each task it selected. */
  lemma PassLowersRank(s: System, p: Pass)
    requires Inv(s) && Distinct(p.ids) && Undisturbed(p.turns) && StillDue(s.db, p, 0)
    ensures Inv(EndOfPass(s, p, 0))
    ensures TotalRank(EndOfPass(s, p, 0).db.tasks) + 2 * |p.ids| <= TotalRank(s.db.tasks)
  {
    PassWork(s, p, 0);
    WorkRun(s, PassSteps(s, p, 0));
    RunKeeps(s, PassSteps(s, p, 0));
  }

  /** A pass over what its query answers at a time not before `t`, with no other process at work. */
  ghost predicate PassInTurn(s: System, p: Pass, t: int, limit: nat) {
    t <= p.now && Undisturbed(p.turns) && IsDueSelection(s.db.tasks, p.now, limit, p.ids)
  }

  /** Such passes one after another. */
  ghost predicate PassesInTurn(s: System, passes: seq<Pass>, t: int, limit: nat)
    decreases |passes|
  {
    |passes| > 0 ==>
      PassInTurn(s, passes[0], t, limit) && PassesInTurn(EndOfPass(s, passes[0], 0), passes[1..], t, limit)
  }

  /** Nothing is due at t before the passes, or after one of them. */
  predicate DrainedBy(s: System, passes: seq<Pass>, t: int)
    decreases |passes|
  {
    NothingDue(s, t) || (|passes| > 0 && DrainedBy(EndOfPass(s, passes[0], 0), passes[1..], t))
  }

  predicate NothingDue(s: System, t: int) {
    forall i :: 0 <= i < |s.db.tasks| ==> !IsDue(s.db.tasks[i], t)
  }

  lemma {:induction false} RankOfOne(tasks: seq<Task>, id: nat)
    requires id < |tasks|
    ensures Rank(tasks[id]) <= TotalRank(tasks)
  {
    if id < |tasks| - 1 {
      RankOfOne(tasks[..|tasks| - 1], id);
    }
  }

  lemma DueHasRank(s: System, t: int)
    requires Inv(s) && !NothingDue(s, t)
    ensures TotalRank(s.db.tasks) > 0
  {
    var i :| 0 <= i < |s.db.tasks| && IsDue(s.db.tasks[i], t);
    assert RowSane(s.db.tasks[i], s.db.clock);
    RankOfOne(s.db.tasks, i);
  }

  /** A query at a later time finds something as long as something is due. */
  lemma DueIsSelected(tasks: seq<Task>, t: int, now: int, limit: nat, ids: seq<nat>, i: nat)
    requires i < |tasks| && IsDue(tasks[i], t) && t <= now && limit > 0 && IsDueSelection(tasks, now, limit, ids)
    ensures |ids| > 0
  {
    assert |ids| == 0 ==> i in ids;
  }

  /** A pass lowers the total rank as long as something is due. */
  lemma PassMakesProgress(s: System, p: Pass, t: int, limit: nat)
    requires Inv(s) && limit > 0 && PassInTurn(s, p, t, limit) && !NothingDue(s, t)
    ensures Inv(EndOfPass(s, p, 0))
    ensures TotalRank(EndOfPass(s, p, 0).db.tasks) + 2 <= TotalRank(s.db.tasks)
  {
    var i :| 0 <= i < |s.db.tasks| && IsDue(s.db.tasks[i], t);
    DueIsSelected(s.db.tasks, t, p.now, limit, p.ids, i);
    PassLowersRank(s, p);
  }

  /** As many passes as half the total rank reach a state in which nothing is due at t. */
  lemma {:induction false} QueueDrains(s: System, passes: seq<Pass>, t: int, limit: nat)
    requires Inv(s) && limit > 0 && PassesInTurn(s, passes, t, limit)
    requires TotalRank(s.db.tasks) <= 2 * |passes|
    ensures DrainedBy(s, passes, t)
    decreases |passes|
  {
    if !NothingDue(s, t) {
      DueHasRank(s, t);
      PassMakesProgress(s, passes[0], t, limit);
      QueueDrains(EndOfPass(s, passes[0], 0), passes[1..], t, limit);
    }
  }

  // With a positive retry delay, what has been worked off stays so.

  lemma TurnLeavesNotDue(s: System, p: Pass, i: nat, t: int)
    requires i < |p.ids| && UndisturbedTurn(p.turns(i)) && CanClaim(s.db, p.ids[i], p.now)
    requires t <= p.now && p.retryDelay > 0
    ensures var s' := Run(s, TurnSteps(s, p, i));
      p.ids[i] < |s'.db.tasks| && !IsDue(s'.db.tasks[p.ids[i]], t)
  {
    var own := |s.claims|;
    var claim := ClaimTask(p.ids[i], p.now, p.retryDelay);
    var answer, record := AnswerStep(p.turns(i), own), RecordStep(p.turns(i), own);
    var s1 := Next(s, claim);
    var s2 := Next(s1, answer);
    assert Claims(s, p, i) && OwnClaim(s, p, i) == own;
    assert AfterClaim(p.turns(i), own) == [] + ([answer] + ([] + [record]));
    RunSnoc(s, [], claim);
    RunConcat(s, [] + [claim], AfterClaim(p.turns(i), own));
    TurnRun(s1, [], answer, [], record);
    assert s2.db.tasks[p.ids[i]].status.Dispatching?;
    assert Run(s, TurnSteps(s, p, i)) == Next(s2, record);
  }

  lemma {:induction false} PassKeepsNothingDue(s: System, p: Pass, i: nat, t: int)
    requires i <= |p.ids| && Distinct(p.ids) && Undisturbed(p.turns) && StillDue(s.db, p, i)
    requires t <= p.now && p.retryDelay > 0 && NothingDue(s, t)
    ensures NothingDue(EndOfPass(s, p, i), t)
    decreases |p.ids| - i
  {
    if i < |p.ids| {
      StillDueAfter(s, p, i);
      UndisturbedTurnSpares(s, p, i);
      TurnLeavesNotDue(s, p, i, t);
      PassGoesOn(s, p, i);
      PassKeepsNothingDue(Run(s, TurnSteps(s, p, i)), p, i + 1, t);
    }
  }

  function AfterPasses(s: System, passes: seq<Pass>): System
    decreases |passes|
  {
    if |passes| == 0 then s else AfterPasses(EndOfPass(s, passes[0], 0), passes[1..])
  }

  predicate LaterRetries(passes: seq<Pass>) {
    forall i :: 0 <= i < |passes| ==> passes[i].retryDelay > 0
  }

  lemma PassInTurnKeepsNothingDue(s: System, p: Pass, t: int, limit: nat)
    requires PassInTurn(s, p, t, limit) && p.retryDelay > 0 && NothingDue(s, t)
    ensures NothingDue(EndOfPass(s, p, 0), t)
  {
    PassKeepsNothingDue(s, p, 0, t);
  }

  lemma {:induction false} StaysDrained(s: System, passes: seq<Pass>, t: int, limit: nat)
    requires PassesInTurn(s, passes, t, limit) && LaterRetries(passes) && DrainedBy(s, passes, t)
    ensures NothingDue(AfterPasses(s, passes), t)
    decreases |passes|
  {
    if |passes| > 0 {
      var s' := EndOfPass(s, passes[0], 0);
      if NothingDue(s, t) {
        PassInTurnKeepsNothingDue(s, passes[0], t, limit);
        assert DrainedBy(s', passes[1..], t);
      }
      StaysDrained(s', passes[1..], t, limit);
    }
  }

  lemma RankAtMostSixEach(clock: int, steps: seq<Step>)
    ensures Inv(Reached(clock, steps))
    ensures TotalRank(Reached(clock, steps).db.tasks) <= 6 * |Reached(clock, steps).db.tasks|
  {
    ReachableInv(clock, []);
    WorkRun(Initial(clock), steps);
    ReachableInv(clock, steps);
  }

  /** From any state the service reaches, three passes for each task always suffice, whatever the
      batch limit. With a positive retry delay nothing is due at t at their end. */
  lemma ThreePassesPerTask(clock: int, steps: seq<Step>, passes: seq<Pass>, t: int, limit: nat)
    requires var s := Reached(clock, steps);
      limit > 0 && PassesInTurn(s, passes, t, limit) && |passes| >= 3 * |s.db.tasks|
    ensures DrainedBy(Reached(clock, steps), passes, t)
    ensures LaterRetries(passes) ==> NothingDue(AfterPasses(Reached(clock, steps), passes), t)
  {
    RankAtMostSixEach(clock, steps);
    QueueDrains(Reached(clock, steps), passes, t, limit);
    if LaterRetries(passes) {
      StaysDrained(Reached(clock, steps), passes, t, limit);
    }
  }
}
