/** The dispatch worker (src/orchestrator/workers/dispatch.py) as it runs: a list of due tasks read
    once, then for each one claim, send and record, while other processes keep working. */
module DispatchWorker {
  import opened Models
  import opened Planner
  import opened RowUpdates
  import opened Service
  import opened RunningService
  import opened OperationalOutreach

  // The query for due tasks.

  /** ORDER BY scheduled_at, created_at. */
  predicate NotAfter(a: Task, b: Task) {
    a.scheduledAt < b.scheduledAt || (a.scheduledAt == b.scheduledAt && a.createdAt <= b.createdAt)
  }

  /** What the query may answer, in the columns: different scheduled tasks whose time has come, at
      most `limit` of them and all of them if they are fewer, by scheduled_at and then created_at, and
      none that comes after one left out; ties are broken anyhow. */
  ghost predicate IsDueSelection(tasks: seq<Task>, now: int, limit: nat, ids: seq<nat>) {
    && (forall j, k :: 0 <= j < k < |ids| ==> ids[j] != ids[k])
    && (forall k :: 0 <= k < |ids| ==>
          ids[k] < |tasks| && tasks[ids[k]].status == Scheduled && tasks[ids[k]].scheduledAt <= now)
    && |ids| <= limit
    && (|ids| < limit ==>
          forall i :: 0 <= i < |tasks| && tasks[i].status == Scheduled && tasks[i].scheduledAt <= now ==> i in ids)
    && (forall j, k :: 0 <= j < k < |ids| ==>
          || tasks[ids[j]].scheduledAt < tasks[ids[k]].scheduledAt
          || (tasks[ids[j]].scheduledAt == tasks[ids[k]].scheduledAt
              && tasks[ids[j]].createdAt <= tasks[ids[k]].createdAt))
    && (forall k, i ::
          && 0 <= k < |ids| && 0 <= i < |tasks| && i !in ids
          && tasks[i].status == Scheduled && tasks[i].scheduledAt <= now ==>
          || tasks[ids[k]].scheduledAt < tasks[i].scheduledAt
          || (tasks[ids[k]].scheduledAt == tasks[i].scheduledAt && tasks[ids[k]].createdAt <= tasks[i].createdAt))
  }

  /** An id put into an ordered list. */
  function Place(tasks: seq<Task>, ids: seq<nat>, id: nat): seq<nat>
    requires id < |tasks| && AllBelow(ids, |tasks|)
  {
    if |ids| == 0 then [id]
    else if NotAfter(tasks[id], tasks[ids[0]]) then [id] + ids
    else [ids[0]] + Place(tasks, ids[1..], id)
  }

  lemma {:induction false} PlaceHolds(tasks: seq<Task>, ids: seq<nat>, id: nat)
    requires id < |tasks| && AllBelow(ids, |tasks|)
    ensures forall x :: x in Place(tasks, ids, id) <==> x == id || x in ids
  {
    if |ids| > 0 && !NotAfter(tasks[id], tasks[ids[0]]) {
      PlaceHolds(tasks, ids[1..], id);
    }
  }

  /** Each listed task comes before all that are listed after it, and none is listed twice. */
  predicate LinedUp(tasks: seq<Task>, ids: seq<nat>) {
    |ids| > 0 ==>
      && ids[0] < |tasks|
      && (forall x :: x in ids[1..] ==> x < |tasks| && x != ids[0] && NotAfter(tasks[ids[0]], tasks[x]))
      && LinedUp(tasks, ids[1..])
  }

  lemma {:induction false} PlaceLinesUp(tasks: seq<Task>, ids: seq<nat>, id: nat)
    requires id < |tasks| && LinedUp(tasks, ids) && id !in ids && AllBelow(ids, |tasks|)
    ensures LinedUp(tasks, Place(tasks, ids, id))
  {
    if |ids| > 0 {
      if NotAfter(tasks[id], tasks[ids[0]]) {
        assert ([id] + ids)[1..] == ids;
        assert forall x :: x in ids ==> x == ids[0] || x in ids[1..];
      } else {
        PlaceLinesUp(tasks, ids[1..], id);
        PlaceHolds(tasks, ids[1..], id);
        assert Place(tasks, ids, id)[1..] == Place(tasks, ids[1..], id);
      }
    }
  }

  lemma {:induction false} LinedUpAt(tasks: seq<Task>, ids: seq<nat>, j: nat, k: nat)
    requires LinedUp(tasks, ids) && j < k < |ids|
    ensures ids[j] < |tasks| && ids[k] < |tasks| && ids[j] != ids[k] && NotAfter(tasks[ids[j]], tasks[ids[k]])
  {
    if j == 0 {
      assert ids[k] == ids[1..][k - 1] && ids[k] in ids[1..];
    } else {
      LinedUpAt(tasks, ids[1..], j - 1, k - 1);
    }
  }

  /** All due tasks among the first n rows, in order. */
  function DueInOrder(tasks: seq<Task>, now: int, n: nat): (ids: seq<nat>)
    requires n <= |tasks|
    ensures AllBelow(ids, n)
    ensures forall x: nat :: x in ids <==> x < n && IsDue(tasks[x], now)
    decreases n
  {
    if n == 0 then []
    else
      var rest := DueInOrder(tasks, now, n - 1);
      if IsDue(tasks[n - 1], now) then
        var r := Place(tasks, rest, n - 1);
        PlaceHolds(tasks, rest, n - 1);
        assert forall k :: 0 <= k < |r| ==> r[k] in r;
        r
      else rest
  }

  lemma {:induction false} DueInOrderIsOrdered(tasks: seq<Task>, now: int, n: nat)
    requires n <= |tasks|
    ensures LinedUp(tasks, DueInOrder(tasks, now, n))
    decreases n
  {
    if n > 0 {
      DueInOrderIsOrdered(tasks, now, n - 1);
      if IsDue(tasks[n - 1], now) {
        PlaceLinesUp(tasks, DueInOrder(tasks, now, n - 1), n - 1);
      }
    }
  }

  /** A prefix of an ordered list: what is left out comes no earlier. */
  lemma PrefixComesFirst(tasks: seq<Task>, all: seq<nat>, n: nat, k: nat, i: nat)
    requires LinedUp(tasks, all) && k < n <= |all| && i in all && i !in all[..n] && i < |tasks|
    ensures all[k] < |tasks| && NotAfter(tasks[all[k]], tasks[i])
  {
    var m :| 0 <= m < |all| && all[m] == i;
    assert m >= n by {
      assert forall x :: 0 <= x < n ==> all[x] in all[..n];
    }
    LinedUpAt(tasks, all, k, m);
  }

  lemma FirstDue(tasks: seq<Task>, now: int, limit: nat, n: nat)
    requires n <= |DueInOrder(tasks, now, |tasks|)|
    requires n == limit || (n < limit && n == |DueInOrder(tasks, now, |tasks|)|)
    ensures IsDueSelection(tasks, now, limit, DueInOrder(tasks, now, |tasks|)[..n])
  {
    var all := DueInOrder(tasks, now, |tasks|);
    var ids := all[..n];
    DueInOrderIsOrdered(tasks, now, |tasks|);
    assert n == |all| ==> ids == all;
    forall k | 0 <= k < |ids| ensures ids[k] < |tasks| && IsDue(tasks[ids[k]], now) {
      assert ids[k] in all;
    }
    forall j, k | 0 <= j < k < |ids| ensures ids[j] != ids[k] && NotAfter(tasks[ids[j]], tasks[ids[k]]) {
      LinedUpAt(tasks, all, j, k);
    }
    forall k, i | 0 <= k < |ids| && 0 <= i < |tasks| && i !in ids && IsDue(tasks[i], now)
      ensures NotAfter(tasks[ids[k]], tasks[i])
    {
      PrefixComesFirst(tasks, all, n, k, i);
    }
  }

  /** The query, as the worker relies on it. */
  method SelectDue(w: World, now: int, limit: nat) returns (ids: seq<nat>)
    ensures IsDueSelection(w.tasks, now, limit, ids)
  {
    var all := DueInOrder(w.tasks, now, |w.tasks|);
    var n := if |all| < limit then |all| else limit;
    FirstDue(w.tasks, now, limit, n);
    ids := all[..n];
  }

  // One task.

  /** The conditional claim with its audit row, committed before the provider is called. */
  method ClaimDueTask(w: World, id: nat, now: int, retryDelay: int) returns (claimed: bool)
    modifies w
    ensures claimed == CanClaim(old(w.Db()), id, now)
    ensures w.View() == Next(old(w.View()), ClaimTask(id, now, retryDelay))
  {
    if id >= |w.tasks| || !w.tasks[id].status.Scheduled? || w.tasks[id].scheduledAt > now {
      return false;
    }
    w.tasks := w.tasks[id := w.tasks[id].(status := Dispatching, attempts := w.tasks[id].attempts + 1)];
    var task := w.tasks[id];
    w.audit := w.audit + [DispatchStarted(id, task.attempts)];
    w.claims := w.claims + [
      Claim(id, task.attempts, task.maxAttempts, task.scheduledAt, now, retryDelay,
            StoredZone(w.Db(), task.customer), Sending, false)];
    return true;
  }

  /** _record_success. */
  method RecordSuccessfulSend(w: World, k: nat)
    requires k < |w.claims| && w.claims[k].phase.Returned?
    modifies w
    ensures w.View() == Next(old(w.View()), RecordSuccess(k))
  {
    var id := w.claims[k].task;
    w.claims := w.claims[k := w.claims[k].(phase := Closed)];
    if id >= |w.tasks| || !w.tasks[id].status.Dispatching? {
      return;
    }
    w.tasks := w.tasks[id := w.tasks[id].(status := Sent, lastError := None)];
    w.audit := w.audit + [DispatchSucceeded(id)];
  }

  /** _record_failure, deciding on the copy of the row taken at the claim. */
  method RecordFailedSend(w: World, k: nat)
    requires k < |w.claims| && w.claims[k].phase.Raising?
    modifies w
    ensures w.View() == Next(old(w.View()), RecordFailure(k))
  {
    var c := w.claims[k];
    var willRetry := c.attempts < c.maxAttempts;
    var retryScheduledAt := if willRetry then Some(c.now + c.retryDelay) else None;
    var finalStatus := if willRetry then Scheduled else TaskStatus.Failed;
    w.claims := w.claims[k := c.(phase := Closed)];
    if c.task >= |w.tasks| || !w.tasks[c.task].status.Dispatching? {
      return;
    }
    w.tasks := w.tasks[c.task := w.tasks[c.task].(
      status := finalStatus,
      scheduledAt := if retryScheduledAt.Some? then retryScheduledAt.value else c.scheduledAt,
      lastError := Some(c.phase.error))];
    w.audit := w.audit + [DispatchFailed(c.task, c.phase.error, retryScheduledAt, finalStatus)];
  }

  /** How a provider call ends. */
  datatype Answer = Accepts | Raises(error: string) | NoAnswer

  /** What other processes do before the claim, during the call and before the recording of one
      task, how its call ends, and whether the worker lives to record that. */
  datatype Turn = Turn(before: seq<Step>, during: seq<Step>, after: seq<Step>, answer: Answer, records: bool)

  predicate WorkerDies(turn: Turn) {
    turn.answer.NoAnswer? || !turn.records
  }

  /** The provider's answer to a call, and its recording. */
  function AnswerStep(turn: Turn, own: nat): Step {
    match turn.answer
    case Accepts => SendReturns(own)
    case Raises(error) => SendRaises(own, error)
    case NoAnswer => Crash(own)
  }

  function RecordStep(turn: Turn, own: nat): Step {
    if !turn.records then Crash(own)
    else if turn.answer.Accepts? then RecordSuccess(own)
    else RecordFailure(own)
  }

  /** The steps of a turn from the claim on. */
  function AfterClaim(turn: Turn, own: nat): seq<Step> {
    Foreign(turn.during, Some(own), None)
    + ([AnswerStep(turn, own)]
       + if turn.answer.NoAnswer? then [] else Foreign(turn.after, Some(own), None) + [RecordStep(turn, own)])
  }

  /** The worker is gone, and its claim with it. */
  method Die(w: World, k: nat)
    requires k < |w.claims| && !w.claims[k].phase.Closed?
    modifies w
    ensures w.View() == Next(old(w.View()), Crash(k))
  {
    w.claims := w.claims[k := w.claims[k].(phase := Closed)];
  }

  /** The adapter call and its recording. */
  method SendAndRecord(w: World, own: nat, turn: Turn)
    requires own < |w.claims| && w.claims[own].phase.Sending?
    modifies w
    ensures w.View() == Run(old(w.View()), AfterClaim(turn, own))
  {
    ghost var s0 := w.View();
    var during := Foreign(turn.during, Some(own), None);
    w.Others(during);
    ForeignRunSpares(s0, during, Some(own), None);
    ghost var s1 := w.View();
    match turn.answer {
      case NoAnswer =>
        Die(w, own);
        RunSnoc(s0, during, Crash(own));
        assert AfterClaim(turn, own) == during + [Crash(own)];
        return;
      case Accepts =>
        w.claims := w.claims[own := w.claims[own].(phase := Returned, delivered := true)];
      case Raises(error) =>
        w.claims := w.claims[own := w.claims[own].(phase := Raising(error))];
    }
    ghost var s2 := w.View();
    assert s2 == Next(s1, AnswerStep(turn, own));
    var after := Foreign(turn.after, Some(own), None);
    w.Others(after);
    ForeignRunSpares(s2, after, Some(own), None);
    RecordAnswer(w, own, turn);
    TurnRun(s0, during, AnswerStep(turn, own), after, RecordStep(turn, own));
  }

  method RecordAnswer(w: World, own: nat, turn: Turn)
    requires own < |w.claims|
    requires turn.answer.Accepts? ==> w.claims[own].phase.Returned?
    requires turn.answer.Raises? ==> w.claims[own].phase.Raising?
    requires !turn.answer.NoAnswer?
    modifies w
    ensures w.View() == Next(old(w.View()), RecordStep(turn, own))
  {
    if !turn.records {
      Die(w, own);
    } else if turn.answer.Accepts? {
      RecordSuccessfulSend(w, own);
    } else {
      RecordFailedSend(w, own);
    }
  }

  lemma TurnRun(s: System, a: seq<Step>, x: Step, b: seq<Step>, y: Step)
    ensures Run(s, a + ([x] + (b + [y]))) == Next(Run(Next(Run(s, a), x), b), y)
  {
    RunConcat(s, a, [x] + (b + [y]));
    assert ([x] + (b + [y]))[1..] == b + [y];
    RunSnoc(Next(Run(s, a), x), b, y);
  }

  // The pass.

  /** A pass over a list of ids read earlier. `turns` says what happens during each turn. */
  datatype Pass = Pass(ids: seq<nat>, now: int, retryDelay: int, turns: nat -> Turn)

  /** Whether a turn that starts in `s` gets its claim through. */
  predicate Claims(s: System, p: Pass, i: nat)
    requires i < |p.ids|
  {
    CanClaim(Run(s, p.turns(i).before).db, p.ids[i], p.now)
  }

  function OwnClaim(s: System, p: Pass, i: nat): nat
    requires i < |p.ids|
  {
    |Run(s, p.turns(i).before).claims|
  }

  /** The worker dies in turn i. */
  predicate Dies(s: System, p: Pass, i: nat)
    requires i < |p.ids|
  {
    Claims(s, p, i) && WorkerDies(p.turns(i))
  }

  function TurnSteps(s: System, p: Pass, i: nat): seq<Step>
    requires i < |p.ids|
  {
    p.turns(i).before + [ClaimTask(p.ids[i], p.now, p.retryDelay)]
    + if Claims(s, p, i) then AfterClaim(p.turns(i), OwnClaim(s, p, i)) else []
  }

  /** All steps of a pass from turn i on. */
  function PassSteps(s: System, p: Pass, i: nat): seq<Step>
    requires i <= |p.ids|
    decreases |p.ids| - i
  {
    if i == |p.ids| then []
    else
      var steps := TurnSteps(s, p, i);
      if Dies(s, p, i) then steps else steps + PassSteps(Run(s, steps), p, i + 1)
  }

  /** The claims a pass makes from turn i on. */
  function PassClaims(s: System, p: Pass, i: nat): seq<nat>
    requires i <= |p.ids|
    decreases |p.ids| - i
  {
    if i == |p.ids| then []
    else
      (if Claims(s, p, i) then [OwnClaim(s, p, i)] else [])
      + if Dies(s, p, i) then [] else PassClaims(Run(s, TurnSteps(s, p, i)), p, i + 1)
  }

  function EndOfPass(s: System, p: Pass, i: nat): System
    requires i <= |p.ids|
  {
    Run(s, PassSteps(s, p, i))
  }

  /** A pass ends where the rest of it, run from the end of the first turn, ends. */
  lemma PassGoesOn(s: System, p: Pass, i: nat)
    requires i < |p.ids|
    ensures var s' := Run(s, TurnSteps(s, p, i));
      EndOfPass(s, p, i) == if Dies(s, p, i) then s' else EndOfPass(s', p, i + 1)
  {
    if !Dies(s, p, i) {
      var steps := TurnSteps(s, p, i);
      RunConcat(s, steps, PassSteps(Run(s, steps), p, i + 1));
    }
  }

  /** A turn that claims makes a new claim on its own task. */
  lemma TurnClaims(s: System, p: Pass, i: nat)
    requires i < |p.ids|
    ensures var s' := Run(s, TurnSteps(s, p, i));
      && |s.claims| <= OwnClaim(s, p, i) && |s.claims| <= |s'.claims|
      && (Claims(s, p, i) ==> OwnClaim(s, p, i) < |s'.claims| && s'.claims[OwnClaim(s, p, i)].task == p.ids[i])
  {
    var before := p.turns(i).before;
    var claim := ClaimTask(p.ids[i], p.now, p.retryDelay);
    ClaimsOnlyGrow(s, before);
    RunSnoc(s, before, claim);
    var s1 := Run(s, before + [claim]);
    if Claims(s, p, i) {
      RunConcat(s, before + [claim], AfterClaim(p.turns(i), OwnClaim(s, p, i)));
      ClaimsOnlyGrow(s1, AfterClaim(p.turns(i), OwnClaim(s, p, i)));
    } else {
      assert TurnSteps(s, p, i) == before + [claim];
    }
  }

  /** That claim is still there at the end of the pass. */
  lemma FirstClaimKept(s: System, p: Pass, i: nat)
    requires i < |p.ids|
    ensures |s.claims| <= |Run(s, TurnSteps(s, p, i)).claims|
    ensures Claims(s, p, i) ==>
      && |s.claims| <= OwnClaim(s, p, i) < |Run(s, TurnSteps(s, p, i)).claims| <= |EndOfPass(s, p, i).claims|
      && EndOfPass(s, p, i).claims[OwnClaim(s, p, i)].task == p.ids[i]
  {
    var s' := Run(s, TurnSteps(s, p, i));
    TurnClaims(s, p, i);
    PassGoesOn(s, p, i);
    if !Dies(s, p, i) {
      ClaimsOnlyGrow(s', PassSteps(s', p, i + 1));
    }
  }

  /** All claims of the list are on tasks of another list, and none is older than `first`. */
  ghost predicate ClaimsListed(claims: seq<Claim>, first: nat, mine: seq<nat>, ids: seq<nat>) {
    forall j :: 0 <= j < |mine| ==> first <= mine[j] < |claims| && claims[mine[j]].task in ids
  }

  lemma ListedFromEarlier(claims: seq<Claim>, first: nat, later: nat, mine: seq<nat>, ids: seq<nat>, i: nat)
    requires i < |ids| && first <= later && ClaimsListed(claims, later, mine, ids[i + 1..])
    ensures ClaimsListed(claims, first, mine, ids[i..])
  {
    assert ids[i..] == [ids[i]] + ids[i + 1..];
  }

  lemma ListedWithFirst(claims: seq<Claim>, first: nat, own: nat, rest: seq<nat>, ids: seq<nat>)
    requires first <= own < |claims| && claims[own].task in ids && ClaimsListed(claims, first, rest, ids)
    ensures ClaimsListed(claims, first, [own] + rest, ids)
  {
  }

  /** The claims a pass makes after turn i. */
  function LaterClaims(s: System, p: Pass, i: nat): seq<nat>
    requires i < |p.ids|
  {
    if Dies(s, p, i) then [] else PassClaims(Run(s, TurnSteps(s, p, i)), p, i + 1)
  }

  /** The claims of a pass are those of its first turn and those of the turns after it. */
  lemma PassClaimsSplit(s: System, p: Pass, i: nat)
    requires i < |p.ids|
    ensures PassClaims(s, p, i)
         == if Claims(s, p, i) then [OwnClaim(s, p, i)] + LaterClaims(s, p, i) else LaterClaims(s, p, i)
  {
  }

  /** The pass makes its claims on tasks of its list, and after turn i, on later ones. */
  lemma {:induction false} PassClaimsListed(s: System, p: Pass, i: nat)
    requires i <= |p.ids|
    ensures ClaimsListed(EndOfPass(s, p, i).claims, |s.claims|, PassClaims(s, p, i), p.ids[i..])
    decreases |p.ids| - i
  {
    if i < |p.ids| {
      var s' := Run(s, TurnSteps(s, p, i));
      var end := EndOfPass(s, p, i).claims;
      var rest := if Dies(s, p, i) then [] else PassClaims(s', p, i + 1);
      FirstClaimKept(s, p, i);
      PassGoesOn(s, p, i);
      PassClaimsSplit(s, p, i);
      if !Dies(s, p, i) {
        PassClaimsListed(s', p, i + 1);
        ListedFromEarlier(end, |s.claims|, |s'.claims|, rest, p.ids, i);
      }
      if Claims(s, p, i) {
        assert p.ids[i] == p.ids[i..][0];
        ListedWithFirst(end, |s.claims|, OwnClaim(s, p, i), rest, p.ids[i..]);
      }
    }
  }

  ghost predicate OneClaimPerTask(claims: seq<Claim>, mine: seq<nat>) {
    && (forall j :: 0 <= j < |mine| ==> mine[j] < |claims|)
    && forall j, k :: 0 <= j < k < |mine| ==>
         mine[j] != mine[k] && claims[mine[j]].task != claims[mine[k]].task
  }

  lemma OneMoreClaim(claims: seq<Claim>, own: nat, rest: seq<nat>, ids: seq<nat>)
    requires OneClaimPerTask(claims, rest) && ClaimsListed(claims, own + 1, rest, ids)
    requires own < |claims| && claims[own].task !in ids
    ensures OneClaimPerTask(claims, [own] + rest)
  {
  }

  /** From turn i on, the pass claims no task twice. */
  ghost predicate ClaimsOnce(s: System, p: Pass, i: nat)
    requires i <= |p.ids|
  {
    && OneClaimPerTask(EndOfPass(s, p, i).claims, PassClaims(s, p, i))
    && |PassClaims(s, p, i)| <= |p.ids| - i
  }

  lemma LaterClaimsOnce(s: System, p: Pass, i: nat)
    requires i < |p.ids|
    requires Dies(s, p, i) || ClaimsOnce(Run(s, TurnSteps(s, p, i)), p, i + 1)
    ensures var end, later := EndOfPass(s, p, i).claims, LaterClaims(s, p, i);
      && OneClaimPerTask(end, later) && |later| <= |p.ids| - i - 1
      && ClaimsListed(end, |Run(s, TurnSteps(s, p, i)).claims|, later, p.ids[i + 1..])
  {
    PassGoesOn(s, p, i);
    if !Dies(s, p, i) {
      PassClaimsListed(Run(s, TurnSteps(s, p, i)), p, i + 1);
    }
  }

  lemma ClaimsOnceFromRest(s: System, p: Pass, i: nat)
    requires i < |p.ids| && Distinct(p.ids)
    requires Dies(s, p, i) || ClaimsOnce(Run(s, TurnSteps(s, p, i)), p, i + 1)
    ensures ClaimsOnce(s, p, i)
  {
    PassClaimsSplit(s, p, i);
    LaterClaimsOnce(s, p, i);
    if Claims(s, p, i) {
      OneMoreOfPass(s, p, i, LaterClaims(s, p, i));
    }
  }

  /** No task is claimed twice in a pass, whatever others do to it meanwhile. */
  lemma {:induction false} PassClaimsOnce(s: System, p: Pass, i: nat)
    requires i <= |p.ids| && Distinct(p.ids)
    ensures ClaimsOnce(s, p, i)
    decreases |p.ids| - i
  {
    if i < |p.ids| {
      if !Dies(s, p, i) {
        PassClaimsOnce(Run(s, TurnSteps(s, p, i)), p, i + 1);
      }
      ClaimsOnceFromRest(s, p, i);
    }
  }

  lemma OneMoreOfPass(s: System, p: Pass, i: nat, rest: seq<nat>)
    requires i < |p.ids| && Distinct(p.ids) && Claims(s, p, i)
    requires OneClaimPerTask(EndOfPass(s, p, i).claims, rest)
    requires ClaimsListed(EndOfPass(s, p, i).claims, |Run(s, TurnSteps(s, p, i)).claims|, rest, p.ids[i + 1..])
    ensures OneClaimPerTask(EndOfPass(s, p, i).claims, [OwnClaim(s, p, i)] + rest)
  {
    FirstClaimKept(s, p, i);
    OneMoreClaim(EndOfPass(s, p, i).claims, OwnClaim(s, p, i), rest, p.ids[i + 1..]);
  }

  /** In a turn that starts in `s`: when the worker comes to the i-th task of its list, that is still
      scheduled and due. */
  predicate StillDueAtTurn(s: System, p: Pass, i: nat)
    requires i < |p.ids|
  {
    var tasks := Run(s, p.turns(i).before).db.tasks;
    p.ids[i] < |tasks| && tasks[p.ids[i]].status == Scheduled && tasks[p.ids[i]].scheduledAt <= p.now
  }

  /** The positions of those tasks, from turn i on. */
  function DueTurns(s: System, p: Pass, i: nat): seq<nat>
    requires i <= |p.ids|
    decreases |p.ids| - i
  {
    if i == |p.ids| then []
    else (if StillDueAtTurn(s, p, i) then [i] else []) + DueTurns(Run(s, TurnSteps(s, p, i)), p, i + 1)
  }

  /** The service after all turns from turn i on. */
  function AfterTurns(s: System, p: Pass, i: nat): System
    requires i <= |p.ids|
    decreases |p.ids| - i
  {
    if i == |p.ids| then s else AfterTurns(Run(s, TurnSteps(s, p, i)), p, i + 1)
  }

  ghost predicate NobodyDies(p: Pass) {
    forall i :: 0 <= i < |p.ids| ==> !WorkerDies(p.turns(i))
  }

  /** Claim mine[m] is on the task at position turns[m]. */
  ghost predicate ClaimsThese(claims: seq<Claim>, mine: seq<nat>, ids: seq<nat>, turns: seq<nat>) {
    && |mine| == |turns|
    && forall m :: 0 <= m < |mine| ==>
         mine[m] < |claims| && turns[m] < |ids| && claims[mine[m]].task == ids[turns[m]]
  }

  lemma TheseWithFirst(claims: seq<Claim>, own: nat, mine: seq<nat>, ids: seq<nat>, i: nat, turns: seq<nat>)
    requires ClaimsThese(claims, mine, ids, turns)
    requires own < |claims| && i < |ids| && claims[own].task == ids[i]
    ensures ClaimsThese(claims, [own] + mine, ids, [i] + turns)
  {
  }

  lemma TurnTakesItsTask(s: System, p: Pass, i: nat, turns: seq<nat>)
    requires i < |p.ids| && !WorkerDies(p.turns(i))
    requires var s' := Run(s, TurnSteps(s, p, i));
      ClaimsThese(EndOfPass(s', p, i + 1).claims, PassClaims(s', p, i + 1), p.ids, turns)
    ensures EndOfPass(s, p, i) == EndOfPass(Run(s, TurnSteps(s, p, i)), p, i + 1)
    ensures ClaimsThese(EndOfPass(s, p, i).claims, PassClaims(s, p, i), p.ids,
                        if Claims(s, p, i) then [i] + turns else turns)
  {
    PassGoesOn(s, p, i);
    PassClaimsSplit(s, p, i);
    if Claims(s, p, i) {
      FirstClaimKept(s, p, i);
      TheseWithFirst(EndOfPass(s, p, i).claims, OwnClaim(s, p, i), PassClaims(Run(s, TurnSteps(s, p, i)), p, i + 1),
                     p.ids, i, turns);
    }
  }

  /** Whatever others do meanwhile, a pass claims exactly the listed tasks that are still scheduled and
      due when it comes to them, and goes through its whole list. */
  lemma {:induction false} PassTakesWhatIsDue(s: System, p: Pass, i: nat)
    requires i <= |p.ids| && NobodyDies(p)
    ensures EndOfPass(s, p, i) == AfterTurns(s, p, i)
    ensures ClaimsThese(EndOfPass(s, p, i).claims, PassClaims(s, p, i), p.ids, DueTurns(s, p, i))
    decreases |p.ids| - i
  {
    if i < |p.ids| {
      var s' := Run(s, TurnSteps(s, p, i));
      PassTakesWhatIsDue(s', p, i + 1);
      TurnTakesItsTask(s, p, i, DueTurns(s', p, i + 1));
    }
  }

  /** Nobody else works during the turn, and the worker survives it. */
  predicate UndisturbedTurn(turn: Turn) {
    turn.before == [] && turn.during == [] && turn.after == [] && !WorkerDies(turn)
  }

  ghost predicate Undisturbed(turns: nat -> Turn) {
    forall i :: UndisturbedTurn(turns(i))
  }

  /** An undisturbed call and its recording touch the row of its own task only. */
  lemma UndisturbedSend(s: System, own: nat, turn: Turn)
    requires own < |s.claims| && s.claims[own].phase.Sending? && UndisturbedTurn(turn)
    ensures var s' := Run(s, AfterClaim(turn, own));
      |s'.db.tasks| == |s.db.tasks|
      && forall j :: 0 <= j < |s.db.tasks| && j != s.claims[own].task ==> s'.db.tasks[j] == s.db.tasks[j]
  {
    assert AfterClaim(turn, own) == [] + ([AnswerStep(turn, own)] + ([] + [RecordStep(turn, own)]));
    TurnRun(s, [], AnswerStep(turn, own), [], RecordStep(turn, own));
  }

  lemma UndisturbedTurnSpares(s: System, p: Pass, i: nat)
    requires i < |p.ids| && UndisturbedTurn(p.turns(i)) && CanClaim(s.db, p.ids[i], p.now)
    ensures Claims(s, p, i) && !Dies(s, p, i)
    ensures var s' := Run(s, TurnSteps(s, p, i));
      |s'.db.tasks| == |s.db.tasks|
      && forall j :: 0 <= j < |s.db.tasks| && j != p.ids[i] ==> s'.db.tasks[j] == s.db.tasks[j]
  {
    var claim := ClaimTask(p.ids[i], p.now, p.retryDelay);
    RunSnoc(s, [], claim);
    RunConcat(s, [] + [claim], AfterClaim(p.turns(i), |s.claims|));
    UndisturbedSend(Next(s, claim), |s.claims|, p.turns(i));
  }

  ghost predicate StillDue(db: Store, p: Pass, from: nat) {
    forall k :: from <= k < |p.ids| ==> CanClaim(db, p.ids[k], p.now)
  }

  ghost predicate ClaimsAll(claims: seq<Claim>, mine: seq<nat>, ids: seq<nat>) {
    |mine| == |ids| && forall j :: 0 <= j < |ids| ==> mine[j] < |claims| && claims[mine[j]].task == ids[j]
  }

  lemma ClaimsAllWithFirst(claims: seq<Claim>, own: nat, rest: seq<nat>, id: nat, ids: seq<nat>)
    requires ClaimsAll(claims, rest, ids) && own < |claims| && claims[own].task == id
    ensures ClaimsAll(claims, [own] + rest, [id] + ids)
  {
  }

  lemma StillDueAfter(s: System, p: Pass, i: nat)
    requires i < |p.ids| && Distinct(p.ids) && Undisturbed(p.turns) && StillDue(s.db, p, i)
    ensures UndisturbedTurn(p.turns(i)) && CanClaim(s.db, p.ids[i], p.now)
    ensures Claims(s, p, i) && !Dies(s, p, i) && StillDue(Run(s, TurnSteps(s, p, i)).db, p, i + 1)
  {
    assert UndisturbedTurn(p.turns(i));
    UndisturbedTurnSpares(s, p, i);
  }

  lemma FirstThenRest(s: System, p: Pass, i: nat)
    requires i < |p.ids| && Claims(s, p, i) && !Dies(s, p, i)
    ensures var s' := Run(s, TurnSteps(s, p, i));
      && EndOfPass(s, p, i) == EndOfPass(s', p, i + 1)
      && PassClaims(s, p, i) == [OwnClaim(s, p, i)] + PassClaims(s', p, i + 1)
      && OwnClaim(s, p, i) < |EndOfPass(s, p, i).claims|
      && EndOfPass(s, p, i).claims[OwnClaim(s, p, i)].task == p.ids[i]
  {
    FirstClaimKept(s, p, i);
    PassGoesOn(s, p, i);
    PassClaimsSplit(s, p, i);
  }

  lemma UndisturbedTurnFirst(s: System, p: Pass, i: nat)
    requires i < |p.ids| && Claims(s, p, i) && !Dies(s, p, i)
    requires var s' := Run(s, TurnSteps(s, p, i));
      ClaimsAll(EndOfPass(s', p, i + 1).claims, PassClaims(s', p, i + 1), p.ids[i + 1..])
    ensures ClaimsAll(EndOfPass(s, p, i).claims, PassClaims(s, p, i), p.ids[i..])
  {
    FirstThenRest(s, p, i);
    assert p.ids[i..] == [p.ids[i]] + p.ids[i + 1..];
    ClaimsAllWithFirst(EndOfPass(s, p, i).claims, OwnClaim(s, p, i),
                       PassClaims(Run(s, TurnSteps(s, p, i)), p, i + 1), p.ids[i], p.ids[i + 1..]);
  }

  /** Left alone, a pass claims every task of its list, in order. */
  lemma {:induction false} UndisturbedPassTakesAll(s: System, p: Pass, i: nat)
    requires i <= |p.ids| && Distinct(p.ids) && Undisturbed(p.turns) && StillDue(s.db, p, i)
    ensures ClaimsAll(EndOfPass(s, p, i).claims, PassClaims(s, p, i), p.ids[i..])
    decreases |p.ids| - i
  {
    if i < |p.ids| {
      StillDueAfter(s, p, i);
      UndisturbedPassTakesAll(Run(s, TurnSteps(s, p, i)), p, i + 1);
      UndisturbedTurnFirst(s, p, i);
    }
  }

  /** One turn of the loop: the claim, and if it took the row, the send and its recording. */
  method TakeTurn(w: World, p: Pass, i: nat) returns (claimed: bool)
    requires i < |p.ids|
    modifies w
    ensures w.View() == Run(old(w.View()), TurnSteps(old(w.View()), p, i))
    ensures claimed == Claims(old(w.View()), p, i)
  {
    ghost var s0 := w.View();
    var turn := p.turns(i);
    ghost var claim := ClaimTask(p.ids[i], p.now, p.retryDelay);
    w.Others(turn.before);
    RunSnoc(s0, turn.before, claim);
    claimed := ClaimDueTask(w, p.ids[i], p.now, p.retryDelay);
    if claimed {
      SendAndRecord(w, |w.claims| - 1, turn);
      RunConcat(s0, turn.before + [claim], AfterClaim(turn, OwnClaim(s0, p, i)));
    } else {
      assert TurnSteps(s0, p, i) == turn.before + [claim];
    }
  }

  /** The loop over the ids read, whatever has become of them since. */
  method DispatchSelected(w: World, p: Pass) returns (attempted: nat)
    modifies w
    ensures w.View() == EndOfPass(old(w.View()), p, 0)
    ensures attempted == |PassClaims(old(w.View()), p, 0)|
  {
    ghost var start := w.View();
    attempted := 0;
    var i := 0;
    while i < |p.ids|
      invariant i <= |p.ids|
      invariant EndOfPass(w.View(), p, i) == EndOfPass(start, p, 0)
      invariant attempted + |PassClaims(w.View(), p, i)| == |PassClaims(start, p, 0)|
    {
      PassGoesOn(w.View(), p, i);
      PassClaimsSplit(w.View(), p, i);
      var claimed := TakeTurn(w, p, i);
      if claimed {
        attempted := attempted + 1;
      }
      if claimed && WorkerDies(p.turns(i)) {
        break;
      }
      i := i + 1;
    }
  }

  /** dispatch_due_tasks. However others interleave, the pass is a run of the service, claims no
      task twice, and returns the number of its claims; left alone, it attempts exactly the first
      min(limit, due) tasks in the order of the query. */
  method DispatchDueTasks(w: World, now: int, limit: nat, retryDelay: int, turns: nat -> Turn)
    returns (attempted: nat, ghost p: Pass)
    modifies w
    ensures p.now == now && p.retryDelay == retryDelay && p.turns == turns
    ensures IsDueSelection(old(w.tasks), now, limit, p.ids)
    ensures w.View() == EndOfPass(old(w.View()), p, 0)
    ensures attempted == |PassClaims(old(w.View()), p, 0)| <= |p.ids|
    ensures OneClaimPerTask(w.claims, PassClaims(old(w.View()), p, 0))
    ensures Undisturbed(turns) ==> ClaimsAll(w.claims, PassClaims(old(w.View()), p, 0), p.ids)
  {
    var ids := SelectDue(w, now, limit);
    var pass := Pass(ids, now, retryDelay, turns);
    p := pass;
    ghost var s := w.View();
    attempted := DispatchSelected(w, pass);
    PassClaimsOnce(s, p, 0);
    if Undisturbed(turns) {
      UndisturbedPassTakesAll(s, p, 0);
      assert p.ids[0..] == p.ids;
    }
  }
}
