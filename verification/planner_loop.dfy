/** The planning loop in closed form: which proposals get a task, and how the counters add up. */
module PlannerLoop {
  import opened Counting
  import opened Models
  import opened Policy
  import opened Planner
  import opened Evolution
  import opened Insertion

  /** Proposals no block rule touches. Blocking does not depend on the recent count or the cap. */
  function Unblocked(s: Subject): Proposal -> bool {
    (p: Proposal) => Permits(s, p.channel)
  }

  function NonBlocked(s: Subject, proposals: seq<Proposal>): nat {
    Count(proposals, Unblocked(s))
  }

  function Min(a: int, b: int): int { if a <= b then a else b }
  function Max(a: int, b: int): int { if a <= b then b else a }

  /** How many tasks a pass creates: one per unblocked proposal while the cap leaves room. */
  function CreatedBy(s: Subject, proposals: seq<Proposal>, recent: nat, cap: nat): nat {
    Min(NonBlocked(s, proposals), Max(0, cap - recent))
  }

  lemma PlanOneCreates(g: Progress, s: Subject, p: Proposal, cap: nat)
    ensures var g' := PlanOne(g, s, p, cap);
      && (g'.created == g.created + 1 <==> Unblocked(s)(p) && g.recent < cap)
      && (g'.created != g.created + 1 ==> g'.created == g.created)
      && (g'.blocked == g.blocked + 1 <==> !Unblocked(s)(p))
      && (g'.blocked != g.blocked + 1 ==> g'.blocked == g.blocked)
      && g'.recent - g.recent == g'.created - g.created
  {
    var i := InputFor(s, p, g.recent, cap);
    OutcomeMeaning(i);
    ReasonsMeaning(i);
    assert IsBlocked(i) == IsBlocked(InputFor(s, p, 0, 0));
  }

  /** created = min(non-blocked, max(0, cap - recent)), and every proposal is created, blocked or capped. */
  lemma {:induction false} PlanAllClosedForm(g: Progress, s: Subject, proposals: seq<Proposal>, cap: nat)
    ensures var g' := PlanAll(g, s, proposals, cap);
      && g'.created == g.created + CreatedBy(s, proposals, g.recent, cap)
      && g'.recent == g.recent + CreatedBy(s, proposals, g.recent, cap)
      && g'.blocked == g.blocked + |proposals| - NonBlocked(s, proposals)
    decreases |proposals|
  {
    if |proposals| > 0 {
      var one := PlanOne(g, s, proposals[0], cap);
      PlanOneCreates(g, s, proposals[0], cap);
      CountHead(proposals, Unblocked(s));
      PlanAllClosedForm(one, s, proposals[1..], cap);
    }
  }

  lemma {:induction false} PlanAllSplit(g: Progress, s: Subject, a: seq<Proposal>, b: seq<Proposal>, cap: nat)
    ensures PlanAll(g, s, a + b, cap) == PlanAll(PlanAll(g, s, a, cap), s, b, cap)
    decreases |a|
  {
    if |a| == 0 {
      assert a + b == b;
    } else {
      assert (a + b)[1..] == a[1..] + b;
      PlanAllSplit(PlanOne(g, s, a[0], cap), s, a[1..], b, cap);
    }
  }

  /** The decision one proposal gets. */
  function DecisionOn(s: Subject, p: Proposal, recent: nat, cap: nat): Decision {
    DecisionRow(s, Evaluate(InputFor(s, p, recent, cap)))
  }

  lemma DecisionOnMeaning(s: Subject, p: Proposal, recent: nat, cap: nat)
    ensures var d := DecisionOn(s, p, recent, cap);
      && (Schedulable(d) <==> Unblocked(s)(p) && recent < cap)
      && (FrequencyCapExceeded in d.reasons <==> Unblocked(s)(p) && recent >= cap)
  {
    var i := InputFor(s, p, recent, cap);
    OutcomeMeaning(i);
    ReasonsMeaning(i);
    assert IsBlocked(i) == IsBlocked(InputFor(s, p, 0, 0));
  }

  lemma NthDecision(g: Progress, s: Subject, a: seq<Proposal>, p: Proposal, rest: seq<Proposal>, cap: nat)
    ensures var decisions := PlanAll(g, s, a + ([p] + rest), cap).db.decisions;
      && |g.db.decisions| + |a| < |decisions|
      && decisions[|g.db.decisions| + |a|] == DecisionOn(s, p, PlanAll(g, s, a, cap).recent, cap)
  {
    var mid := PlanAll(g, s, a, cap);
    PlanAllSplit(g, s, a, [p] + rest, cap);
    PlanAllSizes(g, s, a, cap);
    assert ([p] + rest)[1..] == rest;
    PlanAllShape(PlanOne(mid, s, p, cap), s, rest, cap);
  }

  /** A decision as the policy makes it when `recent` attempts were counted and the proposals in
      `before` came first: the count is raised by the tasks of those, so that it stands for a task
      exactly when it is unblocked and fewer than `cap - recent` unblocked proposals precede it. */
  ghost predicate AsDecided(d: Decision, s: Subject, before: seq<Proposal>, p: Proposal, recent: nat, cap: nat) {
    && (var r := Evaluate(InputFor(s, p, recent + CreatedBy(s, before, recent, cap), cap));
        d == Decision(s.event, s.accountId, s.customerId, p.channel, r.decision, r.reasons))
    && (Schedulable(d) <==> Unblocked(s)(p) && recent + NonBlocked(s, before) < cap)
    && (FrequencyCapExceeded in d.reasons <==> Unblocked(s)(p) && recent + NonBlocked(s, before) >= cap)
  }

  lemma DecisionAfter(d: Decision, s: Subject, before: seq<Proposal>, p: Proposal, recent: nat, cap: nat)
    requires d == DecisionOn(s, p, recent + CreatedBy(s, before, recent, cap), cap)
    ensures AsDecided(d, s, before, p, recent, cap)
  {
    var now := recent + CreatedBy(s, before, recent, cap);
    RoomLeft(s, before, recent, cap);
    DecisionOnMeaning(s, p, now, cap);
    DecisionInColumns(s, p, now, cap);
  }

  /** Tasks go to proposals in order: however the list is split, the decision on the proposal after the
      first ones is made after those. */
  lemma PlanAllInOrder(g: Progress, s: Subject, before: seq<Proposal>, p: Proposal, rest: seq<Proposal>, cap: nat)
    ensures var decisions := PlanAll(g, s, before + ([p] + rest), cap).db.decisions;
      && |g.db.decisions| + |before| < |decisions|
      && AsDecided(decisions[|g.db.decisions| + |before|], s, before, p, g.recent, cap)
  {
    CountedDecision(g, s, before, p, rest, cap);
    var d := PlanAll(g, s, before + ([p] + rest), cap).db.decisions[|g.db.decisions| + |before|];
    DecisionAfter(d, s, before, p, g.recent, cap);
  }

  lemma CountedDecision(g: Progress, s: Subject, before: seq<Proposal>, p: Proposal, rest: seq<Proposal>, cap: nat)
    ensures var decisions := PlanAll(g, s, before + ([p] + rest), cap).db.decisions;
      && |g.db.decisions| + |before| < |decisions|
      && decisions[|g.db.decisions| + |before|]
         == DecisionOn(s, p, g.recent + CreatedBy(s, before, g.recent, cap), cap)
  {
    NthDecision(g, s, before, p, rest, cap);
    PlanAllClosedForm(g, s, before, cap);
  }

  lemma RoomLeft(s: Subject, proposals: seq<Proposal>, recent: nat, cap: nat)
    ensures recent + CreatedBy(s, proposals, recent, cap) < cap <==> recent + NonBlocked(s, proposals) < cap
  {
  }

  lemma DecisionInColumns(s: Subject, p: Proposal, recent: nat, cap: nat)
    ensures var r := Evaluate(InputFor(s, p, recent, cap));
      DecisionOn(s, p, recent, cap) == Decision(s.event, s.accountId, s.customerId, p.channel, r.decision, r.reasons)
  {
    OutcomeMeaning(InputFor(s, p, recent, cap));
  }

  function CapDeferred(): Decision -> bool {
    (d: Decision) => FrequencyCapExceeded in d.reasons
  }

  /** The decisions a pass adds. */
  function NewDecisions(g: Progress, s: Subject, proposals: seq<Proposal>, cap: nat): seq<Decision> {
    PlanAllSizes(g, s, proposals, cap);
    PlanAll(g, s, proposals, cap).db.decisions[|g.db.decisions|..]
  }

  lemma NewDecisionsHead(g: Progress, s: Subject, proposals: seq<Proposal>, cap: nat)
    requires |proposals| > 0
    ensures NewDecisions(g, s, proposals, cap)
         == [DecisionOn(s, proposals[0], g.recent, cap)]
             + NewDecisions(PlanOne(g, s, proposals[0], cap), s, proposals[1..], cap)
  {
    PlanAllSizes(g, s, proposals, cap);
    PlanAllShape(PlanOne(g, s, proposals[0], cap), s, proposals[1..], cap);
  }

  /** created + blocked + cap-deferred = decisions = proposals. */
  lemma {:induction false} PlanAllPartition(g: Progress, s: Subject, proposals: seq<Proposal>, cap: nat)
    ensures var g' := PlanAll(g, s, proposals, cap);
      var added := NewDecisions(g, s, proposals, cap);
      && (g'.created - g.created) + (g'.blocked - g.blocked) + Count(added, CapDeferred()) == g'.decisions - g.decisions
      && g'.decisions - g.decisions == |added| == |proposals|
    decreases |proposals|
  {
    PlanAllSizes(g, s, proposals, cap);
    if |proposals| > 0 {
      var one := PlanOne(g, s, proposals[0], cap);
      PlanAllPartition(one, s, proposals[1..], cap);
      PlanOneCreates(g, s, proposals[0], cap);
      DecisionOnMeaning(s, proposals[0], g.recent, cap);
      NewDecisionsHead(g, s, proposals, cap);
      CountHead(NewDecisions(g, s, proposals, cap), CapDeferred());
    }
  }
}
