/** Submissions that end in an error because another event has their key text. */
module KeyCollisions {
  import opened Models
  import opened InboundEvents
  import opened Ingestion
  import opened Service
  import opened Evolution
  import opened Delivery
  import opened RunInvariant
  import opened Guarantees
  import opened Counterexamples

  /** An open submission of this identity whose insertion ends in the integrity error, although no
      event has the identity. */
  predicate FailsAt(s: System, i: nat, source: string, externalId: string) {
    && CanInsert(s, i, None)
    && s.submissions[i].request.source == source && s.submissions[i].request.externalId == externalId
    && FindEvent(s.db.events, source, externalId).None?
    && InsertEvent(s.db, s.submissions[i].request, None).Raised?
  }

  // Only identities the API takes are submitted.

  const MAX_IDENTITY: nat := 255

  predicate Presentable(identity: string) {
    1 <= |identity| <= MAX_IDENTITY
  }

  predicate TakenByApi(steps: seq<Step>) {
    forall i :: 0 <= i < |steps| && steps[i].Submit? ==>
      Presentable(steps[i].request.source) && Presentable(steps[i].request.externalId)
  }

  ghost predicate AllPresentable(s: System) {
    && (forall i :: 0 <= i < |s.submissions| ==>
          Presentable(s.submissions[i].request.source) && Presentable(s.submissions[i].request.externalId))
    && (forall i :: 0 <= i < |s.db.events| ==>
          Presentable(s.db.events[i].source) && Presentable(s.db.events[i].externalId))
  }

  lemma InsertPresentable(s: System, i: nat, earlier: Option<seq<nat>>)
    requires Inv(s) && AllPresentable(s) && CanInsert(s, i, earlier)
    ensures AllPresentable(NextInsert(s, i, earlier))
  {
    InsertedOrNot(s, i, earlier);
    PlannedEvents(s.db, s.submissions[i].request, earlier);
    InsertClosesOne(s, i, earlier);
  }

  lemma InsertClosesOne(s: System, i: nat, earlier: Option<seq<nat>>)
    requires CanInsert(s, i, earlier)
    ensures NextInsert(s, i, earlier).submissions == CloseSubmission(s, i).submissions
  {
  }

  lemma StepPresentable(s: System, step: Step)
    requires Inv(s) && AllPresentable(s) && TakenByApi([step])
    ensures AllPresentable(Next(s, step))
  {
    assert [step][0] == step;
    if step.Insert? {
      if CanInsert(s, step.submission, step.earlier) {
        InsertPresentable(s, step.submission, step.earlier);
      }
    } else if WritesRows(step) {
      RowWriterStep(s, step);
      RowWritersSubmitNothing(s, step);
    }
  }

  lemma RowWritersSubmitNothing(s: System, step: Step)
    requires WritesRows(step)
    ensures Next(s, step).submissions == s.submissions
  {
  }

  lemma {:induction false} RunPresentable(s: System, steps: seq<Step>)
    requires Inv(s) && AllPresentable(s) && TakenByApi(steps)
    ensures AllPresentable(Run(s, steps))
    decreases |steps|
  {
    if |steps| > 0 {
      StepPresentable(s, steps[0]);
      StepKeeps(s, steps[0]);
      RunPresentable(Next(s, steps[0]), steps[1..]);
    }
  }

  // The exact condition.

  /** Some run of presentable submissions turns this identity away. */
  ghost predicate CanFail(source: string, externalId: string) {
    exists clock, steps, i: nat :: TakenByApi(steps) && FailsAt(Reached(clock, steps), i, source, externalId)
  }

  /** The key text can be read at position j as another identity the API takes. */
  predicate ReadsOtherwise(source: string, externalId: string, j: nat) {
    var key := Key(source, externalId);
    && j < |key| && j != |source| && key[j] == SEPARATOR
    && Presentable(key[..j]) && Presentable(key[j + 1..])
  }

  lemma OtherIdentityReads(source: string, externalId: string, source': string, externalId': string)
    requires (source', externalId') != (source, externalId) && Key(source', externalId') == Key(source, externalId)
    requires Presentable(source') && Presentable(externalId')
    ensures ReadsOtherwise(source, externalId, |source'|)
  {
    var key, key' := Key(source, externalId), Key(source', externalId');
    assert key'[..|source'|] == source' && key'[|source'| + 1..] == externalId' && key'[|source'|] == SEPARATOR;
    assert key[..|source|] == source && key[|source| + 1..] == externalId;
  }

  lemma FailureReadsOtherwise(clock: int, steps: seq<Step>, i: nat, source: string, externalId: string) returns (j: nat)
    requires TakenByApi(steps) && FailsAt(Reached(clock, steps), i, source, externalId)
    ensures ReadsOtherwise(source, externalId, j)
  {
    ReachableInv(clock, []);
    RunPresentable(Initial(clock), steps);
    ReachableInv(clock, steps);
    var db := Reached(clock, steps).db;
    VerdictOf(db, Reached(clock, steps).submissions[i].request, None);
    var e :| 0 <= e < |db.events| && db.events[e].key == Key(source, externalId);
    assert (db.events[e].source, db.events[e].externalId) != (source, externalId);
    OtherIdentityReads(source, externalId, db.events[e].source, db.events[e].externalId);
    j := |db.events[e].source|;
  }

  function Payment(source: string, externalId: string): Request {
    Request(source, externalId, PaymentReceived, WILLING, AccountSnapshot("b", Current), 0)
  }

  /** The service after a payment with one identity, and the submission of one with another. */
  function Colliding(first: (string, string), second: (string, string)): seq<Step> {
    Accept(Initial(0), Payment(first.0, first.1)) + [Submit(Payment(second.0, second.1))]
  }

  lemma FirstAccepted(first: (string, string))
    ensures var s := Run(Initial(0), Accept(Initial(0), Payment(first.0, first.1)));
      && s.db.events == [EventRow(Payment(first.0, first.1)).(status := Processed)]
      && s.db.accounts == map["b" := Account("customer", Current)] && |s.submissions| == 1
  {
    ReachableInv(0, []);
    AcceptCommits(Initial(0), Payment(first.0, first.1));
    AcceptedRows(Initial(0), Payment(first.0, first.1));
  }

  lemma CollisionFails(first: (string, string), second: (string, string))
    requires first != second && Key(first.0, first.1) == Key(second.0, second.1)
    ensures FailsAt(Reached(0, Colliding(first, second)), 1, second.0, second.1)
  {
    FirstAccepted(first);
    var s := Run(Initial(0), Accept(Initial(0), Payment(first.0, first.1)));
    RunSnoc(Initial(0), Accept(Initial(0), Payment(first.0, first.1)), Submit(Payment(second.0, second.1)));
    assert s.db.events[0].key == Key(second.0, second.1);
    assert FindEvent(s.db.events, second.0, second.1).None?;
  }

  lemma ReadingFails(source: string, externalId: string, j: nat)
    requires Presentable(source) && Presentable(externalId) && ReadsOtherwise(source, externalId, j)
    ensures CanFail(source, externalId)
  {
    var key := Key(source, externalId);
    var first := (key[..j], key[j + 1..]);
    assert key == key[..j] + [key[j]] + key[j + 1..];
    assert |first.0| != |source|;
    CollisionFails(first, (source, externalId));
    var steps := Colliding(first, (source, externalId));
    assert TakenByApi(steps);
    assert FailsAt(Reached(0, steps), 1, source, externalId);
  }

  /** Exactly when some run turns an event away with an error though its identity is new: when its key
      text holds a further separator that splits it into two identities of 1 to 255 characters. */
  lemma FailsIff(source: string, externalId: string)
    requires Presentable(source) && Presentable(externalId)
    ensures CanFail(source, externalId) <==> exists j: nat :: ReadsOtherwise(source, externalId, j)
  {
    if j: nat :| ReadsOtherwise(source, externalId, j) {
      ReadingFails(source, externalId, j);
    }
    if clock, steps, i: nat :| TakenByApi(steps) && FailsAt(Reached(clock, steps), i, source, externalId) {
      var j := FailureReadsOtherwise(clock, steps, i, source, externalId);
    }
  }

  /** A concrete one. */
  lemma EventIsTurnedAway()
    ensures var first, second := ("a" + [SEPARATOR] + "b", "c"), ("a", "b" + [SEPARATOR] + "c");
      var s := Reached(0, Colliding(first, second));
      && FailsAt(s, 1, second.0, second.1)
      && Next(s, Insert(1, None)).db == s.db && Next(s, Insert(1, None)).replies == s.replies
  {
    KeysCollide();
    CollisionFails(("a" + [SEPARATOR] + "b", "c"), ("a", "b" + [SEPARATOR] + "c"));
  }
}
