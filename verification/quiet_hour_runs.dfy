/** Runs on which a text reaches its customer in quiet hours. */
module QuietHourRuns {
  import opened Counting
  import opened Models
  import opened WallClock
  import opened InboundEvents
  import opened Policy
  import opened Planner
  import opened Ingestion
  import opened Service
  import opened Evolution
  import opened Insertion
  import opened RunInvariant
  import opened PlannerLoop
  import opened Guarantees
  import opened RollingCap
  import opened Reclaiming
  import opened Counterexamples

  /** A failed payment at midnight of a customer who only takes texts. */
  function TextOnly(externalId: string, timezone: int, smsConsent: bool): Request {
    Request("crm", externalId, PaymentFailed, CustomerSnapshot("customer", timezone, smsConsent, false, false),
            AccountSnapshot("b", Delinquent), 0)
  }

  const TEXT: Request := TextOnly("1", 0, true)

  function TextQueued(): System {
    Run(Initial(0), Accept(Initial(0), TEXT))
  }

  lemma TextIsInserted()
    ensures Inv(Initial(0)) && Insertable(Initial(0).db, TEXT)
  {
    ReachableInv(0, []);
  }

  lemma OneProposalPasses()
    ensures PassOf(Initial(0).db, TEXT).created == 1
  {
    var db := Initial(0).db;
    var s, proposals := SubjectOf(db, TEXT), Proposals(PaymentFailed, 0, 0);
    PassCreated(db, TEXT);
    assert proposals == [proposals[0]] + [proposals[1]];
    CountSnoc([proposals[0]], proposals[1], Unblocked(s));
    CountSnoc([], proposals[0], Unblocked(s));
    assert [] + [proposals[0]] == [proposals[0]];
  }

  /** Nine o'clock is the first open instant after midnight. */
  lemma NineIsFirst(at: int)
    requires FirstDayTime(at, 15 * MINUTE, 0)
    ensures at == WINDOW_START
  {
    assert DayTime(WINDOW_START, 0);
  }

  lemma QueuedText()
    ensures var db := PlannedStore(Initial(0).db, TEXT, None);
      && |db.tasks| == 1
      && var t := db.tasks[0];
      t.channel.Sms? && t.status.Scheduled? && t.attempts == 0 && t.maxAttempts == 3
      && t.scheduledAt == WINDOW_START && t.customer == "customer"
  {
    var db := Initial(0).db;
    OneProposalPasses();
    PassTasks(db, TEXT);
    InsertedTasksAreCompliant(db, TEXT, None, 0);
    InsertedSchedule(db, TEXT, None, 0);
    PlanAllShape(StartOfPass(db, TEXT), SubjectOf(db, TEXT), Proposals(PaymentFailed, 0, 0), FREQUENCY_CAP);
    var t := PassOf(db, TEXT).db.tasks[0];
    assert TaskAbout(t, SubjectOf(db, TEXT), 0);
    NineIsFirst(t.scheduledAt);
  }

  /** A text due at nine in the morning, in the zone stored for its customer. */
  ghost predicate TextDueAtNine(s: System, zone: int) {
    && s.claims == [] && |s.db.tasks| > 0
    && s.db.tasks[0].channel.Sms? && s.db.tasks[0].status.Scheduled?
    && s.db.tasks[0].attempts == 0 && s.db.tasks[0].maxAttempts == 3
    && s.db.tasks[0].scheduledAt == WINDOW_START && s.db.tasks[0].customer == "customer"
    && "customer" in s.db.customers && s.db.customers["customer"].timezone == zone
  }

  lemma TextQueuedRows()
    ensures var db := TextQueued().db;
      && db.events == [EventRow(TEXT).(status := Processed)]
      && db.accounts == map["b" := Account("customer", Delinquent)]
      && db.customers == map["customer" := Customer(0, true, false, false, false)]
  {
    TextIsInserted();
    AcceptedRows(Initial(0), TEXT);
  }

  lemma TextQueuedTasks()
    ensures |PlannedStore(Initial(0).db, TEXT, None).events| > 0
    ensures TextQueued().db == InsertedStore(Initial(0).db, TEXT, None)
    ensures TextQueued().claims == [] && Inv(TextQueued())
  {
    TextIsInserted();
    AcceptCommits(Initial(0), TEXT);
  }

  lemma TextQueuedState()
    ensures Inv(TextQueued()) && TextDueAtNine(TextQueued(), 0)
    ensures TextQueued().db.events == [EventRow(TEXT).(status := Processed)]
    ensures TextQueued().db.accounts == map["b" := Account("customer", Delinquent)]
  {
    TextQueuedRows();
    TextQueuedTasks();
    QueuedText();
  }

  /** The provider took a text whose pass ran outside the window of its customer's stored zone. */
  ghost predicate TextSentInQuietHours(s: System, k: nat) {
    && k < |s.claims| && s.claims[k].delivered && s.claims[k].task < |s.db.tasks|
    && s.db.tasks[s.claims[k].task].channel.Sms?
    && s.db.tasks[s.claims[k].task].customer in s.db.customers
    && s.claims[k].zone == s.db.customers[s.db.tasks[s.claims[k].task].customer].timezone
    && !OpenAt(s.claims[k].now, s.claims[k].zone)
  }

  lemma SentByOneCall(s: System, zone: int, now: int)
    requires TextDueAtNine(s, zone) && WINDOW_START <= now && !OpenAt(now, zone)
    ensures TextSentInQuietHours(Next(Next(s, ClaimTask(0, now, 0)), SendReturns(0)), 0)
  {
  }

  /** A pass at nine in the evening sends the text that was due at nine in the morning. */
  lemma LateTextIsSent()
    ensures TextDueAtNine(TextQueued(), 0) && OpenAt(WINDOW_START, 0)
    ensures TextSentInQuietHours(Next(Next(TextQueued(), ClaimTask(0, 21 * HOUR, 0)), SendReturns(0)), 0)
  {
    TextQueuedState();
    SentByOneCall(TextQueued(), 0, 21 * HOUR);
  }

  /** A first attempt at `now` fails, and the retry, five minutes later, is accepted. */
  function RetrySteps(now: int): seq<Step> {
    [ClaimTask(0, now, 5 * MINUTE), SendRaises(0, ""), RecordFailure(0)]
    + [ClaimTask(0, now + 5 * MINUTE, 5 * MINUTE), SendReturns(1)]
  }

  ghost predicate RetriedInQuietHours(s: System, due: int) {
    |s.claims| == 2 && s.claims[1].scheduledAt == due == s.claims[1].now && TextSentInQuietHours(s, 1)
  }

  lemma RunOfThree(s: System, a: Step, b: Step, c: Step)
    ensures Run(s, [a, b, c]) == Next(Next(Next(s, a), b), c)
  {
    assert [a, b, c][1..] == [b, c];
    RunOfTwo(Next(s, a), b, c);
  }

  lemma RunOfTwo(s: System, a: Step, b: Step)
    ensures Run(s, [a, b]) == Next(Next(s, a), b)
  {
    RunSnoc(s, [a], b);
    RunSnoc(s, [], a);
    assert [] + [a] == [a] && [a] + [b] == [a, b];
  }

  lemma RetrySent(s: System, now: int)
    requires TextDueAtNine(s, 0) && WINDOW_START <= now && !OpenAt(now + 5 * MINUTE, 0)
    ensures RetriedInQuietHours(Run(s, RetrySteps(now)), now + 5 * MINUTE)
  {
    var claim, again := ClaimTask(0, now, 5 * MINUTE), ClaimTask(0, now + 5 * MINUTE, 5 * MINUTE);
    var failed := Next(Next(Next(s, claim), SendRaises(0, "")), RecordFailure(0));
    RunConcat(s, [claim, SendRaises(0, ""), RecordFailure(0)], [again, SendReturns(1)]);
    RunOfThree(s, claim, SendRaises(0, ""), RecordFailure(0));
    RunOfTwo(failed, again, SendReturns(1));
    assert failed.db.tasks[0].status.Scheduled? && |failed.claims| == 1;
    assert |Next(failed, again).claims| == 2 && Next(failed, again).claims[1].phase.Sending?;
  }

  /** The retry of a text that failed two minutes before closing, with the default delay of five
      minutes, is sent after it by a pass that is not late. */
  lemma RetryIsSentAfterClosing()
    ensures TextDueAtNine(TextQueued(), 0) && OpenAt(WINDOW_END - 2 * MINUTE, 0)
    ensures RetriedInQuietHours(Run(TextQueued(), RetrySteps(WINDOW_END - 2 * MINUTE)), WINDOW_END + 3 * MINUTE)
  {
    TextQueuedState();
    RetrySent(TextQueued(), WINDOW_END - 2 * MINUTE);
  }

  const MOVED: Request := TextOnly("2", 12 * HOUR, false)

  /** The service after a later snapshot has put the customer twelve hours ahead. */
  function TextMoved(): System {
    Run(TextQueued(), Accept(TextQueued(), MOVED))
  }

  lemma MovedIsInserted()
    ensures Inv(TextQueued()) && Insertable(TextQueued().db, MOVED)
  {
    TextQueuedState();
    assert Key("crm", "2")[4..] == "2" && Key("crm", "1")[4..] == "1";
  }

  lemma TextMovedState()
    ensures TextDueAtNine(TextMoved(), 12 * HOUR)
  {
    TextQueuedState();
    MovedIsInserted();
    AcceptCommits(TextQueued(), MOVED);
    AcceptedRows(TextQueued(), MOVED);
    InsertRowFate(TextQueued().db, MOVED, None, 0);
  }

  /** A later snapshot moves the customer to another zone: the text, sent at the very instant it was
      planned for, arrives at nine in the evening. */
  lemma MovedTextIsSent()
    ensures TextDueAtNine(TextMoved(), 12 * HOUR)
    ensures TextSentInQuietHours(Next(Next(TextMoved(), ClaimTask(0, WINDOW_START, 0)), SendReturns(0)), 0)
  {
    TextMovedState();
    SentByOneCall(TextMoved(), 12 * HOUR, WINDOW_START);
  }
}
