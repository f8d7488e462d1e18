/** The deterministic policy engine (src/orchestrator/policy/engine.py). */
module Policy {
  import opened Models
  import opened WallClock

  datatype PolicyInput = PolicyInput(
    channel: Channel, scheduledAt: int, timezone: int,
    smsConsent: bool, callConsent: bool, emailConsent: bool,
    optedOut: bool, accountStatus: AccountStatus, recent: nat, cap: nat)

  datatype PolicyResult = PolicyResult(
    decision: Outcome, channel: Channel, reasons: seq<Reason>, deferUntil: Option<int>)

  predicate Consents(p: PolicyInput) {
    match p.channel
    case Sms => p.smsConsent
    case Call => p.callConsent
    case Email => p.emailConsent
  }

  function OptOutReasons(p: PolicyInput): seq<Reason> {
    if p.optedOut then [CustomerOptedOut] else []
  }

  function ConsentReasons(p: PolicyInput): seq<Reason> {
    if Consents(p) then [] else [MissingConsent(p.channel)]
  }

  function StatusReasons(p: PolicyInput): seq<Reason> {
    if p.accountStatus.Paused? then [AccountIsPaused]
    else if p.accountStatus.Resolved? then [AccountIsResolved]
    else []
  }

  function BlockReasons(p: PolicyInput): seq<Reason> {
    OptOutReasons(p) + ConsentReasons(p) + StatusReasons(p)
  }

  /** The next local opening for a call or text proposed outside the window. */
  function QuietHoursDeferUntil(p: PolicyInput): Option<int> {
    if p.channel.Email? then None
    else
      var local := p.scheduledAt + p.timezone;
      if InWindow(local) then None
      else if TimeOfDay(local) < WINDOW_START then
        Some(DateOf(local) * DAY + WINDOW_START - p.timezone)
      else
        Some((DateOf(local) + 1) * DAY + WINDOW_START - p.timezone)
  }

  function DeferReasons(p: PolicyInput): seq<Reason> {
    (if QuietHoursDeferUntil(p).Some? then [QuietHours] else [])
    + (if p.recent >= p.cap then [FrequencyCapExceeded] else [])
  }

  function Evaluate(p: PolicyInput): PolicyResult {
    if BlockReasons(p) != [] then PolicyResult(Block, p.channel, BlockReasons(p), None)
    else if DeferReasons(p) != [] then PolicyResult(Defer, p.channel, DeferReasons(p), QuietHoursDeferUntil(p))
    else PolicyResult(Allow, p.channel, [PolicyAllowed], None)
  }

  /** evaluate_policy as written: two lists filled in rule order. */
  method EvaluatePolicy(p: PolicyInput) returns (r: PolicyResult)
    ensures r == Evaluate(p)
  {
    var blockReasons: seq<Reason> := [];
    var deferReasons: seq<Reason> := [];
    var deferUntil: Option<int> := None;

    if p.optedOut {
      blockReasons := blockReasons + [CustomerOptedOut];
    }
    if p.channel == Sms && !p.smsConsent {
      blockReasons := blockReasons + [MissingConsent(Sms)];
    } else if p.channel == Call && !p.callConsent {
      blockReasons := blockReasons + [MissingConsent(Call)];
    } else if p.channel == Email && !p.emailConsent {
      blockReasons := blockReasons + [MissingConsent(Email)];
    }
    if p.accountStatus == Paused {
      blockReasons := blockReasons + [AccountIsPaused];
    } else if p.accountStatus == Resolved {
      blockReasons := blockReasons + [AccountIsResolved];
    }
    assert blockReasons == BlockReasons(p);
    if blockReasons != [] {
      return PolicyResult(Block, p.channel, blockReasons, None);
    }

    var quiet := QuietHoursDeferUntil(p);
    if quiet.Some? {
      deferReasons := deferReasons + [QuietHours];
      deferUntil := quiet;
    }
    if p.recent >= p.cap {
      deferReasons := deferReasons + [FrequencyCapExceeded];
    }
    assert deferReasons == DeferReasons(p);
    if deferReasons != [] {
      return PolicyResult(Defer, p.channel, deferReasons, deferUntil);
    }
    return PolicyResult(Allow, p.channel, [PolicyAllowed], None);
  }

  predicate IsBlocked(p: PolicyInput) {
    p.optedOut || !Consents(p) || p.accountStatus.Paused? || p.accountStatus.Resolved?
  }

  /** May this customer be called or texted at instant `t`? */
  predicate OpenAt(t: int, timezone: int) {
    InWindow(t + timezone)
  }

  predicate IsQuiet(p: PolicyInput) {
    !p.channel.Email? && !OpenAt(p.scheduledAt, p.timezone)
  }

  lemma BlockReasonsMeaning(p: PolicyInput)
    ensures BlockReasons(p) == [] <==> !IsBlocked(p)
    ensures CustomerOptedOut in BlockReasons(p) <==> p.optedOut
    ensures forall c :: MissingConsent(c) in BlockReasons(p) <==> c == p.channel && !Consents(p)
    ensures AccountIsPaused in BlockReasons(p) <==> p.accountStatus.Paused?
    ensures AccountIsResolved in BlockReasons(p) <==> p.accountStatus.Resolved?
    ensures QuietHours !in BlockReasons(p) && FrequencyCapExceeded !in BlockReasons(p)
    ensures PolicyAllowed !in BlockReasons(p)
  {
    var reasons := BlockReasons(p);
    assert |reasons| == |OptOutReasons(p)| + |ConsentReasons(p)| + |StatusReasons(p)|;
    assert p.optedOut ==> reasons[0] == CustomerOptedOut;
    assert !Consents(p) ==> reasons[|OptOutReasons(p)|] == MissingConsent(p.channel);
    assert StatusReasons(p) != [] ==> reasons[|reasons| - 1] == StatusReasons(p)[0];
  }

  lemma DeferReasonsMeaning(p: PolicyInput)
    ensures DeferReasons(p) == [] <==> !IsQuiet(p) && p.recent < p.cap
    ensures QuietHours in DeferReasons(p) <==> IsQuiet(p)
    ensures FrequencyCapExceeded in DeferReasons(p) <==> p.recent >= p.cap
    ensures DeferReasons(p) == [QuietHours] <==> IsQuiet(p) && p.recent < p.cap
    ensures forall r :: r in DeferReasons(p) ==> r.QuietHours? || r.FrequencyCapExceeded?
  {
    var reasons := DeferReasons(p);
    assert IsQuiet(p) ==> reasons[0] == QuietHours;
    assert p.recent >= p.cap ==> reasons[|reasons| - 1] == FrequencyCapExceeded;
  }

  /** Blocks win over deferrals and deferrals over allowance. */
  lemma OutcomeMeaning(p: PolicyInput)
    ensures var blocked := p.optedOut || p.accountStatus == Paused || p.accountStatus == Resolved
          || (p.channel == Sms && !p.smsConsent) || (p.channel == Call && !p.callConsent)
          || (p.channel == Email && !p.emailConsent);
      var quiet := p.channel != Email && !DayTime(p.scheduledAt, p.timezone);
      var r := Evaluate(p);
      && blocked == IsBlocked(p) && quiet == IsQuiet(p)
      && (r.decision == Block <==> blocked)
      && (r.decision == Defer <==> !blocked && (quiet || p.recent >= p.cap))
      && (r.decision == Allow <==> !blocked && !quiet && p.recent < p.cap)
      && r.channel == p.channel
  {
    BlockReasonsMeaning(p);
    DeferReasonsMeaning(p);
  }

  /** The reasons say exactly which rules fired, and a time is given exactly for quiet hours. */
  lemma ReasonsMeaning(p: PolicyInput)
    ensures var r := Evaluate(p);
      && (CustomerOptedOut in r.reasons <==> p.optedOut)
      && (forall c :: MissingConsent(c) in r.reasons <==> c == p.channel && !Consents(p))
      && (AccountIsPaused in r.reasons <==> p.accountStatus == Paused)
      && (AccountIsResolved in r.reasons <==> p.accountStatus == Resolved)
      && (QuietHours in r.reasons <==> !IsBlocked(p) && IsQuiet(p))
      && (FrequencyCapExceeded in r.reasons <==> !IsBlocked(p) && p.recent >= p.cap)
      && (PolicyAllowed in r.reasons <==> !IsBlocked(p) && !IsQuiet(p) && p.recent < p.cap)
      && (r.deferUntil.Some? <==> QuietHours in r.reasons)
      && (r.reasons == [QuietHours] <==> !IsBlocked(p) && IsQuiet(p) && p.recent < p.cap)
  {
    BlockReasonsMeaning(p);
    DeferReasonsMeaning(p);
    if IsBlocked(p) {
      assert Evaluate(p).reasons == BlockReasons(p);
      assert [QuietHours][0] in [QuietHours];
    } else if !IsQuiet(p) && p.recent < p.cap {
      assert Evaluate(p).reasons == [PolicyAllowed];
    } else {
      assert Evaluate(p).reasons == DeferReasons(p);
    }
  }

  /** The place of a reason's rule in the order of evaluation. */
  function RuleOf(reason: Reason): nat {
    match reason
    case CustomerOptedOut => 0
    case MissingConsent(_) => 1
    case AccountIsPaused => 2
    case AccountIsResolved => 2
    case QuietHours => 3
    case FrequencyCapExceeded => 4
    case PolicyAllowed => 5
  }

  /** Each reason is given once, in the order of the rules. */
  lemma ReasonsInOrder(p: PolicyInput, j: nat, k: nat)
    requires j < k < |Evaluate(p).reasons|
    ensures RuleOf(Evaluate(p).reasons[j]) < RuleOf(Evaluate(p).reasons[k])
  {
  }

  /** The local date of the next opening for a proposal outside the window. */
  function OpeningDate(local: int): int {
    if TimeOfDay(local) < WINDOW_START then DateOf(local) else DateOf(local) + 1
  }

  lemma OpeningIsNear(local: int)
    requires !InWindow(local)
    ensures var opening := OpeningDate(local) * DAY + WINDOW_START;
      local < opening <= local + 13 * HOUR && TimeOfDay(opening) == WINDOW_START
  {
    DateAndTime(OpeningDate(local), WINDOW_START);
  }

  /** A quiet-hours deferral moves to the earliest permitted instant, less than a day off by
      at most the closed 13 hours, and evaluating again there defers no further for quiet hours. */
  lemma DeferralIsEarliest(p: PolicyInput)
    requires IsQuiet(p)
    ensures var d := QuietHoursDeferUntil(p);
      && d.Some?
      && p.scheduledAt < d.value <= p.scheduledAt + 46_800_000_000
      && (d.value + p.timezone) % 86_400_000_000 == 32_400_000_000
      && (forall t :: p.scheduledAt <= t < d.value ==> !OpenAt(t, p.timezone) && !DayTime(t, p.timezone))
      && QuietHours !in Evaluate(p.(scheduledAt := d.value)).reasons
  {
    var local := p.scheduledAt + p.timezone;
    var opening := OpeningDate(local) * DAY + WINDOW_START;
    OpeningIsNear(local);
    assert QuietHoursDeferUntil(p) == Some(opening - p.timezone);
    forall t | p.scheduledAt <= t < opening - p.timezone ensures !OpenAt(t, p.timezone) {
      ClosedUntilOpening(local, t + p.timezone);
    }
    ReasonsMeaning(p.(scheduledAt := opening - p.timezone));
  }

  lemma ClosedUntilOpening(local: int, t: int)
    requires !InWindow(local) && local <= t < OpeningDate(local) * DAY + WINDOW_START
    ensures !InWindow(t)
  {
    if DateOf(t) == OpeningDate(local) {
      assert TimeOfDay(t) < WINDOW_START;
    } else {
      assert DateOf(t) == DateOf(local);
      assert TimeOfDay(t) >= TimeOfDay(local);
    }
  }
}
