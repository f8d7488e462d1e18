/** Wall-clock arithmetic: the outreach window and the business-day rule. */
module WallClock {
  import opened Models

  const WINDOW_START: int := 9 * HOUR
  const WINDOW_END: int := 20 * HOUR

  function TimeOfDay(local: int): int { local % DAY }

  /** Whole days since 0001-01-01, which was a Monday. */
  function DateOf(local: int): int { local / DAY }

  function Weekday(date: int): int { date % 7 }

  predicate IsWeekend(date: int) { Weekday(date) >= 5 }

  predicate InWindow(local: int) { WINDOW_START <= TimeOfDay(local) < WINDOW_END }

  /** Nine in the morning to eight in the evening, local time. */
  predicate DayTime(at: int, zone: int) {
    32_400_000_000 <= (at + zone) % 86_400_000_000 < 72_000_000_000
  }

  lemma DateAndTime(date: int, time: int)
    requires 0 <= time < DAY
    ensures DateOf(date * DAY + time) == date && TimeOfDay(date * DAY + time) == time
  {
  }

  /** The first date from `date` on that is not a Saturday or a Sunday. */
  function FirstWeekday(date: int): (d: int)
    ensures !IsWeekend(d)
    ensures date <= d <= date + (if IsWeekend(date) then 7 - Weekday(date) else 0)
    ensures forall x :: date <= x < d ==> IsWeekend(x)
    decreases if IsWeekend(date) then 7 - Weekday(date) else 0
  {
    if IsWeekend(date) then FirstWeekday(date + 1) else date
  }

  /** 10:00 local on the first weekday after the local date of `now`, as an instant. */
  function NextBusinessDayAt10(now: int, timezone: int): int {
    FirstWeekday(DateOf(now + timezone) + 1) * DAY + 10 * HOUR - timezone
  }

  /** The days from a date to the next working day: three from a Friday, two from a Saturday, one from
      any other day. Date 0 is a Monday. */
  function ToWorkingDay(date: int): int {
    if date % 7 == 4 then 3 else if date % 7 == 5 then 2 else 1
  }

  lemma FirstWeekdayAfter(date: int)
    ensures FirstWeekday(date + 1) == date + ToWorkingDay(date)
  {
    var week, day := date / 7, date % 7;
    assert date == 7 * week + day;
    if day == 4 {
      assert IsWeekend(date + 1) && IsWeekend(date + 2) && !IsWeekend(date + 3);
      assert FirstWeekday(date + 1) == FirstWeekday(date + 2) == FirstWeekday(date + 3);
    } else if day == 5 {
      assert IsWeekend(date + 1) && !IsWeekend(date + 2);
      assert FirstWeekday(date + 1) == FirstWeekday(date + 2);
    } else {
      assert !IsWeekend(date + 1);
    }
  }

  /** The loop of _next_business_day_at_10 finds 10:00 on the Monday after a local Friday or Saturday,
      and on the next day after any other. */
  method ComputeNextBusinessDayAt10(now: int, timezone: int) returns (at: int)
    ensures var date := (now + timezone) / 86_400_000_000;
      at + timezone == (date + ToWorkingDay(date)) * 86_400_000_000 + 36_000_000_000
    ensures at == NextBusinessDayAt10(now, timezone)
    ensures TimeOfDay(at + timezone) == 10 * HOUR && !IsWeekend(DateOf(at + timezone))
    ensures forall d :: DateOf(now + timezone) < d < DateOf(at + timezone) ==> IsWeekend(d)
  {
    var today := DateOf(now + timezone);
    var candidate := today + 1;
    while IsWeekend(candidate)
      invariant today < candidate <= FirstWeekday(today + 1)
      invariant forall d :: today < d < candidate ==> IsWeekend(d)
      decreases FirstWeekday(today + 1) - candidate
    {
      candidate := candidate + 1;
    }
    FirstWeekdayAfter(today);
    DateAndTime(candidate, 10 * HOUR);
    at := candidate * DAY + 10 * HOUR - timezone;
  }

  lemma NextBusinessDayInWindow(now: int, timezone: int)
    ensures InWindow(NextBusinessDayAt10(now, timezone) + timezone)
    ensures now < NextBusinessDayAt10(now, timezone)
  {
    var d := FirstWeekday(DateOf(now + timezone) + 1);
    DateAndTime(d, 10 * HOUR);
  }
}
