// UTC period starts (internal/store/reserve.go) and the effective start after a spend reset
// (internal/store/spend_reset.go). Times are Unix milliseconds.
module Calendar {
  import opened Base

  const DAY: int := 86_400_000

  datatype Period = Daily | Weekly | Monthly

  function DayStart(now: int): int {
    now / DAY * DAY
  }

  // Day 0, 1970-01-01, was a Thursday, three days after a Monday.
  function DaysSinceMonday(now: int): int {
    (now / DAY + 3) % 7
  }

  function WeekStart(now: int): int {
    (now / DAY - DaysSinceMonday(now)) * DAY
  }

  function CalendarStart(p: Period, monthStart: int -> int, now: int): int {
    match p
    case Daily => DayStart(now)
    case Weekly => WeekStart(now)
    case Monthly => monthStart(now)
  }

  function PeriodStart(calendarStart: int, resetAt: int): (r: int)
    ensures r == Max(calendarStart, resetAt)
  {
    if resetAt > calendarStart then resetAt else calendarStart
  }

  // s is a UTC midnight / a UTC Monday midnight.
  ghost predicate IsMidnight(s: int) {
    s % DAY == 0
  }

  ghost predicate IsMonday(s: int) {
    IsMidnight(s) && (s / DAY + 3) % 7 == 0
  }

  // The day start is the only midnight in the 24 hours up to now.
  lemma DayStartIsMidnight(now: int)
    ensures IsMidnight(DayStart(now)) && DayStart(now) <= now < DayStart(now) + DAY
    ensures forall s | IsMidnight(s) && s <= now < s + DAY :: s == DayStart(now)
  {
  }

  // The week start is the only Monday midnight in the seven days up to now.
  lemma WeekStartIsMonday(now: int)
    ensures IsMonday(WeekStart(now)) && WeekStart(now) <= now < WeekStart(now) + 7 * DAY
    ensures forall s | IsMonday(s) && s <= now < s + 7 * DAY :: s == WeekStart(now)
  {
    var d, w := now / DAY, now / DAY - DaysSinceMonday(now);
    assert WeekStart(now) / DAY == w;
    forall s | IsMonday(s) && s <= now < s + 7 * DAY ensures s == WeekStart(now) {
      var k := s / DAY;
      assert s == k * DAY && k <= d < k + 7;
      assert (d + 3) % 7 == (d - k);
    }
  }

  // Two instants of one day (week) have one start: the period bounds below hold day by day.
  lemma SamePeriod(p: Period, monthStart: int -> int, now: int, later: int)
    requires p != Monthly && now <= later < CalendarStart(p, monthStart, now) + (if p == Daily then DAY else 7 * DAY)
    ensures CalendarStart(p, monthStart, later) == CalendarStart(p, monthStart, now)
  {
    if p == Daily {
      DayStartIsMidnight(now);
      DayStartIsMidnight(later);
    } else {
      WeekStartIsMonday(now);
      WeekStartIsMonday(later);
    }
  }
}
