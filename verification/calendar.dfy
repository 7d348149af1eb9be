/**
 Civil dates as day numbers, the two month additions the repository uses, and the two
 natural-month checks. The Go side adds months the way time.AddDate does (an overflowing day
 spills into the next month); the Python side clamps the day to the target month.
 */
module Calendar {

  datatype Date = Date(year: int, month: int, day: int)

  predicate LeapYear(year: int) {
    year % 4 == 0 && (year % 100 != 0 || year % 400 == 0)
  }

  function MonthLength(year: int, month: int): (days: int)
    requires 1 <= month <= 12
    ensures 28 <= days <= 31
  {
    if month == 2 then (if LeapYear(year) then 29 else 28)
    else if month == 4 || month == 6 || month == 9 || month == 11 then 30
    else 31
  }

  predicate ValidDate(date: Date) {
    date.year >= 1 && 1 <= date.month <= 12 && 1 <= date.day <= MonthLength(date.year, date.month)
  }

  type CivilDate = date: Date | ValidDate(date) witness Date(1, 1, 1)

  /** Months are counted from year zero, so that January of year 1 has index 12. */
  function MonthIndex(date: CivilDate): int {
    12 * date.year + date.month - 1
  }

  /** The year of a month's index. */
  function YearOf(index: nat): (year: nat)
    ensures 12 * year <= index < 12 * year + 12
  {
    if index < 12 then 0 else 1 + YearOf(index - 12)
  }

  function LengthOfIndex(index: nat): (days: int)
    ensures 28 <= days <= 31
  {
    MonthLength(YearOf(index), index - 12 * YearOf(index) + 1)
  }

  /** The day number of the first day of a month; January 1 of year 1 is day 1. */
  function FirstDay(index: int): (day: int)
    requires index >= 12
    ensures day >= 1
    decreases index
  {
    if index == 12 then 1 else FirstDay(index - 1) + LengthOfIndex(index - 1)
  }

  function DayNumber(date: CivilDate): int {
    FirstDay(MonthIndex(date)) + date.day - 1
  }

  /** Calendar order, field by field. */
  predicate Before(a: CivilDate, b: CivilDate) {
    a.year < b.year || (a.year == b.year && (a.month < b.month || (a.month == b.month && a.day < b.day)))
  }

  lemma DayRange(date: CivilDate)
    ensures 1 <= date.day <= 31 && MonthIndex(date) >= 12
  {
  }

  lemma IndexOfDate(date: CivilDate)
    ensures MonthIndex(date) >= 12 && YearOf(MonthIndex(date)) == date.year
    ensures LengthOfIndex(MonthIndex(date)) == MonthLength(date.year, date.month)
  {
  }

  /** Later months start after the earlier month is over, and two months later leaves 28 days more. */
  lemma {:induction false} MonthsAreDisjoint(a: int, b: int)
    requires 12 <= a < b
    ensures FirstDay(b) >= FirstDay(a) + LengthOfIndex(a)
    ensures b == a + 1 ==> FirstDay(b) == FirstDay(a) + LengthOfIndex(a)
    ensures b >= a + 2 ==> FirstDay(b) >= FirstDay(a) + LengthOfIndex(a) + 28
    decreases b
  {
    if b > a + 1 {
      MonthsAreDisjoint(a, b - 1);
    }
  }

  /** Day numbers order dates exactly as the calendar does, so a day number names one date. */
  lemma DayNumberIsCalendarOrder(a: CivilDate, b: CivilDate)
    ensures Before(a, b) <==> DayNumber(a) < DayNumber(b)
    ensures a == b <==> DayNumber(a) == DayNumber(b)
  {
    IndexOfDate(a);
    IndexOfDate(b);
    if MonthIndex(a) < MonthIndex(b) {
      MonthsAreDisjoint(MonthIndex(a), MonthIndex(b));
    } else if MonthIndex(b) < MonthIndex(a) {
      MonthsAreDisjoint(MonthIndex(b), MonthIndex(a));
    }
  }

  // ----- the civil calendar in numbers -----

  /** The days of a common year before each month. */
  const DAYS_BEFORE := [0, 31, 59, 90, 120, 151, 181, 212, 243, 273, 304, 334]

  lemma NextStart(year: int, month: int)
    requires year >= 1 && 1 <= month <= 12
    ensures FirstDay(12 * year + month) == FirstDay(12 * year + month - 1) + MonthLength(year, month)
  {
    IndexOfDate(Date(year, month, 1));
    MonthsAreDisjoint(12 * year + month - 1, 12 * year + month);
  }

  /** Days of the year before a month. */
  function DaysBefore(month: int, leap: bool): int
    requires 1 <= month <= 12
  {
    DAYS_BEFORE[month - 1] + (if month > 2 && leap then 1 else 0)
  }

  lemma MonthLengths(year: int, month: int)
    requires 1 <= month <= 11
    ensures DaysBefore(month + 1, LeapYear(year)) == DaysBefore(month, LeapYear(year)) + MonthLength(year, month)
  {
  }

  lemma NextDaysBefore(year: int, month: int, leap: bool)
    requires year >= 1 && 1 <= month <= 11 && leap == LeapYear(year)
    ensures FirstDay(12 * year + month) - FirstDay(12 * year + month - 1)
         == DaysBefore(month + 1, leap) - DaysBefore(month, leap)
  {
    NextStart(year, month);
    MonthLengths(year, month);
  }

  /** The steps from each month to the next add up. */
  lemma {:induction false} StepsAddUp(starts: seq<int>, month: int, leap: bool)
    requires |starts| == 12 && 1 <= month <= 12
    requires forall m | 1 <= m <= 11 :: starts[m] - starts[m - 1] == DaysBefore(m + 1, leap) - DaysBefore(m, leap)
    ensures starts[month - 1] == starts[0] + DaysBefore(month, leap)
  {
    if month > 1 {
      StepsAddUp(starts, month - 1, leap);
      var m := month - 1;
      assert starts[m] - starts[m - 1] == DaysBefore(m + 1, leap) - DaysBefore(m, leap);
    }
  }

  /** The first days of the months of a year. */
  function Starts(year: int): (starts: seq<int>)
    requires year >= 1
    ensures |starts| == 12 && forall i :: 0 <= i < 12 ==> starts[i] == FirstDay(12 * year + i)
  {
    seq(12, i requires 0 <= i < 12 => FirstDay(12 * year + i))
  }

  lemma StartsStep(year: int, month: int, leap: bool)
    requires year >= 1 && 1 <= month <= 11 && leap == LeapYear(year)
    ensures Starts(year)[month] - Starts(year)[month - 1] == DaysBefore(month + 1, leap) - DaysBefore(month, leap)
  {
    NextDaysBefore(year, month, leap);
  }

  /** Every month starts where a printed calendar has it. */
  lemma MonthStarts(year: int, month: int)
    requires year >= 1 && 1 <= month <= 12
    ensures Starts(year)[month - 1] == Starts(year)[0] + DaysBefore(month, LeapYear(year))
  {
    forall m | 1 <= m <= 11
      ensures Starts(year)[m] - Starts(year)[m - 1]
           == DaysBefore(m + 1, LeapYear(year)) - DaysBefore(m, LeapYear(year))
    {
      StartsStep(year, m, LeapYear(year));
    }
    StepsAddUp(Starts(year), month, LeapYear(year));
  }

  lemma YearLength(year: int)
    requires year >= 1
    ensures FirstDay(12 * (year + 1)) == FirstDay(12 * year) + (if LeapYear(year) then 366 else 365)
  {
    MonthStarts(year, 12);
    NextStart(year, 12);
    assert Starts(year)[11] == FirstDay(12 * year + 11);
  }

  lemma MultiplesOf100(year: int)
    requires year % 100 == 0
    ensures year % 4 == 0
  {
    assert year == 4 * (25 * (year / 100));
  }

  lemma MultiplesOf400(year: int)
    requires year % 400 == 0
    ensures year % 100 == 0
  {
    assert year == 100 * (4 * (year / 400));
  }

  lemma By4(k: int)
    ensures (k + 1) / 4 == k / 4 + (if (k + 1) % 4 == 0 then 1 else 0)
  {
  }

  lemma By100(k: int)
    ensures (k + 1) / 100 == k / 100 + (if (k + 1) % 100 == 0 then 1 else 0)
  {
  }

  lemma By400(k: int)
    ensures (k + 1) / 400 == k / 400 + (if (k + 1) % 400 == 0 then 1 else 0)
  {
  }

  lemma LeapDay(before: int)
    ensures (before + 1) / 4 - (before + 1) / 100 + (before + 1) / 400 ==
            before / 4 - before / 100 + before / 400 + (if LeapYear(before + 1) then 1 else 0)
  {
    By4(before);
    By100(before);
    By400(before);
    if (before + 1) % 400 == 0 {
      MultiplesOf400(before + 1);
    }
    if (before + 1) % 100 == 0 {
      MultiplesOf100(before + 1);
    }
  }

  /** Years start where the rule of leap years puts them: every fourth year is one, every hundredth is none, every
      four hundredth is one. */
  lemma {:induction false} YearStarts(year: int)
    requires year >= 1
    ensures var before := year - 1;
            FirstDay(12 * year) == 1 + 365 * before + before / 4 - before / 100 + before / 400
    decreases year
  {
    if year > 1 {
      YearStarts(year - 1);
      YearLength(year - 1);
      LeapDay(year - 2);
    }
  }

  /** The day number of a date in plain numbers. */
  lemma DayNumberInNumbers(date: CivilDate)
    ensures var before := date.year - 1;
            DayNumber(date) == 365 * before + before / 4 - before / 100 + before / 400
                               + DaysBefore(date.month, LeapYear(date.year)) + date.day
  {
    YearStarts(date.year);
    MonthStarts(date.year, date.month);
    assert Starts(date.year)[date.month - 1] == FirstDay(12 * date.year + date.month - 1);
    assert Starts(date.year)[0] == FirstDay(12 * date.year);
  }

  // ----- the two month additions -----

  /** time.AddDate with whole months and days: the day is counted on from the target month's first day. */
  function GoAddDate(date: CivilDate, months: nat, days: int): int {
    FirstDay(MonthIndex(date) + months) + (date.day + days) - 1
  }

  /** add_months: the day is clamped to the length of the target month. */
  function AddMonths(date: CivilDate, months: nat): CivilDate {
    var index := date.month - 1 + months;
    var year := date.year + index / 12;
    var month := index % 12 + 1;
    Date(year, month, if date.day <= MonthLength(year, month) then date.day else MonthLength(year, month))
  }

  lemma AddMonthsIndex(date: CivilDate, months: nat)
    ensures MonthIndex(AddMonths(date, months)) == MonthIndex(date) + months
  {
  }

  /** Days by which a launch day overflows its target month. */
  function Overflow(date: CivilDate, months: nat): int {
    var spill := date.day - LengthOfIndex(MonthIndex(date) + months);
    if spill > 0 then spill else 0
  }

  /** The overflowing boundary is never earlier than the clamped one, at most three days later,
      and the same day exactly when the launch day exists in the target month. */
  lemma BoundaryGap(date: CivilDate, months: nat)
    ensures GoAddDate(date, months, 0) == DayNumber(AddMonths(date, months)) + Overflow(date, months)
    ensures 0 <= GoAddDate(date, months, 0) - DayNumber(AddMonths(date, months)) <= 3
    ensures GoAddDate(date, months, 0) == DayNumber(AddMonths(date, months))
        <==> date.day <= LengthOfIndex(MonthIndex(date) + months)
  {
    AddMonthsIndex(date, months);
    IndexOfDate(AddMonths(date, months));
  }

  lemma SameOrLaterMonth(a: CivilDate, b: CivilDate)
    requires !Before(b, a)
    ensures MonthIndex(a) < MonthIndex(b) || (MonthIndex(a) == MonthIndex(b) && a.day <= b.day)
    ensures Before(a, b) && MonthIndex(a) == MonthIndex(b) ==> a.day < b.day
  {
  }

  /** A day of a month, moved back to the month's last day where the month is too short. */
  function ClampedIn(index: nat, day: int): int
    requires index >= 12
  {
    FirstDay(index) + (if day <= LengthOfIndex(index) then day else LengthOfIndex(index)) - 1
  }

  lemma ClampedInNumbers(date: CivilDate, months: nat)
    ensures DayNumber(AddMonths(date, months)) == ClampedIn(MonthIndex(date) + months, date.day)
  {
    AddMonthsIndex(date, months);
    IndexOfDate(AddMonths(date, months));
  }

  lemma ClampedInGrows(a: nat, b: nat, day: int, laterDay: int)
    requires 12 <= a <= b && day >= 1 && laterDay >= 1 && (a == b ==> day <= laterDay)
    ensures ClampedIn(a, day) <= ClampedIn(b, laterDay)
  {
    if a < b {
      MonthsAreDisjoint(a, b);
    }
  }

  /** The clamped boundary never moves back when the launch date moves forward. */
  lemma ClampedBoundaryIsMonotone(a: CivilDate, b: CivilDate, months: nat)
    requires !Before(b, a)
    ensures DayNumber(AddMonths(a, months)) <= DayNumber(AddMonths(b, months))
  {
    ClampedInNumbers(a, months);
    ClampedInNumbers(b, months);
    DayRange(a);
    DayRange(b);
    SameOrLaterMonth(a, b);
    ClampedInGrows(MonthIndex(a) + months, MonthIndex(b) + months, a.day, b.day);
  }

  lemma SpillsPast(a: nat, b: nat, day: int, laterDay: int)
    requires 12 <= a <= b && 1 <= day <= 31 && laterDay >= 1 && (a == b ==> day < laterDay)
    ensures FirstDay(a) + day > FirstDay(b) + laterDay <==> b == a + 1 && laterDay < day - LengthOfIndex(a)
  {
    if a < b {
      MonthsAreDisjoint(a, b);
    }
  }

  /** The overflowing boundary can move back: exactly when the later launch falls in the next month,
      on a day that the earlier launch's overflow reaches past. */
  lemma OverflowingBoundaryInverts(a: CivilDate, b: CivilDate, months: nat)
    requires Before(a, b)
    ensures GoAddDate(a, months, 0) > GoAddDate(b, months, 0)
        <==> MonthIndex(b) == MonthIndex(a) + 1 && b.day < Overflow(a, months)
  {
    DayRange(a);
    DayRange(b);
    SameOrLaterMonth(a, b);
    SpillsPast(MonthIndex(a) + months, MonthIndex(b) + months, a.day, b.day);
  }

  /** Launched on 31 December 2024 the product stays new until 3 March; launched a day later, until 1 March. */
  lemma NewYearInversion()
    ensures Before(Date(2024, 12, 31), Date(2025, 1, 1))
    ensures GoAddDate(Date(2024, 12, 31), 2, 0) == GoAddDate(Date(2025, 1, 1), 2, 0) + 2
  {
    assert LengthOfIndex(12 * 2025 + 1) == 28;
    MonthsAreDisjoint(12 * 2025 + 1, 12 * 2025 + 2);
  }

  // ----- the two natural-month checks -----

  /** ValidatePeriod of the Go batch service: the period is accepted. */
  predicate ValidatePeriod(start: CivilDate, end: CivilDate, cutoff: CivilDate) {
    start.day == 1
    && DayNumber(end) == GoAddDate(start, 1, -1)
    && !Before(cutoff, end)
  }

  function NextMonth(date: CivilDate): CivilDate {
    if date.month == 12 then Date(date.year + 1, 1, 1) else Date(date.year, date.month + 1, 1)
  }

  /** full_month of the Python API. */
  predicate FullMonth(start: CivilDate, end: CivilDate) {
    !(start.day != 1 || Before(end, start) || start.year != end.year || start.month != end.month)
    && DayNumber(NextMonth(end)) - DayNumber(end) == 1
  }

  /** Only the last day of a month precedes the first day of the next one. */
  lemma LastDayOfMonth(index: int, end: CivilDate)
    requires index >= 12
    ensures DayNumber(end) == FirstDay(index + 1) - 1 <==> MonthIndex(end) == index && end.day == LengthOfIndex(index)
  {
    IndexOfDate(end);
    MonthsAreDisjoint(index, index + 1);
    if index + 1 < MonthIndex(end) {
      MonthsAreDisjoint(index + 1, MonthIndex(end));
    } else if MonthIndex(end) < index {
      MonthsAreDisjoint(MonthIndex(end), index);
    }
  }

  lemma NextMonthStarts(end: CivilDate)
    ensures DayNumber(NextMonth(end)) - DayNumber(end) == 1 <==> end.day == LengthOfIndex(MonthIndex(end))
  {
    assert MonthIndex(NextMonth(end)) == MonthIndex(end) + 1;
    MonthsAreDisjoint(MonthIndex(end), MonthIndex(end) + 1);
  }

  lemma SameMonth(a: CivilDate, b: CivilDate)
    ensures a.year == b.year && a.month == b.month <==> MonthIndex(a) == MonthIndex(b)
  {
  }

  /** Both services accept the same periods. */
  lemma PeriodChecksAgree(start: CivilDate, end: CivilDate, cutoff: CivilDate)
    ensures ValidatePeriod(start, end, cutoff) <==> FullMonth(start, end) && !Before(cutoff, end)
  {
    if start.day == 1 {
      LastDayOfMonth(MonthIndex(start), end);
      NextMonthStarts(end);
      SameMonth(start, end);
    }
  }
}
