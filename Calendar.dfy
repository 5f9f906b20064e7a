/** Calendar dates and the instants the timeline works with.
    A date string "YYYY-MM-DD" parsed at local midnight becomes a CivilDate;
    its instant is the number of milliseconds since 1970-01-01 at local
    midnight, counted in whole days of 86,400,000 ms (no time zone and no
    daylight-saving shifts). */
module Calendar {

  const MsPerDay: int := 86_400_000

  /** Days from 0000-01-01 to 1970-01-01 in the proleptic Gregorian calendar. */
  const UnixEpochDay: int := 719_528

  datatype CivilDate = CivilDate(year: int, month: int, day: int)

  /** A calendar month, as the month markers step through them. */
  datatype YearMonth = YearMonth(year: int, month: int)

  predicate IsLeapYear(y: int) {
    y % 4 == 0 && (y % 100 != 0 || y % 400 == 0)
  }

  function YearLength(y: int): (n: int)
    ensures n == 365 || n == 366
  {
    if IsLeapYear(y) then 366 else 365
  }

  function DaysInMonth(y: int, m: int): (n: int)
    requires 1 <= m <= 12
    ensures 28 <= n <= 31
    ensures n == 29 <==> m == 2 && IsLeapYear(y)
  {
    if m == 2 then (if IsLeapYear(y) then 29 else 28)
    else if m == 4 || m == 6 || m == 9 || m == 11 then 30
    else 31
  }

  /** Days in the months of year y that come before month m. */
  function DaysBeforeMonth(y: int, m: int): int
    requires 1 <= m <= 12
  {
    var common :=
      match m
      case 1 => 0
      case 2 => 31
      case 3 => 59
      case 4 => 90
      case 5 => 120
      case 6 => 151
      case 7 => 181
      case 8 => 212
      case 9 => 243
      case 10 => 273
      case 11 => 304
      case _ => 334;
    if m > 2 && IsLeapYear(y) then common + 1 else common
  }

  predicate ValidMonth(ym: YearMonth) {
    0 <= ym.year && 1 <= ym.month <= 12
  }

  predicate ValidDate(d: CivilDate) {
    0 <= d.year && 1 <= d.month <= 12 && 1 <= d.day <= DaysInMonth(d.year, d.month)
  }

  /** Leap years in [0, y). */
  function LeapYearsBefore(y: int): int
    requires 0 <= y
  {
    (y + 3) / 4 - (y + 99) / 100 + (y + 399) / 400
  }

  function DaysBeforeYear(y: int): int
    requires 0 <= y
  {
    365 * y + LeapYearsBefore(y)
  }

  /** Day number of a date, 0 being 1970-01-01; negative exactly for years before 1970. */
  function DayNumber(d: CivilDate): (n: int)
    requires ValidDate(d)
    ensures d == CivilDate(1970, 1, 1) ==> n == 0
    ensures n >= 0 <==> d.year >= 1970
  {
    EpochSide(d);
    DaysBeforeYear(d.year) + DaysBeforeMonth(d.year, d.month) + d.day - 1 - UnixEpochDay
  }

  /** The instant of a date at local midnight, in milliseconds: what getTime gives for a parsed
      "YYYY-MM-DD". It is a whole number of days from the epoch. */
  function Instant(d: CivilDate): (t: int)
    requires ValidDate(d)
    ensures d == CivilDate(1970, 1, 1) ==> t == 0
    ensures t >= 0 <==> d.year >= 1970
  {
    DayNumber(d) * MsPerDay
  }

  function MonthOf(d: CivilDate): YearMonth {
    YearMonth(d.year, d.month)
  }

  function FirstDay(ym: YearMonth): (d: CivilDate)
    requires ValidMonth(ym)
    ensures ValidDate(d)
  {
    CivilDate(ym.year, ym.month, 1)
  }

  /** The month after ym: what setMonth(getMonth() + 1) does to the 1st of a month. */
  function NextMonth(ym: YearMonth): (r: YearMonth)
    requires ValidMonth(ym)
    ensures ValidMonth(r)
    ensures r.year * 12 + r.month == ym.year * 12 + ym.month + 1
  {
    if ym.month == 12 then YearMonth(ym.year + 1, 1) else YearMonth(ym.year, ym.month + 1)
  }

  /** The month k months after ym. */
  function AddMonths(ym: YearMonth, k: nat): (r: YearMonth)
    requires ValidMonth(ym)
    ensures ValidMonth(r)
  {
    if k == 0 then ym else NextMonth(AddMonths(ym, k - 1))
  }

  lemma CountStep4(y: int)
    requires 0 <= y
    ensures (y + 4) / 4 - (y + 3) / 4 == (if y % 4 == 0 then 1 else 0)
  {
    var q, r := y / 4, y % 4;
    assert y == 4 * q + r;
  }

  lemma CountStep100(y: int)
    requires 0 <= y
    ensures (y + 100) / 100 - (y + 99) / 100 == (if y % 100 == 0 then 1 else 0)
  {
    var q, r := y / 100, y % 100;
    assert y == 100 * q + r;
  }

  lemma CountStep400(y: int)
    requires 0 <= y
    ensures (y + 400) / 400 - (y + 399) / 400 == (if y % 400 == 0 then 1 else 0)
  {
    var q, r := y / 400, y % 400;
    assert y == 400 * q + r;
  }

  /** Multiples of 400 are multiples of 100, which are multiples of 4. */
  lemma DivisibilityChain(y: int)
    requires 0 <= y
    ensures y % 100 == 0 ==> y % 4 == 0
    ensures y % 400 == 0 ==> y % 100 == 0
  {
    if y % 100 == 0 {
      assert y == 100 * (y / 100);
      assert y == 4 * (25 * (y / 100));
    }
    if y % 400 == 0 {
      assert y == 400 * (y / 400);
      assert y == 100 * (4 * (y / 400));
    }
  }

  /** The leap-year count rises by one exactly past a leap year. */
  lemma LeapYearStep(y: int)
    requires 0 <= y
    ensures LeapYearsBefore(y + 1) == LeapYearsBefore(y) + (if IsLeapYear(y) then 1 else 0)
  {
    CountStep4(y);
    CountStep100(y);
    CountStep400(y);
    DivisibilityChain(y);
  }

  /** A year that starts before b starts at least a whole year before b does. */
  lemma {:induction false} DaysBeforeYearGrows(a: int, b: int)
    requires 0 <= a < b
    ensures DaysBeforeYear(a) + YearLength(a) <= DaysBeforeYear(b)
    decreases b - a
  {
    YearStep(a);
    if a + 1 < b {
      DaysBeforeYearGrows(a + 1, b);
    }
  }

  /** The months before m and month m itself fit in the year. */
  lemma MonthWithinYear(y: int, m: int)
    requires 1 <= m <= 12
    ensures 0 <= DaysBeforeMonth(y, m)
    ensures DaysBeforeMonth(y, m) + DaysInMonth(y, m) <= YearLength(y)
  {
  }

  /** 1970 starts UnixEpochDay days after 0000-01-01. */
  lemma EpochYearStart()
    ensures DaysBeforeYear(1970) == UnixEpochDay
  {
  }

  /** A date falls on or after 1970-01-01 exactly when its year is 1970 or later. */
  lemma EpochSide(d: CivilDate)
    requires ValidDate(d)
    ensures DaysBeforeYear(d.year) + DaysBeforeMonth(d.year, d.month) + d.day - 1 >= UnixEpochDay
        <==> d.year >= 1970
  {
    EpochYearStart();
    MonthWithinYear(d.year, d.month);
    if d.year < 1970 {
      DaysBeforeYearGrows(d.year, 1970);
    } else if d.year > 1970 {
      DaysBeforeYearGrows(1970, d.year);
    }
  }

  /** Consecutive years start YearLength days apart. */
  lemma YearStep(y: int)
    requires 0 <= y
    ensures DaysBeforeYear(y + 1) == DaysBeforeYear(y) + YearLength(y)
  {
    LeapYearStep(y);
  }

  /** The 1st of the next month is exactly one calendar month (DaysInMonth days) after the 1st of this one. */
  lemma NextMonthDays(ym: YearMonth)
    requires ValidMonth(ym)
    ensures DayNumber(FirstDay(NextMonth(ym))) == DayNumber(FirstDay(ym)) + DaysInMonth(ym.year, ym.month)
  {
    if ym.month == 12 {
      YearStep(ym.year);
    }
  }

  /** The 1st of a date's month is not after the date. */
  lemma FirstDayNotAfter(d: CivilDate)
    requires ValidDate(d)
    ensures DayNumber(FirstDay(MonthOf(d))) <= DayNumber(d)
    ensures Instant(FirstDay(MonthOf(d))) <= Instant(d)
  {
  }

  /** Day numbers increase strictly with the date in calendar order. */
  lemma {:induction false} DayNumberMonotone(a: CivilDate, b: CivilDate)
    requires ValidDate(a) && ValidDate(b)
    requires a.year < b.year
      || (a.year == b.year && a.month < b.month)
      || (a.year == b.year && a.month == b.month && a.day < b.day)
    ensures DayNumber(a) < DayNumber(b)
    decreases b.year - a.year, 12 - a.month
  {
    if a.year == b.year && a.month == b.month {
    } else {
      // Step from a to the 1st of the month after a's month.
      var next := NextMonth(MonthOf(a));
      NextMonthDays(MonthOf(a));
      var c := FirstDay(next);
      assert DayNumber(a) < DayNumber(c);
      if c != b {
        DayNumberMonotone(c, b);
      }
    }
  }

  /** Distinct valid dates have distinct instants. */
  lemma InstantInjective(a: CivilDate, b: CivilDate)
    requires ValidDate(a) && ValidDate(b)
    requires Instant(a) == Instant(b)
    ensures a == b
  {
    if a.year < b.year || (a.year == b.year && a.month < b.month)
      || (a.year == b.year && a.month == b.month && a.day < b.day) {
      DayNumberMonotone(a, b);
    } else if a != b {
      DayNumberMonotone(b, a);
    }
  }
}
