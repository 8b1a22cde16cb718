/** The date arithmetic behind the faculty calendar
    (src/FacultyDashboard.jsx): the month shown, stepping it back and forth
    with `new Date(year, month ± 1)`, the length of the month by the
    "day 0 of the next month" idiom, the weekday of its first day, and the
    day-of-month taken from a `YYYY-MM-DD` string.  Dates follow the
    proleptic Gregorian calendar of ECMA-262 section 21.4, including the
    Date constructor's rule that a year from 0 to 99 means 1900 plus it. */
module Calendar {
  import opened Values
  import opened Text

  /** The year and zero-based month a `Date` reports through `getFullYear`
      and `getMonth`; the rest of the date is never read. */
  datatype Month = Month(year: int, month: int)

  predicate ValidMonth(c: Month) {
    0 <= c.month < 12
  }

  /** The year the Date constructor uses for a year argument (section
      21.4.2.1 of ECMA-262): 0 to 99 stand for 1900 to 1999. */
  function FullYear(y: int): (r: int)
    ensures r != y <==> 0 <= y <= 99
    ensures !(0 <= r <= 99)
    ensures 0 <= y <= 99 ==> r - y == 1900
  {
    if 0 <= y <= 99 then 1900 + y else y
  }

  predicate IsLeapYear(y: int) {
    y % 4 == 0 && (y % 100 != 0 || y % 400 == 0)
  }

  /** The number of days in zero-based month `m` of year `y`. */
  function MonthLength(y: int, m: int): (r: int)
    requires 0 <= m < 12
    ensures 28 <= r <= 31
    ensures r == 29 <==> m == 1 && IsLeapYear(y)
  {
    if m == 1 then (if IsLeapYear(y) then 29 else 28)
    else if m == 3 || m == 5 || m == 8 || m == 10 then 30
    else 31
  }

  function YearLength(y: int): int {
    if IsLeapYear(y) then 366 else 365
  }

  /** Days before the first of zero-based month `m` in year `y`, as the
      cumulative table of ECMA-262's `MonthFromTime` has them. */
  function DaysBeforeMonth(y: int, m: int): int
    requires 0 <= m <= 12
  {
    [0, 31, 59, 90, 120, 151, 181, 212, 243, 273, 304, 334, 365][m] +
    (if m >= 2 && IsLeapYear(y) then 1 else 0)
  }

  /** Each month starts where the previous one ends, and the twelve make up
      the year. */
  lemma MonthsFollowOn(y: int, m: int)
    requires 0 <= m < 12
    ensures DaysBeforeMonth(y, m + 1) == DaysBeforeMonth(y, m) + MonthLength(y, m)
    ensures DaysBeforeMonth(y, 12) == YearLength(y)
  {
  }

  /** `DayFromYear` of ECMA-262: the day number of 1 January of `y`,
      counted from 1 January 1970. */
  function DayFromYear(y: int): int {
    365 * (y - 1970) + (y - 1969) / 4 - (y - 1901) / 100 + (y - 1601) / 400
  }

  /** Consecutive years start one year length apart. */
  lemma DayFromYearStep(y: int)
    ensures DayFromYear(y + 1) - DayFromYear(y) == YearLength(y)
  {
    QuarterStep(y);
    CenturyStep(y);
    FourCenturyStep(y);
    LeapDivisors(y);
  }

  /** The three leap-year terms of `DayFromYear` step up exactly at
      multiples of 4, 100 and 400. */
  lemma QuarterStep(y: int)
    ensures (y - 1968) / 4 - (y - 1969) / 4 == if y % 4 == 0 then 1 else 0
  {
  }

  lemma CenturyStep(y: int)
    ensures (y - 1900) / 100 - (y - 1901) / 100 == if y % 100 == 0 then 1 else 0
  {
  }

  lemma FourCenturyStep(y: int)
    ensures (y - 1600) / 400 - (y - 1601) / 400 == if y % 400 == 0 then 1 else 0
  {
  }

  lemma LeapDivisors(y: int)
    ensures y % 400 == 0 ==> y % 100 == 0
    ensures y % 100 == 0 ==> y % 4 == 0
  {
  }

  /** `MakeDay(year, month, date)` of ECMA-262: a month outside 0..11 moves
      into the neighbouring years, and a date outside the month runs into
      the neighbouring months. */
  function MakeDay(year: int, month: int, date: int): int {
    var ym := year + month / 12;
    var mn := month % 12;
    DayFromYear(ym) + DaysBeforeMonth(ym, mn) + date - 1
  }

  /** `WeekDay` of ECMA-262: 0 is Sunday; 1 January 1970 was a Thursday. */
  function WeekDay(day: int): (r: int)
    ensures 0 <= r < 7
  {
    (day + 4) % 7
  }

  /** For a month inside the year, `MakeDay` is the year's start plus the
      days before the month and the date. */
  lemma MakeDayInYear(year: int, month: int, date: int)
    requires 0 <= month < 12
    ensures MakeDay(year, month, date) == DayFromYear(year) + DaysBeforeMonth(year, month) + date - 1
  {
    assert month / 12 == 0 && month % 12 == month;
  }

  /** `new Date(y, m)` read back through `getFullYear` and `getMonth`. */
  function Construct(y: int, m: int): (r: Month)
    ensures ValidMonth(r)
    ensures r.year == FullYear(y) + m / 12 && r.month == m % 12
  {
    Month(FullYear(y) + m / 12, m % 12)
  }

  /** `goToPreviousMonth`: always a month of the calendar. */
  function Previous(c: Month): (r: Month)
    ensures ValidMonth(r)
  {
    Construct(c.year, c.month - 1)
  }

  /** `goToNextMonth`: always a month of the calendar. */
  function Next(c: Month): (r: Month)
    ensures ValidMonth(r)
  {
    Construct(c.year, c.month + 1)
  }

  /** Stepping moves one month, rolling the year over at its ends, for a
      year the constructor takes literally. */
  lemma StepsRollOver(c: Month)
    requires ValidMonth(c) && !(0 <= c.year <= 99)
    ensures Previous(c) == if c.month == 0 then Month(c.year - 1, 11) else Month(c.year, c.month - 1)
    ensures Next(c) == if c.month == 11 then Month(c.year + 1, 0) else Month(c.year, c.month + 1)
  {
  }

  /** Going back and then forward returns to the same month, for every year
      outside the constructor's two-digit range and its edge. */
  lemma NextAfterPrevious(c: Month)
    requires ValidMonth(c) && !(0 <= c.year <= 100)
    ensures Next(Previous(c)) == c
  {
    StepsRollOver(c);
    StepsRollOver(Previous(c));
  }

  /** Going forward and then back returns to the same month, likewise. */
  lemma PreviousAfterNext(c: Month)
    requires ValidMonth(c) && !(-1 <= c.year <= 99)
    ensures Previous(Next(c)) == c
  {
    StepsRollOver(c);
    StepsRollOver(Next(c));
  }

  /** At January of year 100 the round trip breaks: going back shows
      December of year 99, and going forward from there reads 99 as 1999. */
  lemma StepBackPastYear100()
    ensures Previous(Month(100, 0)) == Month(99, 11)
    ensures Next(Previous(Month(100, 0))) == Month(2000, 0)
    ensures Previous(Previous(Month(100, 0))) == Month(1999, 10)
  {
  }

  /** `getDaysInMonth`: the date of `new Date(year, month + 1, 0)`. */
  function DaysInMonth(c: Month): (r: int)
    requires ValidMonth(c)
    ensures 28 <= r <= 31
    ensures r == MonthLength(FullYear(c.year), c.month)
  {
    DayZeroIsLastDay(FullYear(c.year), c.month);
    MonthLength(FullYear(c.year), c.month)
  }

  /** Day 0 of the next month is the last day of this one, so the date the
      constructor lands on is this month's length. */
  lemma DayZeroIsLastDay(y: int, m: int)
    requires 0 <= m < 12
    ensures MakeDay(y, m + 1, 0) == MakeDay(y, m, MonthLength(y, m))
  {
    MakeDayInYear(y, m, MonthLength(y, m));
    MonthsFollowOn(y, m);
    if m < 11 {
      MakeDayInYear(y, m + 1, 0);
    } else {
      MakeDayPastDecember(y, 0);
      DayFromYearStep(y);
    }
  }

  /** Month 12 of a year is January of the next. */
  lemma MakeDayPastDecember(y: int, date: int)
    ensures MakeDay(y, 12, date) == DayFromYear(y + 1) + date - 1
  {
    assert 12 / 12 == 1 && 12 % 12 == 0;
    assert DaysBeforeMonth(y + 1, 0) == 0;
  }

  /** `getFirstDayOfMonth`: the weekday of `new Date(year, month, 1)`, which
      is the number of blank cells before day 1. */
  function FirstWeekday(c: Month): (r: int)
    ensures 0 <= r < 7
  {
    WeekDay(MakeDay(FullYear(c.year), c.month, 1))
  }

  /** Cell `FirstWeekday + d - 1` of the grid falls in the column of day
      `d`'s weekday. */
  lemma GridColumns(c: Month, d: int)
    requires ValidMonth(c) && 1 <= d <= DaysInMonth(c)
    ensures (FirstWeekday(c) + d - 1) % 7 == WeekDay(MakeDay(FullYear(c.year), c.month, d))
  {
    var y := FullYear(c.year);
    MakeDayInYear(y, c.month, 1);
    MakeDayInYear(y, c.month, d);
    WeekShift(MakeDay(y, c.month, 1), d - 1);
  }

  /** Counting `k` days on from a weekday. */
  lemma WeekShift(x: int, k: int)
    ensures (WeekDay(x) + k) % 7 == WeekDay(x + k)
  {
    var a := x + 4;
    var q := a / 7;
    assert a == 7 * q + a % 7;
    assert a + k == 7 * q + (a % 7 + k);
  }

  /** The next month starts on the weekday after this month's last day. */
  lemma NextFirstWeekday(c: Month)
    requires ValidMonth(c) && !(0 <= Next(c).year <= 99)
    ensures FirstWeekday(Next(c)) == (FirstWeekday(c) + DaysInMonth(c)) % 7
  {
    var first := MakeDay(FullYear(c.year), c.month, 1);
    NextStartsAfter(c);
    WeekShift(first, DaysInMonth(c));
  }

  /** The first of the next month is this month's length after the first
      of this one. */
  lemma NextStartsAfter(c: Month)
    requires ValidMonth(c)
    ensures MakeDay(Next(c).year, Next(c).month, 1) == MakeDay(FullYear(c.year), c.month, 1) + DaysInMonth(c)
  {
    var y := FullYear(c.year);
    if c.month == 11 {
      assert Next(c) == Month(y + 1, 0);
      NextAcrossYear(y);
    } else {
      assert Next(c) == Month(y, c.month + 1);
      NextInYear(y, c.month);
    }
  }

  /** Within a year, the next month starts one month length later. */
  lemma NextInYear(y: int, m: int)
    requires 0 <= m < 11
    ensures MakeDay(y, m + 1, 1) == MakeDay(y, m, 1) + MonthLength(y, m)
  {
    MakeDayInYear(y, m + 1, 1);
    MakeDayInYear(y, m, 1);
    MonthsFollowOn(y, m);
  }

  /** January starts one December length after the previous December. */
  lemma NextAcrossYear(y: int)
    ensures MakeDay(y + 1, 0, 1) == MakeDay(y, 11, 1) + MonthLength(y, 11)
  {
    MakeDayInYear(y + 1, 0, 1);
    MakeDayInYear(y, 11, 1);
    MonthsFollowOn(y, 11);
    DayFromYearStep(y);
  }

  /** February has 29 days exactly in leap years. */
  lemma FebruaryLength(y: int)
    requires !(0 <= y <= 99)
    ensures DaysInMonth(Month(y, 1)) == if IsLeapYear(y) then 29 else 28
  {
  }

  /** 1 January 1970 was a Thursday. */
  lemma EpochWeekday()
    ensures FirstWeekday(Month(1970, 0)) == 4
  {
    var day := DayFromYear(1970) + DaysBeforeMonth(1970, 0);
    FirstDayNumber(1970, 0, day);
    assert day == 0;
  }

  /** 1 December 2024 was a Sunday. */
  lemma December2024Weekday()
    ensures FirstWeekday(Month(2024, 11)) == 0
  {
    var day := DayFromYear(2024) + DaysBeforeMonth(2024, 11);
    FirstDayNumber(2024, 11, day);
    assert day == 20058;
  }

  /** The day number of the first of a month, from its year's start and the
      days before it. */
  lemma FirstDayNumber(y: int, m: int, day: int)
    requires 0 <= m < 12 && !(0 <= y <= 99)
    requires day == DayFromYear(y) + DaysBeforeMonth(y, m)
    ensures FirstWeekday(Month(y, m)) == WeekDay(day)
  {
    MakeDayInYear(y, m, 1);
  }

  /** The day field of a `YYYY-MM-DD` date: `parseInt` of the third
      `-`-separated part, NaN when there is none. */
  function DayOfDate(date: string): Option<int> {
    var parts := Split(date, '-');
    if |parts| < 3 then None else ParseInt(parts[2])
  }

  /** A well-formed date gives its two-digit day, leading zero or not. */
  lemma DayOfWellFormedDate(y: string, m: string, d: string)
    requires '-' !in y && '-' !in m && d != [] && AllDigits(d)
    ensures DayOfDate(y + ['-'] + (m + ['-'] + d)) == Some(DigitsValue(d) as int)
  {
    SplitConcat(y, m + ['-'] + d, '-');
    SplitConcat(m, d, '-');
    SplitFree(y, '-');
    SplitFree(m, '-');
    DigitsHaveNoDash(d);
    SplitFree(d, '-');
    assert Split(y + ['-'] + (m + ['-'] + d), '-') == [y, m, d];
    ParseIntDigits(d);
  }

  lemma DigitsHaveNoDash(d: string)
    requires AllDigits(d)
    ensures '-' !in d
  {
  }
}
