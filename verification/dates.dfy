/**
 * Calendar dates as Python's datetime.date handles them: the proleptic
 * Gregorian calendar, day ordinals counted from 0001-01-01 (ordinal 1),
 * weekdays with Monday as 0, day arithmetic and the calendar-month
 * arithmetic (dateutil's relativedelta) that clamps to the last day of the
 * target month.
 */
module Dates {

  datatype Ymd = Ymd(year: int, month: int, day: int)

  predicate IsLeapYear(y: int)
  {
    y % 4 == 0 && (y % 100 != 0 || y % 400 == 0)
  }

  function DaysInMonth(y: int, m: int): (n: int)
    requires 1 <= m <= 12
    ensures 28 <= n <= 31
  {
    if m == 2 then (if IsLeapYear(y) then 29 else 28)
    else if m == 4 || m == 6 || m == 9 || m == 11 then 30
    else 31
  }

  predicate ValidYmd(d: Ymd)
  {
    1 <= d.year && 1 <= d.month <= 12 && 1 <= d.day <= DaysInMonth(d.year, d.month)
  }

  /** A date that exists in the calendar; Python cannot build any other. */
  type Date = d: Ymd | ValidYmd(d) witness Ymd(1, 1, 1)

  function DaysInYear(y: int): int
  {
    if IsLeapYear(y) then 366 else 365
  }

  /** Days in the years before year y (Python's _days_before_year). */
  function DaysBeforeYear(y: int): int
    requires y >= 1
  {
    var p := y - 1;
    365 * p + p / 4 - p / 100 + p / 400
  }

  /** Days in the months of year y before month m (Python's _days_before_month). */
  function DaysBeforeMonth(y: int, m: int): int
    requires 1 <= m <= 12
  {
    (if m == 1 then 0 else if m == 2 then 31 else if m == 3 then 59
     else if m == 4 then 90 else if m == 5 then 120 else if m == 6 then 151
     else if m == 7 then 181 else if m == 8 then 212 else if m == 9 then 243
     else if m == 10 then 273 else if m == 11 then 304 else 334)
    + (if m > 2 && IsLeapYear(y) then 1 else 0)
  }

  /** The closed form for the days before a year agrees with the year lengths. */
  lemma YearLength(y: int)
    requires y >= 1
    ensures DaysBeforeYear(y + 1) == DaysBeforeYear(y) + DaysInYear(y)
  {
    assert y / 4 - (y - 1) / 4 == (if y % 4 == 0 then 1 else 0);
    assert y / 100 - (y - 1) / 100 == (if y % 100 == 0 then 1 else 0);
    assert y / 400 - (y - 1) / 400 == (if y % 400 == 0 then 1 else 0);
  }

  /** The month table agrees with the month lengths. */
  lemma MonthLength(y: int, m: int)
    requires 1 <= m <= 12
    ensures m < 12 ==> DaysBeforeMonth(y, m + 1) == DaysBeforeMonth(y, m) + DaysInMonth(y, m)
    ensures m == 12 ==> DaysBeforeMonth(y, m) + DaysInMonth(y, m) == DaysInYear(y)
  {
  }

  /** Python's date.toordinal(): 0001-01-01 is day 1. */
  function Ordinal(d: Date): int
  {
    DaysBeforeYear(d.year) + DaysBeforeMonth(d.year, d.month) + d.day
  }

  /** Python's date.weekday(): Monday is 0 and Sunday is 6. */
  function Weekday(d: Date): (w: int)
    ensures 0 <= w < 7
  {
    (Ordinal(d) + 6) % 7
  }

  /** The calendar day after d. */
  function NextDay(d: Date): (r: Date)
    ensures Ordinal(r) == Ordinal(d) + 1
  {
    MonthLength(d.year, d.month);
    if d.day < DaysInMonth(d.year, d.month) then Ymd(d.year, d.month, d.day + 1)
    else if d.month < 12 then Ymd(d.year, d.month + 1, 1)
    else YearLength(d.year); Ymd(d.year + 1, 1, 1)
  }

  /** d + timedelta(days=n). */
  function AddDays(d: Date, n: nat): (r: Date)
    ensures Ordinal(r) == Ordinal(d) + n
    decreases n
  {
    if n == 0 then d else AddDays(NextDay(d), n - 1)
  }

  /** Python's date comparison a < b. */
  predicate Before(a: Date, b: Date)
  {
    a.year < b.year || (a.year == b.year && (a.month < b.month || (a.month == b.month && a.day < b.day)))
  }

  /** Python's date comparison a <= b. */
  predicate OnOrBefore(a: Date, b: Date)
  {
    Before(a, b) || a == b
  }

  /** Exactly one of a < b, a == b, b < a holds. */
  lemma Trichotomy(a: Date, b: Date)
    ensures Before(a, b) || a == b || Before(b, a)
    ensures !(Before(a, b) && Before(b, a))
    ensures !Before(a, a)
  {
  }

  lemma BeforeTransitive(a: Date, b: Date, c: Date)
    requires Before(a, b) && Before(b, c)
    ensures Before(a, c)
  {
  }

  lemma OnOrBeforeTransitive(a: Date, b: Date, c: Date)
    requires OnOrBefore(a, b) && OnOrBefore(b, c)
    ensures OnOrBefore(a, c)
  {
  }

  /** A date's ordinal lies inside its own year. */
  lemma OrdinalInYear(d: Date)
    ensures DaysBeforeYear(d.year) < Ordinal(d) <= DaysBeforeYear(d.year) + DaysInYear(d.year)
  {
    MonthLength(d.year, 12);
    assert DaysBeforeMonth(d.year, d.month) + DaysInMonth(d.year, d.month) <= DaysInYear(d.year);
  }

  /** Whole years before a later year cover the earlier year in full. */
  lemma {:induction false} YearsCover(y1: int, y2: int)
    requires 1 <= y1 < y2
    ensures DaysBeforeYear(y1) + DaysInYear(y1) <= DaysBeforeYear(y2)
    decreases y2 - y1
  {
    YearLength(y1);
    if y1 + 1 < y2 {
      YearsCover(y1 + 1, y2);
    }
  }

  /** Lexicographic order on dates is the order of their ordinals. */
  lemma OrdinalOrder(a: Date, b: Date)
    ensures Before(a, b) <==> Ordinal(a) < Ordinal(b)
  {
    if a.year < b.year {
      OrdinalInYear(a);
      OrdinalInYear(b);
      YearsCover(a.year, b.year);
    } else if b.year < a.year {
      OrdinalInYear(a);
      OrdinalInYear(b);
      YearsCover(b.year, a.year);
    } else if a.month < b.month {
      assert DaysBeforeMonth(a.year, a.month) + DaysInMonth(a.year, a.month) <= DaysBeforeMonth(a.year, b.month);
    } else if b.month < a.month {
      assert DaysBeforeMonth(b.year, b.month) + DaysInMonth(b.year, b.month) <= DaysBeforeMonth(b.year, a.month);
    }
  }

  /** Two dates with the same ordinal are the same date. */
  lemma OrdinalInjective(a: Date, b: Date)
    requires Ordinal(a) == Ordinal(b)
    ensures a == b
  {
    OrdinalOrder(a, b);
    OrdinalOrder(b, a);
    Trichotomy(a, b);
  }

  /** Months counted from year 0, month 1. */
  function MonthIndex(d: Ymd): int
  {
    d.year * 12 + d.month - 1
  }

  function Min(a: int, b: int): int
  {
    if a <= b then a else b
  }

  /**
   * d + relativedelta(months=k): the same day of the month k months later,
   * clamped to the last day of the target month.
   */
  function AddMonths(d: Date, k: nat): (r: Date)
    ensures MonthIndex(r) == MonthIndex(d) + k
    ensures r.day == Min(d.day, DaysInMonth(r.year, r.month))
  {
    var index := MonthIndex(d) + k;
    var y := index / 12;
    var m := index % 12 + 1;
    Ymd(y, m, Min(d.day, DaysInMonth(y, m)))
  }

  /** Adding no months leaves a date unchanged. */
  lemma AddMonthsZero(d: Date)
    ensures AddMonths(d, 0) == d
  {
    var r := AddMonths(d, 0);
    assert r.year == d.year && r.month == d.month;
  }

  /** A date in a later month is a later date. */
  lemma LaterMonthIsLater(a: Date, b: Date)
    requires MonthIndex(a) < MonthIndex(b)
    ensures Before(a, b)
  {
  }

  /** Stepping further in whole months always gives a strictly later date. */
  lemma AddMonthsStrictlyIncreasing(d: Date, i: nat, j: nat)
    requires i < j
    ensures Before(AddMonths(d, i), AddMonths(d, j))
  {
    LaterMonthIsLater(AddMonths(d, i), AddMonths(d, j));
  }
}
