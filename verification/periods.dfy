/**
 * Period: a length of time as a whole count of days, weeks, months or
 * years, written compactly as the count followed by a unit letter
 * ("3M", "1Y", "90D", "2W").
 */
module Periods {
  import opened Wrappers
  import opened Errors
  import opened Decimals
  import opened Dates

  datatype TimeUnit = Days | Weeks | Months | Years

  datatype Period = Period(length: nat, unit: TimeUnit)

  /** The upper-case letter that names a unit. */
  function UnitLetter(u: TimeUnit): char
  {
    match u
    case Days => 'D'
    case Weeks => 'W'
    case Months => 'M'
    case Years => 'Y'
  }

  /** The unit a letter names, in either case. */
  function UnitOf(c: char): (u: Option<TimeUnit>)
    ensures u.Some? <==> c in "DdWwMmYy"
    ensures u.Some? ==> UnitLetter(u.value) == c || UnitLetter(u.value) as int == c as int - 32
  {
    if c == 'D' || c == 'd' then Some(Days)
    else if c == 'W' || c == 'w' then Some(Weeks)
    else if c == 'M' || c == 'm' then Some(Months)
    else if c == 'Y' || c == 'y' then Some(Years)
    else None
  }

  /** Every unit is recognised from its upper-case and from its lower-case letter. */
  lemma UnitLettersRecognised(u: TimeUnit)
    ensures UnitOf(UnitLetter(u)) == Some(u)
    ensures UnitOf((UnitLetter(u) as int + 32) as char) == Some(u)
  {
  }

  /** Period.from_string(s): one or more digits, then a unit letter. */
  function FromString(s: string): (r: Result<Period, ValidationError>)
    ensures r.Ok? <==> |s| >= 2 && AllDigits(s[..|s| - 1]) && UnitOf(s[|s| - 1]).Some?
    ensures r.Ok? ==> r.value == Period(DigitsValue(s[..|s| - 1]), UnitOf(s[|s| - 1]).value)
    ensures r.Err? ==> r.error == InvalidPeriodString
  {
    if |s| >= 2 && AllDigits(s[..|s| - 1]) && UnitOf(s[|s| - 1]).Some? then
      Ok(Period(DigitsValue(s[..|s| - 1]), UnitOf(s[|s| - 1]).value))
    else Err(InvalidPeriodString)
  }

  /** str(period): the count in decimal, then the upper-case unit letter. */
  function ToString(p: Period): (s: string)
    ensures |s| >= 2 && s[|s| - 1] == UnitLetter(p.unit)
    ensures AllDigits(s[..|s| - 1]) && DigitsValue(s[..|s| - 1]) == p.length
  {
    var digits := NatToString(p.length);
    assert (digits + [UnitLetter(p.unit)])[..|digits|] == digits;
    digits + [UnitLetter(p.unit)]
  }

  /** Formatting and then parsing gives back the same period. */
  lemma ParseFormatted(p: Period)
    ensures FromString(ToString(p)) == Ok(p)
  {
    var s := ToString(p);
    assert UnitOf(s[|s| - 1]) == Some(p.unit);
  }

  /** A parsed string formats back to itself when written canonically. */
  lemma FormatParsed(s: string)
    requires FromString(s).Ok?
    ensures FromString(ToString(FromString(s).value)) == FromString(s)
  {
    ParseFormatted(FromString(s).value);
  }

  /** A count written in decimal, then any accepted unit letter, parses to that period. */
  lemma ParsesCountAndLetter(n: nat, c: char)
    requires UnitOf(c).Some?
    ensures FromString(NatToString(n) + [c]) == Ok(Period(n, UnitOf(c).value))
  {
    var s := NatToString(n) + [c];
    assert s[..|s| - 1] == NatToString(n);
  }

  /** The library's own parsing examples, lower-case unit included. */
  lemma FromStringExamples()
    ensures FromString("3M") == Ok(Period(3, Months))
    ensures FromString("6m") == Ok(Period(6, Months))
    ensures FromString("1Y") == Ok(Period(1, Years))
    ensures FromString("2W") == Ok(Period(2, Weeks))
  {
    assert "3M" == NatToString(3) + ['M'];
    ParsesCountAndLetter(3, 'M');
    assert "6m" == NatToString(6) + ['m'];
    ParsesCountAndLetter(6, 'm');
    assert "1Y" == NatToString(1) + ['Y'];
    ParsesCountAndLetter(1, 'Y');
    assert "2W" == NatToString(2) + ['W'];
    ParsesCountAndLetter(2, 'W');
  }

  /** "90D" is ninety days. */
  lemma FromStringTwoDigitExample()
    ensures FromString("90D") == Ok(Period(90, Days))
  {
    assert NatToString(90) == NatToString(9) + [DigitChar(0)] == "90";
    assert "90D" == NatToString(90) + ['D'];
    ParsesCountAndLetter(90, 'D');
  }

  /** Text that is not a number, a unit before the number, and an unknown unit are refused. */
  lemma FromStringRejects()
    ensures FromString("invalid") == Err(InvalidPeriodString)
    ensures FromString("M3") == Err(InvalidPeriodString)
    ensures FromString("3X") == Err(InvalidPeriodString)
  {
    assert !IsDigit("invalid"[0]);
    assert !IsDigit("M3"[0]);
  }

  lemma FormatExample()
    ensures ToString(Period(3, Months)) == "3M"
  {
  }

  /**
   * period.to_days(approximate): days and weeks convert exactly; a month
   * counts 30 days and a year 365 only when approximation is allowed.
   */
  function ToDays(p: Period, approximate: bool): (r: Result<nat, ValidationError>)
    ensures r.Err? <==> !approximate && (p.unit.Months? || p.unit.Years?)
    ensures r.Err? ==> r.error == InexactConversion
    ensures r.Ok? ==> r.value == p.length * DaysPer(p.unit)
  {
    match p.unit
    case Days => Ok(p.length)
    case Weeks => Ok(7 * p.length)
    case Months => if approximate then Ok(30 * p.length) else Err(InexactConversion)
    case Years => if approximate then Ok(365 * p.length) else Err(InexactConversion)
  }

  /** Days in one unit, approximating a month as 30 days and a year as 365. */
  function DaysPer(u: TimeUnit): nat
  {
    match u
    case Days => 1
    case Weeks => 7
    case Months => 30
    case Years => 365
  }

  /**
   * period.to_months(approximate): months and years convert exactly; days
   * and weeks only approximately, at 30 days to the month.
   */
  function ToMonths(p: Period, approximate: bool): (r: Result<real, ValidationError>)
    ensures r.Err? <==> !approximate && (p.unit.Days? || p.unit.Weeks?)
    ensures r.Ok? && p.unit.Months? ==> r.value == p.length as real
    ensures r.Ok? && p.unit.Years? ==> r.value == 12.0 * p.length as real
    ensures r.Ok? && (p.unit.Days? || p.unit.Weeks?) ==> r.value * 30.0 == (p.length * DaysPer(p.unit)) as real
  {
    match p.unit
    case Months => Ok(p.length as real)
    case Years => Ok(12.0 * p.length as real)
    case _ => if approximate then Ok((p.length * DaysPer(p.unit)) as real / 30.0) else Err(InexactConversion)
  }

  /**
   * period.to_years(approximate): years and months convert exactly; days
   * and weeks only approximately, at 365 days to the year.
   */
  function ToYears(p: Period, approximate: bool): (r: Result<real, ValidationError>)
    ensures r.Err? <==> !approximate && (p.unit.Days? || p.unit.Weeks?)
    ensures r.Ok? && p.unit.Years? ==> r.value == p.length as real
    ensures r.Ok? && p.unit.Months? ==> r.value * 12.0 == p.length as real
    ensures r.Ok? && (p.unit.Days? || p.unit.Weeks?) ==> r.value * 365.0 == (p.length * DaysPer(p.unit)) as real
  {
    match p.unit
    case Years => Ok(p.length as real)
    case Months => Ok(p.length as real / 12.0)
    case _ => if approximate then Ok((p.length * DaysPer(p.unit)) as real / 365.0) else Err(InexactConversion)
  }

  /** Months and years convert into each other exactly. */
  lemma MonthsYearsAgree(p: Period)
    requires p.unit.Months? || p.unit.Years?
    ensures ToMonths(p, false).Ok? && ToYears(p, false).Ok?
    ensures ToMonths(p, false).value == 12.0 * ToYears(p, false).value
  {
  }

  /** The library's conversion examples. */
  lemma ConversionExamples()
    ensures ToDays(Period(7, Days), false) == Ok(7)
    ensures ToDays(Period(2, Weeks), false) == Ok(14)
    ensures ToDays(Period(1, Months), true) == Ok(30)
    ensures ToDays(Period(1, Years), true) == Ok(365)
    ensures ToDays(Period(1, Months), false).Err?
    ensures ToMonths(Period(1, Years), false) == Ok(12.0)
    ensures ToMonths(Period(30, Days), true) == Ok(1.0)
    ensures ToYears(Period(12, Months), false) == Ok(1.0)
    ensures ToYears(Period(6, Months), false) == Ok(0.5)
  {
  }

  /** The approximate length in days by which periods are compared. */
  function ApproxDays(p: Period): nat
  {
    p.length * DaysPer(p.unit)
  }

  /** period < other, comparing approximate lengths in days. */
  predicate Shorter(p: Period, q: Period)
  {
    ApproxDays(p) < ApproxDays(q)
  }

  /** period <= other, comparing approximate lengths in days. */
  predicate NoLonger(p: Period, q: Period)
  {
    ApproxDays(p) <= ApproxDays(q)
  }

  /** The comparisons form a total preorder that agrees with approximate to_days. */
  lemma ComparisonIsApproximateDays(p: Period, q: Period, r: Period)
    ensures ToDays(p, true) == Ok(ApproxDays(p))
    ensures Shorter(p, q) || NoLonger(q, p)
    ensures !(Shorter(p, q) && NoLonger(q, p))
    ensures NoLonger(p, q) && NoLonger(q, r) ==> NoLonger(p, r)
    ensures p == q ==> NoLonger(p, q) && NoLonger(q, p)
  {
  }

  /** 1Y is longer than 6M, and at least as long as 12M though not equal to it. */
  lemma ComparisonExamples()
    ensures Shorter(Period(6, Months), Period(1, Years))
    ensures NoLonger(Period(12, Months), Period(1, Years))
    ensures Period(12, Months) != Period(1, Years)
  {
  }

  /**
   * period.add_to_date(d): calendar days for days and weeks; calendar
   * months, clamped to the end of the target month, for months and years.
   */
  function AddToDate(p: Period, d: Date): (r: Date)
    ensures (p.unit.Days? || p.unit.Weeks?) ==> Ordinal(r) == Ordinal(d) + ApproxDays(p)
    ensures p.unit.Months? ==> MonthIndex(r) == MonthIndex(d) + p.length
    ensures p.unit.Years? ==> MonthIndex(r) == MonthIndex(d) + 12 * p.length
    ensures (p.unit.Months? || p.unit.Years?) ==> r.day == Min(d.day, DaysInMonth(r.year, r.month))
  {
    match p.unit
    case Days | Weeks => AddDays(d, ApproxDays(p))  // one or seven days per unit
    case Months => AddMonths(d, p.length)
    case Years => AddMonths(d, 12 * p.length)
  }

  /** A period of months or years keeps the day of the month whenever the target month has it. */
  lemma AddKeepsDayOfMonth(p: Period, d: Date)
    requires p.unit.Months? || p.unit.Years?
    requires d.day <= 28
    ensures AddToDate(p, d).day == d.day
    ensures p.unit.Years? ==> AddToDate(p, d).month == d.month && AddToDate(p, d).year == d.year + p.length
  {
  }

  /** Adding a non-empty period always moves to a strictly later date. */
  lemma AddMovesForward(p: Period, d: Date)
    requires p.length > 0
    ensures Before(d, AddToDate(p, d))
  {
    var r := AddToDate(p, d);
    if p.unit.Days? || p.unit.Weeks? {
      OrdinalOrder(d, r);
    } else {
      LaterMonthIsLater(d, r);
    }
  }

  /** Ten days after 2024-01-15 is 2024-01-25. */
  lemma AddDaysExample()
    ensures AddToDate(Period(10, Days), Ymd(2024, 1, 15)) == Ymd(2024, 1, 25)
  {
    var start: Date := Ymd(2024, 1, 15);
    var target: Date := Ymd(2024, 1, 25);
    assert Ordinal(target) == Ordinal(start) + 10;
    OrdinalInjective(AddToDate(Period(10, Days), start), target);
  }

  /** Month and year steps keep the day; 2024-01-31 plus one month clamps to 2024-02-29. */
  lemma AddMonthsExamples()
    ensures AddToDate(Period(3, Months), Ymd(2024, 1, 15)) == Ymd(2024, 4, 15)
    ensures AddToDate(Period(1, Months), Ymd(2024, 1, 31)) == Ymd(2024, 2, 29)
    ensures AddToDate(Period(1, Years), Ymd(2024, 1, 15)) == Ymd(2025, 1, 15)
  {
  }
}
