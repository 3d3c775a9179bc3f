/**
 * Payment frequencies, business-day calendars and the business-day
 * adjustment of a payment date. The adjustment implemented is the
 * Following Business Day Convention (ISDA 2006 Definitions, section
 * 4.12(a)(i)): a date that is not a business day moves to the first
 * following day that is one.
 */
module Scheduling {
  import opened Wrappers
  import opened Dates

  datatype PaymentFrequency = Monthly | Quarterly | SemiAnnual | Annual | ZeroCoupon

  /** Payments in one year; a zero-coupon instrument pays only at maturity. */
  function PaymentsPerYear(f: PaymentFrequency): (n: nat)
    ensures n == 0 <==> f.ZeroCoupon?
  {
    match f
    case Monthly => 12
    case Quarterly => 4
    case SemiAnnual => 2
    case Annual => 1
    case ZeroCoupon => 0
  }

  /** Calendar months between two payments of a periodic frequency. */
  function MonthsPerPeriod(f: PaymentFrequency): (m: nat)
    requires !f.ZeroCoupon?
    ensures m * PaymentsPerYear(f) == 12
  {
    match f
    case Monthly => 1
    case Quarterly => 3
    case SemiAnnual => 6
    case Annual => 12
  }

  /**
   * A named business-day calendar. Holiday sets are data outside this
   * model: every calendar here counts Monday to Friday as business days.
   */
  datatype BusinessDayCalendar = BusinessDayCalendar(name: string)
  {
    predicate IsBusinessDay(d: Date)
    {
      IsWeekdayOrdinal(Ordinal(d))
    }
  }

  /** Day number n (in ordinal count) falls Monday to Friday. */
  predicate IsWeekdayOrdinal(n: int)
  {
    (n + 6) % 7 < 5
  }

  datatype BusinessDayConvention = Following

  /** The first business day on or after d. */
  function RollForward(cal: BusinessDayCalendar, d: Date): (r: Date)
    ensures cal.IsBusinessDay(r)
    ensures Ordinal(r) == Ordinal(d) + DaysToMonday(Weekday(d))
    ensures forall n :: Ordinal(d) <= n < Ordinal(r) ==> !IsWeekdayOrdinal(n)
    decreases DaysToMonday(Weekday(d))
  {
    WeekendStep(Ordinal(d));
    if cal.IsBusinessDay(d) then d
    else
      var next := NextDay(d);
      var r := RollForward(cal, next);
      ExtendWeekendRun(Ordinal(d), Ordinal(r));
      r
  }

  /** A run of weekend days preceded by a weekend day is one day longer. */
  lemma ExtendWeekendRun(o: int, e: int)
    requires !IsWeekdayOrdinal(o)
    requires forall n :: o + 1 <= n < e ==> !IsWeekdayOrdinal(n)
    ensures forall n :: o <= n < e ==> !IsWeekdayOrdinal(n)
  {
  }

  /** On day number o: a weekday is zero days from Monday, and a weekend day is one day further than the next day. */
  lemma WeekendStep(o: int)
    ensures IsWeekdayOrdinal(o) <==> DaysToMonday((o + 6) % 7) == 0
    ensures !IsWeekdayOrdinal(o) ==> DaysToMonday((o + 1 + 6) % 7) + 1 == DaysToMonday((o + 6) % 7)
  {
    var w := (o + 6) % 7;
    assert (o + 1 + 6) % 7 == (w + 1) % 7;
  }

  /** Days from a weekend weekday to the following Monday; zero on a weekday. */
  function DaysToMonday(w: int): (n: nat)
    ensures n <= 2
  {
    if w == 5 then 2 else if w == 6 then 1 else 0
  }

  /** calendar.adjust(d, convention). */
  function Adjust(cal: BusinessDayCalendar, conv: BusinessDayConvention, d: Date): (r: Date)
    ensures cal.IsBusinessDay(r)
    ensures cal.IsBusinessDay(d) ==> r == d
    ensures OnOrBefore(d, r)
  {
    OrdinalOrder(d, RollForward(cal, d));
    match conv
    case Following => RollForward(cal, d)
  }

  /** Adjustment never reverses the order of two dates. */
  lemma AdjustMonotone(cal: BusinessDayCalendar, conv: BusinessDayConvention, a: Date, b: Date)
    requires OnOrBefore(a, b)
    ensures OnOrBefore(Adjust(cal, conv, a), Adjust(cal, conv, b))
  {
    var ra := Adjust(cal, conv, a);
    var rb := Adjust(cal, conv, b);
    OrdinalOrder(a, b);
    OrdinalOrder(b, rb);
    OrdinalOrder(ra, rb);
    if Ordinal(ra) == Ordinal(rb) {
      OrdinalInjective(ra, rb);
    }
  }

  /** Adjusting an adjusted date changes nothing. */
  lemma AdjustIdempotent(cal: BusinessDayCalendar, conv: BusinessDayConvention, d: Date)
    ensures Adjust(cal, conv, Adjust(cal, conv, d)) == Adjust(cal, conv, d)
  {
  }

  /** Saturday 2024-01-06 rolls forward to Monday 2024-01-08. */
  lemma WeekendRollExample(cal: BusinessDayCalendar)
    ensures Adjust(cal, Following, Ymd(2024, 1, 6)) == Ymd(2024, 1, 8)
  {
    var saturday: Date := Ymd(2024, 1, 6);
    var monday: Date := Ymd(2024, 1, 8);
    assert DaysBeforeYear(2024) == 738885;
    assert Ordinal(saturday) == 738891 && Ordinal(monday) == 738893;
    assert Weekday(saturday) == 5;
    OrdinalInjective(Adjust(cal, Following, saturday), monday);
  }
}
