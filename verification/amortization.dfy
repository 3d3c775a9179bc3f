/**
 * The amortization engine: the level (annuity) payment, payment-date
 * generation, and the four schedule builders. Each builder walks the
 * payment dates once, emitting the period's flows and carrying the
 * outstanding balance forward; the final period repays whatever balance
 * is left, so the principal flows always add up to the principal.
 */
module Amortization {
  import opened Wrappers
  import opened Errors
  import opened Decimals
  import opened Dates
  import opened Monetary
  import opened Scheduling
  import opened CashFlows

  // The level payment

  /** P * r * X^n / (X^n - 1) with X = 1 + r, or P / n at a zero rate. */
  function AnnuityPayment(principal: real, rate: real, n: nat): real
    requires rate >= 0.0 && n >= 1
  {
    if rate == 0.0 then principal / n as real
    else
      var x := Pow(1.0 + rate, n);
      PowStrictlyIncreasing(1.0 + rate, 0, n);
      principal * rate * x / (x - 1.0)
  }

  /**
   * calculate_level_payment(principal, periodic_rate, num_payments): the
   * constant payment that repays the principal, with interest at the
   * periodic rate on the outstanding balance, in exactly n payments.
   */
  function CalculateLevelPayment(principal: Money, rate: real, n: int): (r: Result<Money, ValidationError>)
    ensures rate < 0.0 ==> r == Err(RateNegative)
    ensures rate >= 0.0 && n <= 0 ==> r == Err(PaymentCountNotPositive)
    ensures r.Ok? <==> rate >= 0.0 && n > 0
    ensures r.Ok? ==> r.value.currency == principal.currency
    ensures r.Ok? ==> Balance(principal.amount, rate, LevelTotal(r.value.amount), n) == 0.0
  {
    if rate < 0.0 then Err(RateNegative)
    else if n <= 0 then Err(PaymentCountNotPositive)
    else
      AnnuityClears(principal.amount, rate, n);
      Ok(Money(AnnuityPayment(principal.amount, rate, n), principal.currency))
  }

  // Balances

  /** How each period's principal part is set. */
  datatype Installment =
    | LevelTotal(payment: real)       // a constant total payment: principal part = payment - interest
    | LevelPrincipalPart(part: real)  // a constant principal part

  /** The principal part of a period (other than the last) given its interest. */
  function ScheduledPrincipal(inst: Installment, interest: real): real
  {
    match inst
    case LevelTotal(a) => a - interest
    case LevelPrincipalPart(q) => q
  }

  /** One period's interest on an outstanding balance at the periodic rate. */
  function InterestDue(balance: real, rate: real): real
  {
    balance * rate
  }

  /** The outstanding balance after k scheduled periods, starting from b. */
  function Balance(b: real, rate: real, inst: Installment, k: nat): real
    decreases k
  {
    if k == 0 then b else Balance(b - ScheduledPrincipal(inst, InterestDue(b, rate)), rate, inst, k - 1)
  }

  /** One more period: the balance grows by its interest and falls by the payment. */
  lemma {:induction false} BalanceStep(b: real, rate: real, a: real, k: nat)
    ensures Balance(b, rate, LevelTotal(a), k + 1) == Balance(b, rate, LevelTotal(a), k) * (1.0 + rate) - a
    decreases k
  {
    if k > 0 {
      BalanceStep(b - (a - InterestDue(b, rate)), rate, a, k - 1);
    }
  }

  /** With a constant payment a: B_k * r = P * r * X^k - a * (X^k - 1), X = 1 + r. */
  lemma {:induction false} BalanceClosedForm(b: real, rate: real, a: real, k: nat)
    ensures Balance(b, rate, LevelTotal(a), k) * rate
         == b * rate * Pow(1.0 + rate, k) - a * (Pow(1.0 + rate, k) - 1.0)
    decreases k
  {
    if k > 0 {
      var next := b - (a - InterestDue(b, rate));
      BalanceClosedForm(next, rate, a, k - 1);
      var y := Pow(1.0 + rate, k - 1);
      assert Pow(1.0 + rate, k) == (1.0 + rate) * y;
      assert next * rate * y == b * rate * (1.0 + rate) * y - a * rate * y;
      assert a * ((1.0 + rate) * y - 1.0) == a * rate * y + a * (y - 1.0);
    }
  }

  /** At a zero rate a constant payment a reduces the balance by a each period. */
  lemma {:induction false} BalanceAtZeroRate(b: real, a: real, k: nat)
    ensures Balance(b, 0.0, LevelTotal(a), k) == b - k as real * a
    decreases k
  {
    if k > 0 {
      BalanceAtZeroRate(b - a, a, k - 1);
    }
  }

  /**
   * Under the annuity payment the balance after k periods is
   * P * (X^n - X^k) / (X^n - 1): it falls to exactly zero after n periods.
   */
  lemma AnnuityBalance(principal: real, rate: real, n: nat, k: nat)
    requires rate > 0.0 && n >= 1 && k <= n
    ensures Pow(1.0 + rate, n) > 1.0
    ensures Balance(principal, rate, LevelTotal(AnnuityPayment(principal, rate, n)), k) * (Pow(1.0 + rate, n) - 1.0)
         == principal * (Pow(1.0 + rate, n) - Pow(1.0 + rate, k))
  {
    var x := Pow(1.0 + rate, n);
    var xk := Pow(1.0 + rate, k);
    PowStrictlyIncreasing(1.0 + rate, 0, n);
    var a := AnnuityPayment(principal, rate, n);
    assert a * (x - 1.0) == principal * rate * x;
    var bal := Balance(principal, rate, LevelTotal(a), k);
    BalanceClosedForm(principal, rate, a, k);
    assert bal * rate * (x - 1.0) == principal * rate * xk * (x - 1.0) - a * (x - 1.0) * (xk - 1.0);
    assert bal * rate * (x - 1.0) == principal * rate * xk * (x - 1.0) - principal * rate * x * (xk - 1.0);
    assert rate * (bal * (x - 1.0)) == rate * (principal * (x - xk));
  }

  /** The annuity payment repays the principal in exactly n periods, at any non-negative rate. */
  lemma AnnuityClears(principal: real, rate: real, n: nat)
    requires rate >= 0.0 && n >= 1
    ensures Balance(principal, rate, LevelTotal(AnnuityPayment(principal, rate, n)), n) == 0.0
  {
    if rate == 0.0 {
      BalanceAtZeroRate(principal, principal / n as real, n);
    } else {
      AnnuityBalance(principal, rate, n, n);
    }
  }

  /** Under the annuity payment a positive principal stays outstanding until the last payment. */
  lemma AnnuityBalancePositive(principal: real, rate: real, n: nat, k: nat)
    requires rate >= 0.0 && principal > 0.0 && k < n
    ensures Balance(principal, rate, LevelTotal(AnnuityPayment(principal, rate, n)), k) > 0.0
  {
    if rate == 0.0 {
      var a := principal / n as real;
      BalanceAtZeroRate(principal, a, k);
      assert a > 0.0;
      assert k as real * a < n as real * a;
    } else {
      AnnuityBalance(principal, rate, n, k);
      PowStrictlyIncreasing(1.0 + rate, k, n);
      PositiveQuotient(Balance(principal, rate, LevelTotal(AnnuityPayment(principal, rate, n)), k),
                       Pow(1.0 + rate, n) - 1.0, principal * (Pow(1.0 + rate, n) - Pow(1.0 + rate, k)));
    }
  }

  lemma PositiveQuotient(x: real, y: real, z: real)
    requires y > 0.0 && z > 0.0 && x * y == z
    ensures x > 0.0
  {
    assert x == z / y;
  }

  /** At a zero rate the level payment is the principal split evenly: 12,000 over 12 is 1,000. */
  lemma ZeroRatePayment(principal: Money, n: int)
    requires n > 0
    ensures CalculateLevelPayment(principal, 0.0, n) == Ok(principal.DividedBy(n as real))
    ensures CalculateLevelPayment(Money(12000.0, USD), 0.0, 12) == Ok(Money(1000.0, USD))
  {
    assert AnnuityPayment(principal.amount, 0.0, n) == principal.amount / n as real;
    assert AnnuityPayment(12000.0, 0.0, 12) == 1000.0;
  }

  lemma CancelRate(p: real, rate: real, x: real)
    requires rate != 0.0 && x == 1.0 + rate
    ensures p * rate * x / (x - 1.0) == p * x
  {
    assert x - 1.0 == rate;
    assert p * rate * x == (p * x) * rate;
  }

  /** A single payment repays the principal with one period's interest. */
  lemma SinglePayment(principal: Money, rate: real)
    requires rate >= 0.0
    ensures CalculateLevelPayment(principal, rate, 1).Ok?
    ensures CalculateLevelPayment(principal, rate, 1).value.amount == principal.amount * (1.0 + rate)
  {
    assert CalculateLevelPayment(principal, rate, 1) == Ok(Money(AnnuityPayment(principal.amount, rate, 1), principal.currency));
    if rate > 0.0 {
      var p := principal.amount;
      var x := Pow(1.0 + rate, 1);
      assert Pow(1.0 + rate, 0) == 1.0;
      assert x == 1.0 + rate;
      assert x - 1.0 == rate;
      CancelRate(p, rate, x);
      assert AnnuityPayment(p, rate, 1) == p * (1.0 + rate);
    } else {
      assert principal.amount / 1 as real == principal.amount * (1.0 + rate);
    }
  }

  /** n * r * X^n - (X^n - 1) > 0 for X = 1 + r, r > 0, n >= 1. */
  lemma {:induction false} AnnuityGap(rate: real, n: nat)
    requires rate > 0.0 && n >= 1
    ensures n as real * rate * Pow(1.0 + rate, n) > Pow(1.0 + rate, n) - 1.0
  {
    var x := 1.0 + rate;
    if n > 1 {
      AnnuityGap(rate, n - 1);
      PowAtLeastOne(x, n - 1);
      AnnuityGapStep(rate, (n - 1) as real, Pow(x, n - 1));
    } else {
      assert Pow(x, 0) == 1.0;
      assert Pow(x, 1) == x;
      assert rate * x - (x - 1.0) == rate * rate;
    }
  }

  /** Growing n by one adds (n + 1) * r^2 * X^n > 0 to the gap. */
  lemma AnnuityGapStep(rate: real, m: real, y: real)
    requires rate > 0.0 && y >= 1.0 && m * rate * y > y - 1.0
    ensures (m + 1.0) * rate * ((1.0 + rate) * y) > (1.0 + rate) * y - 1.0
  {
    var x := 1.0 + rate;
    assert (m + 1.0) * rate * (x * y) == m * rate * y + (m + 1.0) * (rate * rate) * y + rate * y;
    assert x * y - 1.0 == (y - 1.0) + rate * y;
    assert m * rate * y >= 0.0;
    assert m + 1.0 > 0.0;
    assert (m + 1.0) * (rate * rate) > 0.0;
    assert (m + 1.0) * (rate * rate) * y > 0.0;
  }

  /** With positive interest the level payment exceeds the interest-free split P / n. */
  lemma PaymentExceedsEvenSplit(principal: Money, rate: real, n: int)
    requires rate > 0.0 && n >= 1 && principal.amount > 0.0
    ensures CalculateLevelPayment(principal, rate, n).Ok?
    ensures CalculateLevelPayment(principal, rate, n).value.amount > principal.amount / n as real
  {
    var x := Pow(1.0 + rate, n);
    PowStrictlyIncreasing(1.0 + rate, 0, n);
    AnnuityGap(rate, n);
    AnnuityAboveSplit(principal.amount, rate, n as real, x);
  }

  /** p * r * x / (x - 1) > p / n whenever n * r * x > x - 1 > 0. */
  lemma AnnuityAboveSplit(p: real, rate: real, nn: real, x: real)
    requires p > 0.0 && nn >= 1.0 && x > 1.0 && nn * rate * x > x - 1.0
    ensures p * rate * x / (x - 1.0) > p / nn
  {
    var a := p * rate * x / (x - 1.0);
    assert a == p * (rate * x / (x - 1.0));
    assert rate * x / (x - 1.0) > 1.0 / nn by {
      assert rate * x > (x - 1.0) / nn;
    }
    assert p / nn == p * (1.0 / nn);
  }

  // Payment dates

  /**
   * The k-th payment date: k periods of calendar months after start,
   * then moved to a business day when both a calendar and a convention
   * are given.
   */
  function PaymentDate(start: Date, freq: PaymentFrequency, k: nat,
                       calendar: Option<BusinessDayCalendar>, convention: Option<BusinessDayConvention>): Date
    requires !freq.ZeroCoupon?
  {
    var d := AddMonths(start, k * MonthsPerPeriod(freq));
    if calendar.Some? && convention.Some? then Adjust(calendar.value, convention.value, d) else d
  }

  /**
   * generate_payment_dates(start_date, frequency, num_payments, calendar,
   * convention): exactly max(n, 0) dates, date k being the k-th payment
   * date. A zero-coupon frequency has no payment period.
   */
  method GeneratePaymentDates(start: Date, freq: PaymentFrequency, n: int,
                              calendar: Option<BusinessDayCalendar>, convention: Option<BusinessDayConvention>)
    returns (r: Result<seq<Date>, ValidationError>)
    ensures freq.ZeroCoupon? ==> r == Err(NotPeriodic)
    ensures !freq.ZeroCoupon? ==> r.Ok?
    ensures r.Ok? ==> |r.value| == (if n < 0 then 0 else n)
    ensures r.Ok? ==> forall k :: 0 <= k < |r.value| ==> r.value[k] == PaymentDate(start, freq, k, calendar, convention)
  {
    if freq.ZeroCoupon? {
      return Err(NotPeriodic);
    }
    var count: nat := if n < 0 then 0 else n;
    var dates: seq<Date> := [];
    var i := 0;
    while i < count
      invariant i <= count
      invariant dates == PaymentDates(start, freq, i, calendar, convention)
    {
      PaymentDatesStep(start, freq, i, calendar, convention);
      dates := dates + [PaymentDate(start, freq, i, calendar, convention)];
      i := i + 1;
    }
    return Ok(dates);
  }

  /** The payment dates as a list, for the specifications that build on them. */
  function PaymentDates(start: Date, freq: PaymentFrequency, n: nat,
                        calendar: Option<BusinessDayCalendar>, convention: Option<BusinessDayConvention>): (ds: seq<Date>)
    requires !freq.ZeroCoupon?
    ensures |ds| == n
    ensures forall k :: 0 <= k < n ==> ds[k] == PaymentDate(start, freq, k, calendar, convention)
  {
    seq(n, k requires 0 <= k < n => PaymentDate(start, freq, k, calendar, convention))
  }

  /** One more payment date extends the list by that date. */
  lemma PaymentDatesStep(start: Date, freq: PaymentFrequency, n: nat,
                         calendar: Option<BusinessDayCalendar>, convention: Option<BusinessDayConvention>)
    requires !freq.ZeroCoupon?
    ensures PaymentDates(start, freq, n + 1, calendar, convention)
         == PaymentDates(start, freq, n, calendar, convention) + [PaymentDate(start, freq, n, calendar, convention)]
  {
    var longer := PaymentDates(start, freq, n + 1, calendar, convention);
    var shorter := PaymentDates(start, freq, n, calendar, convention);
    var extended := shorter + [PaymentDate(start, freq, n, calendar, convention)];
    forall k | 0 <= k <= n
      ensures longer[k] == extended[k]
    {
      if k < n {
        assert extended[k] == shorter[k];
      }
    }
  }

  /**
   * Unadjusted payment dates start at the start date, keep its day of the
   * month where the month has it, and strictly increase; adjusted ones are
   * business days on or after the unadjusted date and never decrease.
   */
  lemma PaymentDateProperties(start: Date, freq: PaymentFrequency, i: nat, j: nat,
                              calendar: Option<BusinessDayCalendar>, convention: Option<BusinessDayConvention>)
    requires !freq.ZeroCoupon? && i < j
    ensures PaymentDate(start, freq, 0, None, None) == start
    ensures MonthIndex(PaymentDate(start, freq, i, None, None)) == MonthIndex(start) + i * MonthsPerPeriod(freq)
    ensures Before(PaymentDate(start, freq, i, None, None), PaymentDate(start, freq, j, None, None))
    ensures calendar.Some? && convention.Some? ==>
              calendar.value.IsBusinessDay(PaymentDate(start, freq, i, calendar, convention))
              && OnOrBefore(PaymentDate(start, freq, i, None, None), PaymentDate(start, freq, i, calendar, convention))
              && OnOrBefore(PaymentDate(start, freq, i, calendar, convention), PaymentDate(start, freq, j, calendar, convention))
  {
    AddMonthsZero(start);
    var m := MonthsPerPeriod(freq);
    assert i * m < j * m;
    AddMonthsStrictlyIncreasing(start, i * m, j * m);
    if calendar.Some? && convention.Some? {
      AdjustMonotone(calendar.value, convention.value, AddMonths(start, i * m), AddMonths(start, j * m));
    }
  }

  /** Monthly from 2024-01-15: the second date is 2024-02-15 and the twelfth 2024-12-15. */
  lemma MonthlyDatesExample()
    ensures PaymentDates(Ymd(2024, 1, 15), Monthly, 12, None, None)[1] == Ymd(2024, 2, 15)
    ensures PaymentDates(Ymd(2024, 1, 15), Monthly, 12, None, None)[11] == Ymd(2024, 12, 15)
  {
  }

  /** Quarterly from 2024-01-01: then April, July and October. */
  lemma QuarterlyDatesExample()
    ensures PaymentDate(Ymd(2024, 1, 1), Quarterly, 1, None, None) == Ymd(2024, 4, 1)
    ensures PaymentDate(Ymd(2024, 1, 1), Quarterly, 2, None, None) == Ymd(2024, 7, 1)
    ensures PaymentDate(Ymd(2024, 1, 1), Quarterly, 3, None, None) == Ymd(2024, 10, 1)
  {
  }

  /**
   * The first payment date is the start date itself, adjusted when a
   * calendar and convention are given (a Saturday start, 2024-01-06, pays
   * first on Monday 2024-01-08).
   */
  lemma FirstPaymentDate(start: Date, freq: PaymentFrequency, calendar: BusinessDayCalendar, convention: BusinessDayConvention)
    requires !freq.ZeroCoupon?
    ensures PaymentDate(start, freq, 0, None, None) == start
    ensures PaymentDate(start, freq, 0, Some(calendar), Some(convention)) == Adjust(calendar, convention, start)
  {
    AddMonthsZero(start);
  }

  // Amortizing schedules (level payment and level principal)

  function Flow(d: Date, amount: real, t: CashFlowType): CashFlow
  {
    CashFlow(d, Money(amount, USD), t, "")
  }

  /**
   * The flows of an amortizing schedule from balance b: for each date an
   * INTEREST flow of b * rate and a PRINCIPAL flow of the scheduled part,
   * except that the last date's PRINCIPAL flow is the whole remaining balance.
   */
  function AmortizingRows(b: real, rate: real, inst: Installment, dates: seq<Date>): seq<CashFlow>
    decreases |dates|
  {
    if dates == [] then []
    else
      var interest := InterestDue(b, rate);
      var part := if |dates| == 1 then b else ScheduledPrincipal(inst, interest);
      PeriodFlows(dates[0], interest, part) + AmortizingRows(b - part, rate, inst, dates[1..])
  }

  /** A period's INTEREST flow followed by its PRINCIPAL flow, both on the payment date. */
  function PeriodFlows(d: Date, interest: real, part: real): seq<CashFlow>
  {
    [Flow(d, interest, Interest), Flow(d, part, Principal)]
  }

  /** The rows from date i on: period i's flows, then the rows on the balance it leaves. */
  lemma AmortizingRowsFrom(b: real, rate: real, inst: Installment, dates: seq<Date>, i: nat)
    requires i < |dates|
    ensures var part := if i == |dates| - 1 then b else ScheduledPrincipal(inst, InterestDue(b, rate));
            AmortizingRows(b, rate, inst, dates[i..])
            == PeriodFlows(dates[i], InterestDue(b, rate), part) + AmortizingRows(b - part, rate, inst, dates[i + 1..])
  {
    var rest := dates[i..];
    assert rest[0] == dates[i] && rest[1..] == dates[i + 1..];
  }

  /** Emitting period i's flows moves them from the rows still due to the rows emitted. */
  lemma RowsStep(flows: seq<CashFlow>, b: real, rate: real, inst: Installment, dates: seq<Date>, i: nat)
    requires i < |dates|
    ensures var part := if i == |dates| - 1 then b else ScheduledPrincipal(inst, InterestDue(b, rate));
            flows + AmortizingRows(b, rate, inst, dates[i..])
            == (flows + PeriodFlows(dates[i], InterestDue(b, rate), part)) + AmortizingRows(b - part, rate, inst, dates[i + 1..])
  {
    var part := if i == |dates| - 1 then b else ScheduledPrincipal(inst, InterestDue(b, rate));
    var period := PeriodFlows(dates[i], InterestDue(b, rate), part);
    var tail := AmortizingRows(b - part, rate, inst, dates[i + 1..]);
    AmortizingRowsFrom(b, rate, inst, dates, i);
    assert flows + (period + tail) == (flows + period) + tail;
  }

  /**
   * Flow 2k is period k's interest on the balance after k periods; flow
   * 2k+1 is its principal part, the remaining balance in the last period.
   */
  lemma {:induction false} AmortizingRowsAt(b: real, rate: real, inst: Installment, dates: seq<Date>, k: nat)
    requires k < |dates|
    ensures |AmortizingRows(b, rate, inst, dates)| == 2 * |dates|
    ensures AmortizingRows(b, rate, inst, dates)[2 * k]
         == Flow(dates[k], InterestDue(Balance(b, rate, inst, k), rate), Interest)
    ensures AmortizingRows(b, rate, inst, dates)[2 * k + 1]
         == Flow(dates[k],
                 if k == |dates| - 1 then Balance(b, rate, inst, k)
                 else ScheduledPrincipal(inst, InterestDue(Balance(b, rate, inst, k), rate)),
                 Principal)
    decreases |dates|
  {
    RowsLength(b, rate, inst, dates);
    if k == 0 {
      assert Balance(b, rate, inst, 0) == b;
      RowsAtFirst(b, rate, inst, dates);
    } else {
      var next := b - ScheduledPrincipal(inst, InterestDue(b, rate));
      var rows := AmortizingRows(b, rate, inst, dates);
      var tail := AmortizingRows(next, rate, inst, dates[1..]);
      var balance := Balance(b, rate, inst, k);
      AmortizingRowsAt(next, rate, inst, dates[1..], k - 1);
      RowsAtShift(b, rate, inst, dates, k);
      BalanceShift(b, rate, inst, k);
      assert dates[1..][k - 1] == dates[k];
      assert rows[2 * k] == tail[2 * (k - 1)] == Flow(dates[k], InterestDue(balance, rate), Interest);
    }
  }

  /** After the first period, the balance evolves from the balance that period leaves. */
  lemma BalanceShift(b: real, rate: real, inst: Installment, k: nat)
    requires k > 0
    ensures Balance(b, rate, inst, k) == Balance(b - ScheduledPrincipal(inst, InterestDue(b, rate)), rate, inst, k - 1)
  {
  }

  lemma {:induction false} RowsLength(b: real, rate: real, inst: Installment, dates: seq<Date>)
    ensures |AmortizingRows(b, rate, inst, dates)| == 2 * |dates|
    decreases |dates|
  {
    if dates != [] {
      var part := if |dates| == 1 then b else ScheduledPrincipal(inst, InterestDue(b, rate));
      RowsLength(b - part, rate, inst, dates[1..]);
    }
  }

  /** The first period's two flows head the rows. */
  lemma RowsAtFirst(b: real, rate: real, inst: Installment, dates: seq<Date>)
    requires dates != []
    ensures |AmortizingRows(b, rate, inst, dates)| >= 2
    ensures AmortizingRows(b, rate, inst, dates)[0] == Flow(dates[0], InterestDue(b, rate), Interest)
    ensures AmortizingRows(b, rate, inst, dates)[1]
         == Flow(dates[0], if |dates| == 1 then b else ScheduledPrincipal(inst, InterestDue(b, rate)), Principal)
  {
    if |dates| == 1 {
      RowsLast(b, rate, inst, dates);
    } else {
      RowsSplit(b, rate, inst, dates);
    }
  }

  /** Past the first period, the rows are those of the balance the first period leaves. */
  lemma RowsAtShift(b: real, rate: real, inst: Installment, dates: seq<Date>, k: nat)
    requires 0 < k < |dates|
    ensures var tail := AmortizingRows(b - ScheduledPrincipal(inst, InterestDue(b, rate)), rate, inst, dates[1..]);
            var rows := AmortizingRows(b, rate, inst, dates);
            |tail| == 2 * (|dates| - 1) && |rows| == 2 * |dates|
            && rows[2 * k] == tail[2 * (k - 1)] && rows[2 * k + 1] == tail[2 * (k - 1) + 1]
  {
    var part := ScheduledPrincipal(inst, InterestDue(b, rate));
    var tail := AmortizingRows(b - part, rate, inst, dates[1..]);
    var rows := AmortizingRows(b, rate, inst, dates);
    RowsSplit(b, rate, inst, dates);
    RowsLength(b - part, rate, inst, dates[1..]);
    assert rows == PeriodFlows(dates[0], InterestDue(b, rate), part) + tail;
  }

  /** The principal flows of an amortizing schedule repay the opening balance exactly. */
  lemma {:induction false} AmortizingRowsRepay(b: real, rate: real, inst: Installment, dates: seq<Date>)
    requires dates != []
    ensures Sum(Filter(AmortizingRows(b, rate, inst, dates), RepaysPrincipal)) == b
    decreases |dates|
  {
    var part := if |dates| == 1 then b else ScheduledPrincipal(inst, InterestDue(b, rate));
    var tail := AmortizingRows(b - part, rate, inst, dates[1..]);
    var whole := AmortizingRows(b, rate, inst, dates);
    AmortizingRowsFrom(b, rate, inst, dates, 0);
    assert dates[0..] == dates;
    assert whole == PeriodFlows(dates[0], InterestDue(b, rate), part) + tail;
    PeriodRepays(dates[0], InterestDue(b, rate), part, tail);
    var rest := Sum(Filter(tail, RepaysPrincipal));
    assert Sum(Filter(whole, RepaysPrincipal)) == part + rest;
    if |dates| == 1 {
      assert tail == [];
      assert rest == 0.0;
    } else {
      AmortizingRowsRepay(b - part, rate, inst, dates[1..]);
      assert rest == b - part;
    }
  }

  /** One period's two flows put exactly its principal part in front of the rest's principal view. */
  lemma PeriodRepays(d: Date, interest: real, part: real, tail: seq<CashFlow>)
    ensures Sum(Filter(PeriodFlows(d, interest, part) + tail, RepaysPrincipal))
         == part + Sum(Filter(tail, RepaysPrincipal))
  {
    var head := PeriodFlows(d, interest, part);
    FilterAppend(head, tail, RepaysPrincipal);
    assert head[1..] == [head[1]];
    assert [head[1]][1..] == [];
    assert Filter(head, RepaysPrincipal) == [head[1]];
    SumAppend([head[1]], Filter(tail, RepaysPrincipal));
  }

  /** Flow i of an amortizing schedule falls on payment date i / 2. */
  lemma AmortizingRowDates(b: real, rate: real, inst: Installment, dates: seq<Date>)
    ensures |AmortizingRows(b, rate, inst, dates)| == 2 * |dates|
    ensures forall i :: 0 <= i < 2 * |dates| ==> AmortizingRows(b, rate, inst, dates)[i].date == dates[i / 2]
  {
    if dates != [] {
      AmortizingRowsAt(b, rate, inst, dates, 0);
    }
    forall i | 0 <= i < 2 * |dates|
      ensures AmortizingRows(b, rate, inst, dates)[i].date == dates[i / 2]
    {
      AmortizingRowsAt(b, rate, inst, dates, i / 2);
    }
  }

  /** One period's two flows put exactly its interest in front of the rest's interest view. */
  lemma PeriodInterest(d: Date, interest: real, part: real, tail: seq<CashFlow>)
    ensures Sum(Filter(PeriodFlows(d, interest, part) + tail, OfType(Interest)))
         == interest + Sum(Filter(tail, OfType(Interest)))
  {
    var head := PeriodFlows(d, interest, part);
    FilterAppend(head, tail, OfType(Interest));
    assert head[1..] == [head[1]];
    assert [head[1]][1..] == [];
    assert Filter([head[1]], OfType(Interest)) == [];
    assert Filter(head, OfType(Interest)) == [head[0]];
    SumAppend([head[0]], Filter(tail, OfType(Interest)));
  }

  lemma InterestOfPeriodThenRest(rows: seq<CashFlow>, d: Date, interest: real, part: real, tail: seq<CashFlow>)
    requires rows == PeriodFlows(d, interest, part) + tail
    ensures Sum(Filter(rows, OfType(Interest))) == interest + Sum(Filter(tail, OfType(Interest)))
  {
    PeriodInterest(d, interest, part, tail);
  }

  /** Before the last date, the rows are this period's flows followed by the rows on the reduced balance. */
  lemma RowsSplit(b: real, rate: real, inst: Installment, dates: seq<Date>)
    requires |dates| > 1
    ensures AmortizingRows(b, rate, inst, dates)
         == PeriodFlows(dates[0], InterestDue(b, rate), ScheduledPrincipal(inst, InterestDue(b, rate)))
          + AmortizingRows(b - ScheduledPrincipal(inst, InterestDue(b, rate)), rate, inst, dates[1..])
  {
  }

  /** On the last date, the rows are that period's interest and the whole balance. */
  lemma RowsLast(b: real, rate: real, inst: Installment, dates: seq<Date>)
    requires |dates| == 1
    ensures AmortizingRows(b, rate, inst, dates) == PeriodFlows(dates[0], InterestDue(b, rate), b)
  {
    assert dates[1..] == [];
    assert AmortizingRows(b - b, rate, inst, dates[1..]) == [];
  }

  /** At a zero rate an amortizing schedule charges no interest. */
  lemma {:induction false} AmortizingInterestFree(b: real, rate: real, inst: Installment, dates: seq<Date>)
    requires rate == 0.0
    ensures Sum(Filter(AmortizingRows(b, rate, inst, dates), OfType(Interest))) == 0.0
    decreases |dates|
  {
    var interest := InterestDue(b, rate);
    var rows := AmortizingRows(b, rate, inst, dates);
    assert interest == 0.0;
    if dates == [] {
      assert rows == [];
      assert Filter(rows, OfType(Interest)) == [];
    } else if |dates| == 1 {
      LastPeriodInterest(b, rate, inst, dates);
    } else {
      var next := b - ScheduledPrincipal(inst, interest);
      var tail := AmortizingRows(next, rate, inst, dates[1..]);
      EarlierPeriodInterest(b, rate, inst, dates);
      assert Sum(Filter(rows, OfType(Interest))) == interest + Sum(Filter(tail, OfType(Interest)));
      AmortizingInterestFree(next, rate, inst, dates[1..]);
    }
  }

  /** The balance is still outstanding at the start of each of the first n periods. */
  predicate OutstandingThroughout(b: real, rate: real, inst: Installment, n: nat)
  {
    forall k :: 0 <= k < n ==> Balance(b, rate, inst, k) > 0.0
  }

  /** Outstanding for n + 1 periods from b is outstanding for n periods from the balance after one. */
  lemma OutstandingAfterFirst(b: real, rate: real, inst: Installment, n: nat)
    requires OutstandingThroughout(b, rate, inst, n + 1)
    ensures OutstandingThroughout(b - ScheduledPrincipal(inst, InterestDue(b, rate)), rate, inst, n)
  {
    var next := b - ScheduledPrincipal(inst, InterestDue(b, rate));
    forall k | 0 <= k < n
      ensures Balance(next, rate, inst, k) > 0.0
    {
      assert Balance(b, rate, inst, k + 1) == Balance(next, rate, inst, k);
    }
  }

  lemma PositiveInterest(b: real, rate: real)
    requires b > 0.0 && rate > 0.0
    ensures InterestDue(b, rate) > 0.0
  {
  }

  /** At a positive rate, a schedule whose balance stays outstanding charges positive interest. */
  lemma {:induction false} AmortizingInterestPositive(b: real, rate: real, inst: Installment, dates: seq<Date>)
    requires rate > 0.0 && dates != [] && OutstandingThroughout(b, rate, inst, |dates|)
    ensures Sum(Filter(AmortizingRows(b, rate, inst, dates), OfType(Interest))) > 0.0
    decreases |dates|
  {
    FirstBalanceOutstanding(b, rate, inst, |dates|);
    PositiveInterest(b, rate);
    if |dates| == 1 {
      LastPeriodInterest(b, rate, inst, dates);
    } else {
      var next := b - ScheduledPrincipal(inst, InterestDue(b, rate));
      OutstandingAfterFirst(b, rate, inst, |dates| - 1);
      AmortizingInterestPositive(next, rate, inst, dates[1..]);
      EarlierPeriodInterest(b, rate, inst, dates);
    }
  }

  lemma FirstBalanceOutstanding(b: real, rate: real, inst: Installment, n: nat)
    requires n > 0 && OutstandingThroughout(b, rate, inst, n)
    ensures b > 0.0
  {
    assert Balance(b, rate, inst, 0) == b;
  }

  /** A one-period schedule charges one period's interest. */
  lemma LastPeriodInterest(b: real, rate: real, inst: Installment, dates: seq<Date>)
    requires |dates| == 1
    ensures Sum(Filter(AmortizingRows(b, rate, inst, dates), OfType(Interest))) == InterestDue(b, rate)
  {
    var period := PeriodFlows(dates[0], InterestDue(b, rate), b);
    RowsLast(b, rate, inst, dates);
    PeriodInterest(dates[0], InterestDue(b, rate), b, []);
    assert period + [] == period;
  }

  /** Before the last period, the interest total is this period's interest plus the rest. */
  lemma EarlierPeriodInterest(b: real, rate: real, inst: Installment, dates: seq<Date>)
    requires |dates| > 1
    ensures Sum(Filter(AmortizingRows(b, rate, inst, dates), OfType(Interest)))
         == InterestDue(b, rate)
          + Sum(Filter(AmortizingRows(b - ScheduledPrincipal(inst, InterestDue(b, rate)), rate, inst, dates[1..]), OfType(Interest)))
  {
    var interest := InterestDue(b, rate);
    var part := ScheduledPrincipal(inst, interest);
    var rows := AmortizingRows(b, rate, inst, dates);
    var tail := AmortizingRows(b - part, rate, inst, dates[1..]);
    RowsSplit(b, rate, inst, dates);
    InterestOfPeriodThenRest(rows, dates[0], interest, part, tail);
  }

  /**
   * generate_level_payment_schedule(principal, periodic_rate, num_payments,
   * payment_dates, payment_amount).
   */
  method LevelPaymentSchedule(principal: Money, rate: real, n: int, dates: seq<Date>, payment: Money)
    returns (r: Result<CashFlowSchedule, ValidationError>)
    ensures |dates| != n ==> r == Err(DateCountMismatch)
    ensures |dates| == n ==> r == Ok(CashFlowSchedule(AmortizingRows(principal.amount, rate, LevelTotal(payment.amount), dates)))
  {
    if |dates| != n {
      return Err(DateCountMismatch);
    }
    var flows: seq<CashFlow> := [];
    var balance := principal;
    var i := 0;
    while i < n
      invariant 0 <= i <= n
      invariant flows + AmortizingRows(balance.amount, rate, LevelTotal(payment.amount), dates[i..])
             == AmortizingRows(principal.amount, rate, LevelTotal(payment.amount), dates)
    {
      var interest := balance.Times(rate);
      assert interest == Money(InterestDue(balance.amount, rate), USD);
      var principalPart := if i == n - 1 then balance else payment.Minus(interest);
      RowsStep(flows, balance.amount, rate, LevelTotal(payment.amount), dates, i);
      flows := flows + PeriodFlows(dates[i], interest.amount, principalPart.amount);
      balance := balance.Minus(principalPart);
      i := i + 1;
    }
    assert AmortizingRows(balance.amount, rate, LevelTotal(payment.amount), dates[n..]) == [];
    assert flows + [] == flows;
    return Ok(CashFlowSchedule(flows));
  }

  /**
   * generate_level_principal_schedule(principal, periodic_rate,
   * num_payments, payment_dates): principal / n each period.
   */
  method LevelPrincipalSchedule(principal: Money, rate: real, n: int, dates: seq<Date>)
    returns (r: Result<CashFlowSchedule, ValidationError>)
    ensures |dates| != n ==> r == Err(DateCountMismatch)
    ensures |dates| == n && n == 0 ==> r == Err(ZeroDivision)
    ensures |dates| == n && n > 0 ==>
              r == Ok(CashFlowSchedule(AmortizingRows(principal.amount, rate, LevelPrincipalPart(principal.amount / n as real), dates)))
  {
    if |dates| != n {
      return Err(DateCountMismatch);
    }
    if n == 0 {
      return Err(ZeroDivision);
    }
    var perPeriod := principal.DividedBy(n as real);
    var flows: seq<CashFlow> := [];
    var balance := principal;
    var i := 0;
    while i < n
      invariant 0 <= i <= n
      invariant flows + AmortizingRows(balance.amount, rate, LevelPrincipalPart(perPeriod.amount), dates[i..])
             == AmortizingRows(principal.amount, rate, LevelPrincipalPart(perPeriod.amount), dates)
    {
      var interest := balance.Times(rate);
      assert interest == Money(InterestDue(balance.amount, rate), USD);
      var principalPart := if i == n - 1 then balance else perPeriod;
      RowsStep(flows, balance.amount, rate, LevelPrincipalPart(perPeriod.amount), dates, i);
      flows := flows + PeriodFlows(dates[i], interest.amount, principalPart.amount);
      balance := balance.Minus(principalPart);
      i := i + 1;
    }
    assert AmortizingRows(balance.amount, rate, LevelPrincipalPart(perPeriod.amount), dates[n..]) == [];
    assert flows + [] == flows;
    return Ok(CashFlowSchedule(flows));
  }

  /**
   * Under the annuity payment every period pays the same total, the last
   * included: the final plug of the remaining balance is exactly the
   * scheduled principal part. Interest is never negative.
   */
  lemma LevelPaymentIsLevel(principal: real, rate: real, dates: seq<Date>, k: nat)
    requires rate >= 0.0 && principal > 0.0 && k < |dates|
    ensures var a := AnnuityPayment(principal, rate, |dates|);
            var rows := AmortizingRows(principal, rate, LevelTotal(a), dates);
            |rows| == 2 * |dates|
            && rows[2 * k].amount.amount + rows[2 * k + 1].amount.amount == a
            && rows[2 * k].amount.amount >= 0.0
  {
    var n := |dates|;
    var a := AnnuityPayment(principal, rate, n);
    var bal := Balance(principal, rate, LevelTotal(a), k);
    AmortizingRowsAt(principal, rate, LevelTotal(a), dates, k);
    AnnuityBalancePositive(principal, rate, n, k);
    assert InterestDue(bal, rate) >= 0.0;
    if k == n - 1 {
      BalanceStep(principal, rate, a, k);
      AnnuityClears(principal, rate, n);
    }
  }

  /**
   * With any payment amount, the first period charges interest on the full
   * principal and applies the rest of the payment to principal; the
   * interest view and the principal view each start with that period's flow.
   */
  lemma FirstPeriodSplit(principal: real, rate: real, payment: real, dates: seq<Date>)
    requires |dates| >= 2
    ensures var s := CashFlowSchedule(AmortizingRows(principal, rate, LevelTotal(payment), dates));
            s.GetInterestFlows().flows[0] == Flow(dates[0], principal * rate, Interest)
            && s.GetPrincipalFlows().flows[0] == Flow(dates[0], payment - principal * rate, Principal)
  {
    var interest := InterestDue(principal, rate);
    var part := payment - interest;
    var tail := AmortizingRows(principal - part, rate, LevelTotal(payment), dates[1..]);
    assert AmortizingRows(principal, rate, LevelTotal(payment), dates) == PeriodFlows(dates[0], interest, part) + tail;
    FilterAppend(PeriodFlows(dates[0], interest, part), tail, OfType(Interest));
    FilterAppend(PeriodFlows(dates[0], interest, part), tail, RepaysPrincipal);
  }

  /**
   * A level-principal schedule repays principal / n in every period, the
   * last included, on a balance that falls by that much each period.
   */
  lemma LevelPrincipalIsLevel(principal: real, rate: real, dates: seq<Date>, k: nat)
    requires k < |dates|
    ensures var q := principal / |dates| as real;
            var rows := AmortizingRows(principal, rate, LevelPrincipalPart(q), dates);
            |rows| == 2 * |dates|
            && rows[2 * k + 1].amount.amount == q
            && rows[2 * k].amount.amount == InterestDue(principal - k as real * q, rate)
  {
    var n := |dates|;
    var q := principal / n as real;
    AmortizingRowsAt(principal, rate, LevelPrincipalPart(q), dates, k);
    LevelPrincipalBalance(principal, rate, q, k);
    if k == n - 1 {
      assert principal - (n - 1) as real * q == q;
    }
  }

  lemma {:induction false} LevelPrincipalBalance(b: real, rate: real, q: real, k: nat)
    ensures Balance(b, rate, LevelPrincipalPart(q), k) == b - k as real * q
    decreases k
  {
    if k > 0 {
      LevelPrincipalBalance(b - q, rate, q, k - 1);
    }
  }

  // Interest-only and bullet schedules

  /** One INTEREST flow of the interest due on the principal per date. */
  function InterestOnlyRows(principal: real, rate: real, dates: seq<Date>): (rows: seq<CashFlow>)
    ensures |rows| == |dates|
  {
    seq(|dates|, k requires 0 <= k < |dates| => Flow(dates[k], InterestDue(principal, rate), Interest))
  }

  /** The interest-only INTEREST flows add up to n periods of interest on the principal. */
  lemma {:induction false} InterestOnlyTotal(principal: real, rate: real, dates: seq<Date>)
    ensures Sum(InterestOnlyRows(principal, rate, dates)) == |dates| as real * InterestDue(principal, rate)
    decreases |dates|
  {
    if dates != [] {
      var rows := InterestOnlyRows(principal, rate, dates);
      var x := InterestDue(principal, rate);
      InterestOnlyTotal(principal, rate, dates[1..]);
      assert rows[1..] == InterestOnlyRows(principal, rate, dates[1..]);
      assert (|dates| - 1) as real * x + x == |dates| as real * x;
    }
  }

  /**
   * generate_interest_only_schedule(principal, periodic_rate, num_payments,
   * payment_dates): interest each period, then the whole principal as a
   * BALLOON on the last date.
   */
  method InterestOnlySchedule(principal: Money, rate: real, n: int, dates: seq<Date>)
    returns (r: Result<CashFlowSchedule, ValidationError>)
    ensures n < 1 ==> r == Err(NoPayments)
    ensures n >= 1 && |dates| != n ==> r == Err(DateCountMismatch)
    ensures n >= 1 && |dates| == n ==>
              r == Ok(CashFlowSchedule(InterestOnlyRows(principal.amount, rate, dates)
                                       + [Flow(dates[n - 1], principal.amount, Balloon)]))
  {
    if n < 1 {
      return Err(NoPayments);
    }
    if |dates| != n {
      return Err(DateCountMismatch);
    }
    var interest := principal.Times(rate);
    assert interest == Money(InterestDue(principal.amount, rate), USD);
    var flows: seq<CashFlow> := [];
    var i := 0;
    while i < n
      invariant 0 <= i <= n
      invariant flows == InterestOnlyRows(principal.amount, rate, dates[..i])
    {
      assert dates[..i + 1][..i] == dates[..i];
      flows := flows + [CashFlow(dates[i], interest, Interest, "")];
      i := i + 1;
    }
    assert dates[..n] == dates;
    flows := flows + [CashFlow(dates[n - 1], principal, Balloon, "")];
    return Ok(CashFlowSchedule(flows));
  }

  /**
   * An interest-only schedule has n + 1 flows: n INTEREST flows of
   * principal * rate, then a single BALLOON of the principal, which is the
   * only flow that repays principal.
   */
  lemma InterestOnlyShape(principal: real, rate: real, dates: seq<Date>)
    requires dates != []
    ensures var flows := InterestOnlyRows(principal, rate, dates) + [Flow(dates[|dates| - 1], principal, Balloon)];
            |flows| == |dates| + 1
            && Filter(flows, OfType(Interest)) == InterestOnlyRows(principal, rate, dates)
            && Filter(flows, OfType(Balloon)) == [Flow(dates[|dates| - 1], principal, Balloon)]
            && Sum(Filter(flows, RepaysPrincipal)) == principal
  {
    var rows := InterestOnlyRows(principal, rate, dates);
    var balloon := Flow(dates[|dates| - 1], principal, Balloon);
    FilterAppend(rows, [balloon], OfType(Interest));
    FilterAppend(rows, [balloon], OfType(Balloon));
    FilterAppend(rows, [balloon], RepaysPrincipal);
    InterestFlowsOnly(rows, principal, rate, dates);
    assert [balloon][1..] == [];
    SumAppend([], [balloon]);
  }

  lemma {:induction false} InterestFlowsOnly(rows: seq<CashFlow>, principal: real, rate: real, dates: seq<Date>)
    requires forall k :: 0 <= k < |rows| ==> rows[k].flowType == Interest
    ensures Filter(rows, OfType(Interest)) == rows
    ensures Filter(rows, OfType(Balloon)) == []
    ensures Filter(rows, RepaysPrincipal) == []
  {
    if rows != [] {
      InterestFlowsOnly(rows[1..], principal, rate, dates);
      assert rows == [rows[0]] + rows[1..];
    }
  }

  /** generate_bullet_schedule(principal, maturity_date). */
  function BulletSchedule(principal: Money, maturity: Date): (s: CashFlowSchedule)
    ensures |s.flows| == 1
    ensures Sum(Filter(s.flows, RepaysPrincipal)) == principal.amount
    ensures Sum(s.flows) == principal.amount
    ensures s.flows[0].flowType == Balloon && s.flows[0].date == maturity
  {
    var s := CashFlowSchedule([CashFlow(maturity, principal, Balloon, "")]);
    assert s.flows[1..] == [];
    s
  }
}
