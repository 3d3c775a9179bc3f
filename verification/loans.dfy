/**
 * The Loan entity: validated once at construction, then every derived
 * value (periodic rate, payment count, payment, maturity, schedule and
 * totals) is a function of its fields. Schedule generation dispatches on
 * the amortization type to the matching builder.
 */
module Loans {
  import opened Wrappers
  import opened Errors
  import opened Dates
  import opened Monetary
  import Rates
  import opened Periods
  import opened Scheduling
  import opened CashFlows
  import opened Amortization

  datatype AmortizationType = LevelPayment | LevelPrincipal | InterestOnly | Bullet

  datatype Loan = Loan(
    principal: Money,
    annualRate: Rates.InterestRate,
    term: Period,
    frequency: PaymentFrequency,
    amortization: AmortizationType,
    origination: Date,
    firstPayment: Option<Date>)

  /** The construction invariants every Loan satisfies. */
  predicate ValidLoan(loan: Loan)
  {
    && loan.principal.amount > 0.0
    && loan.annualRate.rate >= 0.0
    && (loan.frequency.ZeroCoupon? ==> loan.amortization.Bullet?)
    && (loan.firstPayment.Some? ==> Before(loan.origination, loan.firstPayment.value))
  }

  /**
   * Loan(...): checks, in order and stopping at the first failure, a
   * positive principal, a non-negative rate, a zero-coupon frequency only
   * with bullet amortization, and a first payment strictly after origination.
   */
  function NewLoan(principal: Money, annualRate: Rates.InterestRate, term: Period, frequency: PaymentFrequency,
                   amortization: AmortizationType, origination: Date, firstPayment: Option<Date>)
    : (r: Result<Loan, ValidationError>)
    ensures r.Ok? <==> ValidLoan(Loan(principal, annualRate, term, frequency, amortization, origination, firstPayment))
    ensures r.Ok? ==> r.value == Loan(principal, annualRate, term, frequency, amortization, origination, firstPayment)
    ensures principal.amount <= 0.0 ==> r == Err(PrincipalNotPositive)
    ensures principal.amount > 0.0 && annualRate.rate < 0.0 ==> r == Err(RateNegative)
    ensures principal.amount > 0.0 && annualRate.rate >= 0.0 && frequency.ZeroCoupon? && !amortization.Bullet?
            ==> r == Err(ZeroCouponNeedsBullet)
    ensures principal.amount > 0.0 && annualRate.rate >= 0.0 && (frequency.ZeroCoupon? ==> amortization.Bullet?)
            && firstPayment.Some? && !Before(origination, firstPayment.value)
            ==> r == Err(FirstPaymentNotAfterOrigination)
  {
    if principal.amount <= 0.0 then Err(PrincipalNotPositive)
    else if annualRate.rate < 0.0 then Err(RateNegative)
    else if frequency.ZeroCoupon? && !amortization.Bullet? then Err(ZeroCouponNeedsBullet)
    else if firstPayment.Some? && !Before(origination, firstPayment.value) then Err(FirstPaymentNotAfterOrigination)
    else Ok(Loan(principal, annualRate, term, frequency, amortization, origination, firstPayment))
  }

  /** Loan.mortgage(principal, annual_rate, term_years, origination_date). */
  function Mortgage(principal: Money, annualRate: Rates.InterestRate, termYears: nat, origination: Date): Result<Loan, ValidationError>
  {
    NewLoan(principal, annualRate, Period(termYears, Years), Monthly, LevelPayment, origination, None)
  }

  /** Loan.auto_loan(principal, annual_rate, term_months, origination_date). */
  function AutoLoan(principal: Money, annualRate: Rates.InterestRate, termMonths: nat, origination: Date): Result<Loan, ValidationError>
  {
    NewLoan(principal, annualRate, Period(termMonths, Months), Monthly, LevelPayment, origination, None)
  }

  /** Loan.personal_loan(principal, annual_rate, term_months, origination_date). */
  function PersonalLoan(principal: Money, annualRate: Rates.InterestRate, termMonths: nat, origination: Date): Result<Loan, ValidationError>
  {
    NewLoan(principal, annualRate, Period(termMonths, Months), Monthly, LevelPayment, origination, None)
  }

  /**
   * Loan.from_float(principal, annual_rate_percent, term_years, origination_date):
   * a monthly level-payment loan from plain numbers (exact reals here), the
   * rate given in percent.
   */
  function FromFloat(principal: real, annualRatePercent: real, termYears: nat, origination: Date): Result<Loan, ValidationError>
  {
    NewLoan(Money(principal, USD), Rates.InterestRate.FromPercent(annualRatePercent, Rates.DefaultCompounding),
            Period(termYears, Years), Monthly, LevelPayment, origination, None)
  }

  /** The presets are monthly level-payment loans with the given term, valid exactly when principal and rate are. */
  lemma PresetsAreMonthlyLevelPayment(principal: Money, annualRate: Rates.InterestRate, years: nat, months: nat, origination: Date)
    ensures Mortgage(principal, annualRate, years, origination).Ok? <==> principal.amount > 0.0 && annualRate.rate >= 0.0
    ensures Mortgage(principal, annualRate, years, origination).Ok? ==>
              var loan := Mortgage(principal, annualRate, years, origination).value;
              loan.frequency == Monthly && loan.amortization == LevelPayment && loan.term == Period(years, Years)
    ensures AutoLoan(principal, annualRate, months, origination).Ok? ==>
              var loan := AutoLoan(principal, annualRate, months, origination).value;
              loan.frequency == Monthly && loan.amortization == LevelPayment && loan.term == Period(months, Months)
    ensures PersonalLoan(principal, annualRate, months, origination) == AutoLoan(principal, annualRate, months, origination)
  {
  }

  /** from_float keeps the principal and reads the rate in percent: 5.5 is the fraction 0.055. */
  lemma FromFloatExample(origination: Date)
    ensures FromFloat(50000.0, 5.5, 15, origination).Ok?
    ensures var loan := FromFloat(50000.0, 5.5, 15, origination).value;
            loan.principal == Money(50000.0, USD) && loan.annualRate.rate == 0.055
            && loan.annualRate.ToPercent() == 5.5 && loan.term == Period(15, Years)
            && loan.frequency == Monthly && loan.amortization == LevelPayment
  {
  }

  /** The construction failures the library documents. */
  lemma ValidationExamples(rate: Rates.InterestRate, term: Period)
    requires rate.rate >= 0.0
    ensures NewLoan(Money.Zero(), rate, term, Monthly, LevelPayment, Ymd(2024, 1, 1), None) == Err(PrincipalNotPositive)
    ensures NewLoan(Money(-1000.0, USD), rate, term, Monthly, LevelPayment, Ymd(2024, 1, 1), None) == Err(PrincipalNotPositive)
    ensures NewLoan(Money(100000.0, USD), Rates.InterestRate(-0.01, Rates.Monthly), term, Monthly, LevelPayment, Ymd(2024, 1, 1), None)
         == Err(RateNegative)
    ensures NewLoan(Money(100000.0, USD), rate, term, ZeroCoupon, LevelPayment, Ymd(2024, 1, 1), None) == Err(ZeroCouponNeedsBullet)
    ensures NewLoan(Money(100000.0, USD), rate, term, Monthly, LevelPayment, Ymd(2024, 1, 1), Some(Ymd(2023, 12, 31)))
         == Err(FirstPaymentNotAfterOrigination)
  {
  }

  /** calculate_periodic_rate(): the annual rate spread evenly over the year's payments. */
  function PeriodicRate(loan: Loan): (r: Result<real, ValidationError>)
    requires ValidLoan(loan)
    ensures r.Err? <==> loan.frequency.ZeroCoupon?
    ensures r.Err? ==> r.error == NotPeriodic
    ensures r.Ok? ==> r.value * PaymentsPerYear(loan.frequency) as real == loan.annualRate.rate
    ensures r.Ok? ==> r.value >= 0.0
  {
    if loan.frequency.ZeroCoupon? then Err(NotPeriodic)
    else Ok(loan.annualRate.rate / PaymentsPerYear(loan.frequency) as real)
  }

  /** The term in calendar months; a term in days or weeks has none. */
  function TermMonths(term: Period): (m: Option<nat>)
    ensures m.Some? <==> term.unit.Months? || term.unit.Years?
    ensures term.unit.Years? ==> m == Some(12 * term.length)
  {
    match term.unit
    case Months => Some(term.length)
    case Years => Some(12 * term.length)
    case Days => None
    case Weeks => None
  }

  /**
   * calculate_number_of_payments(): the whole payment periods in the term.
   * A monthly loan takes a term in months as its count directly.
   */
  function NumberOfPayments(loan: Loan): (r: Result<nat, ValidationError>)
    requires ValidLoan(loan)
    ensures loan.frequency.ZeroCoupon? ==> r == Err(NotPeriodic)
    ensures !loan.frequency.ZeroCoupon? && TermMonths(loan.term).None? ==> r == Err(TermNotInMonths)
    ensures r.Ok? <==> !loan.frequency.ZeroCoupon? && TermMonths(loan.term).Some?
    ensures r.Ok? ==> r.value * 12 <= TermMonths(loan.term).value * PaymentsPerYear(loan.frequency)
                      < (r.value + 1) * 12
    ensures r.Ok? && loan.frequency.Monthly? ==> r.value == TermMonths(loan.term).value
  {
    if loan.frequency.ZeroCoupon? then Err(NotPeriodic)
    else match TermMonths(loan.term)
      case None => Err(TermNotInMonths)
      case Some(months) => Ok(months * PaymentsPerYear(loan.frequency) / 12)
  }

  /** A 30-year monthly loan has 360 payments; a 5-year one 60; a 1-month one a single payment. */
  lemma NumberOfPaymentsExamples(loan: Loan)
    requires ValidLoan(loan) && loan.frequency == Monthly
    ensures loan.term == Period(30, Years) ==> NumberOfPayments(loan) == Ok(360)
    ensures loan.term == Period(5, Years) ==> NumberOfPayments(loan) == Ok(60)
    ensures loan.term == Period(1, Months) ==> NumberOfPayments(loan) == Ok(1)
    ensures PeriodicRate(loan) == Ok(loan.annualRate.rate / 12.0)
  {
  }

  /**
   * calculate_payment(): the level payment over the loan's payment count
   * at its periodic rate; only a level-payment loan has one.
   */
  function CalculatePayment(loan: Loan): (r: Result<Money, ValidationError>)
    requires ValidLoan(loan)
    ensures !loan.amortization.LevelPayment? ==> r == Err(PaymentNotLevel)
    ensures r.Ok? ==> NumberOfPayments(loan).Ok? && NumberOfPayments(loan).value > 0
    ensures r.Ok? ==> Balance(loan.principal.amount, PeriodicRate(loan).value, LevelTotal(r.value.amount),
                              NumberOfPayments(loan).value) == 0.0
    ensures loan.amortization.LevelPayment? && NumberOfPayments(loan).Ok? && NumberOfPayments(loan).value > 0 ==> r.Ok?
  {
    if !loan.amortization.LevelPayment? then Err(PaymentNotLevel)
    else match NumberOfPayments(loan)
      case Err(e) => Err(e)
      case Ok(n) => CalculateLevelPayment(loan.principal, PeriodicRate(loan).value, n)
  }

  /** A zero-rate level-payment loan pays the principal in equal parts. */
  lemma ZeroRatePayment(loan: Loan)
    requires ValidLoan(loan) && loan.amortization.LevelPayment? && loan.annualRate.rate == 0.0
    requires NumberOfPayments(loan).Ok? && NumberOfPayments(loan).value > 0
    ensures CalculatePayment(loan) == Ok(loan.principal.DividedBy(NumberOfPayments(loan).value as real))
  {
  }

  /** The first payment date: the one given, else one payment period after origination. */
  function FirstPaymentDate(loan: Loan): (d: Date)
    requires ValidLoan(loan) && !loan.frequency.ZeroCoupon?
    ensures Before(loan.origination, d)
    ensures loan.firstPayment.Some? ==> d == loan.firstPayment.value
  {
    if loan.firstPayment.Some? then loan.firstPayment.value
    else
      AddMonthsZero(loan.origination);
      AddMonthsStrictlyIncreasing(loan.origination, 0, MonthsPerPeriod(loan.frequency));
      AddMonths(loan.origination, MonthsPerPeriod(loan.frequency))
  }

  /** The payment dates of a periodic loan: n periods from the first payment, unadjusted. */
  function LoanPaymentDates(loan: Loan, n: nat): seq<Date>
    requires ValidLoan(loan) && !loan.frequency.ZeroCoupon?
  {
    PaymentDates(FirstPaymentDate(loan), loan.frequency, n, None, None)
  }

  /**
   * The schedule generate_schedule() produces: a bullet loan repays the
   * principal at origination + term; the others run the matching builder
   * over the loan's payment dates at its periodic rate.
   */
  function ScheduleOf(loan: Loan): Result<CashFlowSchedule, ValidationError>
    requires ValidLoan(loan)
  {
    if loan.amortization.Bullet? then Ok(BulletSchedule(loan.principal, AddToDate(loan.term, loan.origination)))
    else match NumberOfPayments(loan)
      case Err(e) => Err(e)
      case Ok(n) =>
        var rate := PeriodicRate(loan).value;
        var dates := LoanPaymentDates(loan, n);
        var p := loan.principal.amount;
        match loan.amortization
        case LevelPayment =>
          (match CalculateLevelPayment(loan.principal, rate, n)
           case Err(e) => Err(e)
           case Ok(payment) => Ok(CashFlowSchedule(AmortizingRows(p, rate, LevelTotal(payment.amount), dates))))
        case LevelPrincipal =>
          if n == 0 then Err(ZeroDivision)
          else Ok(CashFlowSchedule(AmortizingRows(p, rate, LevelPrincipalPart(p / n as real), dates)))
        case InterestOnly =>
          if n < 1 then Err(NoPayments)
          else Ok(CashFlowSchedule(InterestOnlyRows(p, rate, dates) + [Flow(dates[n - 1], p, Balloon)]))
  }

  /** generate_schedule(): payment dates first, then the builder for the amortization type. */
  method GenerateSchedule(loan: Loan) returns (r: Result<CashFlowSchedule, ValidationError>)
    requires ValidLoan(loan)
    ensures r == ScheduleOf(loan)
  {
    if loan.amortization.Bullet? {
      return Ok(BulletSchedule(loan.principal, AddToDate(loan.term, loan.origination)));
    }
    var count := NumberOfPayments(loan);
    if count.Err? {
      return Err(count.error);
    }
    var n := count.value;
    var rate := PeriodicRate(loan).value;
    var generated := GeneratePaymentDates(FirstPaymentDate(loan), loan.frequency, n, None, None);
    var dates := generated.value;
    assert dates == LoanPaymentDates(loan, n);
    match loan.amortization {
      case LevelPayment =>
        var payment := CalculateLevelPayment(loan.principal, rate, n);
        if payment.Err? {
          return Err(payment.error);
        }
        r := LevelPaymentSchedule(loan.principal, rate, n, dates, payment.value);
      case LevelPrincipal =>
        r := LevelPrincipalSchedule(loan.principal, rate, n, dates);
      case InterestOnly =>
        r := InterestOnlySchedule(loan.principal, rate, n, dates);
    }
  }

  /**
   * maturity_date(): origination + term for a bullet loan, otherwise the
   * last payment date.
   */
  function MaturityDate(loan: Loan): (r: Result<Date, ValidationError>)
    requires ValidLoan(loan)
    ensures loan.amortization.Bullet? ==> r == Ok(AddToDate(loan.term, loan.origination))
    ensures !loan.amortization.Bullet? && r.Ok? ==>
              NumberOfPayments(loan).Ok? && NumberOfPayments(loan).value >= 1
              && r.value == LoanPaymentDates(loan, NumberOfPayments(loan).value)[NumberOfPayments(loan).value - 1]
    ensures !loan.amortization.Bullet? ==>
              (r.Ok? <==> NumberOfPayments(loan).Ok? && NumberOfPayments(loan).value >= 1)
    ensures !loan.amortization.Bullet? && NumberOfPayments(loan) == Ok(0) ==> r == Err(NoPayments)
  {
    if loan.amortization.Bullet? then Ok(AddToDate(loan.term, loan.origination))
    else
      var count := NumberOfPayments(loan);
      if count.Err? then Err(count.error)
      else if count.value == 0 then Err(NoPayments)
      else Ok(PaymentDate(FirstPaymentDate(loan), loan.frequency, count.value - 1, None, None))
  }

  /** Origination 2024-01-15 with a 5-year monthly term pays first on 2024-02-15 and matures on 2029-01-15. */
  lemma MaturityExample(loan: Loan)
    requires ValidLoan(loan) && loan.amortization.LevelPayment? && loan.frequency == Monthly
    requires loan.origination == Ymd(2024, 1, 15) && loan.term == Period(5, Years) && loan.firstPayment.None?
    ensures FirstPaymentDate(loan) == Ymd(2024, 2, 15)
    ensures MaturityDate(loan) == Ok(Ymd(2029, 1, 15))
  {
    assert NumberOfPayments(loan) == Ok(60);
  }

  /** A 3-year bullet loan from 2024-01-01 matures on 2027-01-01. */
  lemma BulletMaturityExample(loan: Loan)
    requires ValidLoan(loan) && loan.amortization.Bullet?
    requires loan.origination == Ymd(2024, 1, 1) && loan.term == Period(3, Years)
    ensures MaturityDate(loan) == Ok(Ymd(2027, 1, 1))
  {
  }

  /** total_interest(): the sum of the schedule's INTEREST flows. */
  function TotalInterest(loan: Loan): (r: Result<Money, ValidationError>)
    requires ValidLoan(loan)
    ensures r.Ok? <==> ScheduleOf(loan).Ok?
    ensures r.Ok? ==> r.value.amount == Sum(Filter(ScheduleOf(loan).value.flows, OfType(Interest)))
  {
    match ScheduleOf(loan)
    case Err(e) => Err(e)
    case Ok(s) => Ok(s.GetInterestFlows().TotalAmount())
  }

  /** total_payments(): the sum of every flow in the schedule. */
  function TotalPayments(loan: Loan): (r: Result<Money, ValidationError>)
    requires ValidLoan(loan)
    ensures r.Ok? <==> ScheduleOf(loan).Ok?
    ensures r.Ok? ==> r.value.amount == Sum(ScheduleOf(loan).value.flows)
  {
    match ScheduleOf(loan)
    case Err(e) => Err(e)
    case Ok(s) => Ok(s.TotalAmount())
  }

  /** Every schedule repays exactly the principal through its principal view. */
  lemma ScheduleRepaysPrincipal(loan: Loan)
    requires ValidLoan(loan) && ScheduleOf(loan).Ok?
    ensures Sum(ScheduleOf(loan).value.GetPrincipalFlows().flows) == loan.principal.amount
  {
    var s := ScheduleOf(loan).value;
    var p := loan.principal.amount;
    if !loan.amortization.Bullet? {
      var n := NumberOfPayments(loan).value;
      var dates := LoanPaymentDates(loan, n);
      var rate := PeriodicRate(loan).value;
      match loan.amortization {
        case LevelPayment =>
          var payment := CalculateLevelPayment(loan.principal, rate, n).value;
          AmortizingRowsRepay(p, rate, LevelTotal(payment.amount), dates);
        case LevelPrincipal =>
          AmortizingRowsRepay(p, rate, LevelPrincipalPart(p / n as real), dates);
        case InterestOnly =>
          InterestOnlyShape(p, rate, dates);
      }
    }
  }

  /** total_payments() == principal + total_interest(), exactly. */
  lemma TotalsAddUp(loan: Loan)
    requires ValidLoan(loan) && ScheduleOf(loan).Ok?
    ensures TotalPayments(loan).value.amount == loan.principal.amount + TotalInterest(loan).value.amount
  {
    ScheduleRepaysPrincipal(loan);
    PrincipalViewSum(ScheduleOf(loan).value);
  }

  /** A zero-rate loan, of any amortization type, charges no interest. */
  lemma ZeroRateChargesNoInterest(loan: Loan)
    requires ValidLoan(loan) && loan.annualRate.rate == 0.0 && ScheduleOf(loan).Ok?
    ensures TotalInterest(loan).value.IsZero()
  {
    if loan.amortization.Bullet? {
      BulletChargesNoInterest(loan);
    } else {
      var n := NumberOfPayments(loan).value;
      var dates := LoanPaymentDates(loan, n);
      var rate := PeriodicRate(loan).value;
      var p := loan.principal.amount;
      assert rate == 0.0;
      match loan.amortization {
        case LevelPayment =>
          var payment := CalculateLevelPayment(loan.principal, rate, n).value;
          assert ScheduleOf(loan).value.flows == AmortizingRows(p, 0.0, LevelTotal(payment.amount), dates);
          AmortizingInterestFree(p, 0.0, LevelTotal(payment.amount), dates);
        case LevelPrincipal =>
          assert ScheduleOf(loan).value.flows == AmortizingRows(p, 0.0, LevelPrincipalPart(p / n as real), dates);
          AmortizingInterestFree(p, 0.0, LevelPrincipalPart(p / n as real), dates);
        case InterestOnly =>
          InterestOnlyInterestFree(p, dates);
      }
    }
  }

  /** A bullet schedule has no INTEREST flow at all. */
  lemma BulletChargesNoInterest(loan: Loan)
    requires ValidLoan(loan) && loan.amortization.Bullet?
    ensures TotalInterest(loan).value.IsZero()
  {
    var s := ScheduleOf(loan).value;
    assert s.flows == [CashFlow(AddToDate(loan.term, loan.origination), loan.principal, Balloon, "")];
    assert s.flows[1..] == [];
  }

  /** An interest-only schedule at a zero rate charges no interest. */
  lemma InterestOnlyInterestFree(p: real, dates: seq<Date>)
    requires dates != []
    ensures Sum(Filter(InterestOnlyRows(p, 0.0, dates) + [Flow(dates[|dates| - 1], p, Balloon)], OfType(Interest))) == 0.0
  {
    InterestOnlyShape(p, 0.0, dates);
    InterestOnlyTotal(p, 0.0, dates);
  }

  /** A level-payment loan at a positive rate charges positive interest. */
  lemma LevelPaymentChargesInterest(loan: Loan)
    requires ValidLoan(loan) && loan.amortization.LevelPayment? && loan.annualRate.rate > 0.0
    requires ScheduleOf(loan).Ok?
    ensures TotalInterest(loan).value.IsPositive()
  {
    var n := NumberOfPayments(loan).value;
    var dates := LoanPaymentDates(loan, n);
    var rate := PeriodicRate(loan).value;
    var p := loan.principal.amount;
    var payment := CalculateLevelPayment(loan.principal, rate, n).value;
    assert rate > 0.0;
    assert payment.amount == AnnuityPayment(p, rate, n);
    forall k | 0 <= k < n
      ensures Balance(p, rate, LevelTotal(payment.amount), k) > 0.0
    {
      AnnuityBalancePositive(p, rate, n, k);
    }
    assert OutstandingThroughout(p, rate, LevelTotal(payment.amount), |dates|);
    AmortizingInterestPositive(p, rate, LevelTotal(payment.amount), dates);
  }

  /** A schedule whose flows all lie between two dates it contains spans exactly those dates. */
  lemma ScheduleSpan(flows: seq<CashFlow>, first: Date, last: Date, i: nat, j: nat)
    requires i < |flows| && j < |flows| && flows[i].date == first && flows[j].date == last
    requires forall f :: f in flows ==> OnOrBefore(first, f.date) && OnOrBefore(f.date, last)
    ensures CashFlowSchedule(flows).EarliestDate() == Some(first)
    ensures CashFlowSchedule(flows).LatestDate() == Some(last)
  {
    var s := CashFlowSchedule(flows);
    var e := s.EarliestDate().value;
    var l := s.LatestDate().value;
    assert flows[i] in flows && flows[j] in flows;
    Trichotomy(e, first);
    Trichotomy(l, last);
  }

  /** Every payment date lies between the first and the last. */
  lemma PaymentDatesBetween(start: Date, freq: PaymentFrequency, n: nat, k: nat)
    requires !freq.ZeroCoupon? && k < n
    ensures OnOrBefore(PaymentDates(start, freq, n, None, None)[0], PaymentDates(start, freq, n, None, None)[k])
    ensures OnOrBefore(PaymentDates(start, freq, n, None, None)[k], PaymentDates(start, freq, n, None, None)[n - 1])
  {
    if 0 < k {
      PaymentDateProperties(start, freq, 0, k, None, None);
    }
    if k < n - 1 {
      PaymentDateProperties(start, freq, k, n - 1, None, None);
    }
  }

  /** The flows of an amortizing schedule span its first and last payment dates. */
  lemma AmortizingSpan(b: real, rate: real, inst: Installment, start: Date, freq: PaymentFrequency, n: nat)
    requires !freq.ZeroCoupon? && n >= 1
    ensures var dates := PaymentDates(start, freq, n, None, None);
            var s := CashFlowSchedule(AmortizingRows(b, rate, inst, dates));
            s.EarliestDate() == Some(dates[0]) && s.LatestDate() == Some(dates[n - 1])
  {
    var dates := PaymentDates(start, freq, n, None, None);
    var flows := AmortizingRows(b, rate, inst, dates);
    AmortizingRowDates(b, rate, inst, dates);
    forall f | f in flows
      ensures OnOrBefore(dates[0], f.date) && OnOrBefore(f.date, dates[n - 1])
    {
      var i :| 0 <= i < |flows| && flows[i] == f;
      PaymentDatesBetween(start, freq, n, i / 2);
    }
    ScheduleSpan(flows, dates[0], dates[n - 1], 0, 2 * n - 1);
  }

  /** The flows of an interest-only schedule span its first and last payment dates. */
  lemma InterestOnlySpan(p: real, rate: real, start: Date, freq: PaymentFrequency, n: nat)
    requires !freq.ZeroCoupon? && n >= 1
    ensures var dates := PaymentDates(start, freq, n, None, None);
            var s := CashFlowSchedule(InterestOnlyRows(p, rate, dates) + [Flow(dates[n - 1], p, Balloon)]);
            s.EarliestDate() == Some(dates[0]) && s.LatestDate() == Some(dates[n - 1])
  {
    var dates := PaymentDates(start, freq, n, None, None);
    var rows := InterestOnlyRows(p, rate, dates);
    var flows := rows + [Flow(dates[n - 1], p, Balloon)];
    forall f | f in flows
      ensures OnOrBefore(dates[0], f.date) && OnOrBefore(f.date, dates[n - 1])
    {
      var i :| 0 <= i < |flows| && flows[i] == f;
      if i < n {
        assert f == rows[i];
        PaymentDatesBetween(start, freq, n, i);
      } else {
        PaymentDatesBetween(start, freq, n, n - 1);
      }
    }
    assert flows[0] == rows[0];
    ScheduleSpan(flows, dates[0], dates[n - 1], 0, n);
  }

  /**
   * A periodic loan's schedule runs from its first payment date to its
   * maturity date; a bullet loan's single flow falls on its maturity date.
   */
  lemma ScheduleRunsToMaturity(loan: Loan)
    requires ValidLoan(loan) && ScheduleOf(loan).Ok?
    ensures MaturityDate(loan).Ok?
    ensures ScheduleOf(loan).value.LatestDate() == Some(MaturityDate(loan).value)
    ensures !loan.amortization.Bullet? ==> ScheduleOf(loan).value.EarliestDate() == Some(FirstPaymentDate(loan))
  {
    var p := loan.principal.amount;
    if loan.amortization.Bullet? {
      var s := ScheduleOf(loan).value;
      assert s.flows[0] in s.flows;
      ScheduleSpan(s.flows, s.flows[0].date, s.flows[0].date, 0, 0);
    } else {
      var n := NumberOfPayments(loan).value;
      var rate := PeriodicRate(loan).value;
      var start := FirstPaymentDate(loan);
      var dates := LoanPaymentDates(loan, n);
      assert n >= 1;
      PaymentDateProperties(start, loan.frequency, 0, 1, None, None);
      match loan.amortization {
        case LevelPayment =>
          var payment := CalculateLevelPayment(loan.principal, rate, n).value;
          AmortizingSpan(p, rate, LevelTotal(payment.amount), start, loan.frequency, n);
        case LevelPrincipal =>
          AmortizingSpan(p, rate, LevelPrincipalPart(p / n as real), start, loan.frequency, n);
        case InterestOnly =>
          InterestOnlySpan(p, rate, start, loan.frequency, n);
      }
    }
  }

  /**
   * Schedule sizes: level payment and level principal have 2n flows,
   * interest-only n + 1 (a single BALLOON among them), bullet 1.
   */
  lemma ScheduleLength(loan: Loan)
    requires ValidLoan(loan) && ScheduleOf(loan).Ok?
    ensures loan.amortization.Bullet? ==>
              |ScheduleOf(loan).value.flows| == 1
              && ScheduleOf(loan).value.flows[0].flowType == Balloon
              && ScheduleOf(loan).value.flows[0].amount == loan.principal
    ensures !loan.amortization.Bullet? ==> NumberOfPayments(loan).Ok?
    ensures (loan.amortization.LevelPayment? || loan.amortization.LevelPrincipal?) ==>
              |ScheduleOf(loan).value.flows| == 2 * NumberOfPayments(loan).value
    ensures loan.amortization.InterestOnly? ==>
              |ScheduleOf(loan).value.flows| == NumberOfPayments(loan).value + 1
              && |ScheduleOf(loan).value.FilterByType(Balloon).flows| == 1
              && ScheduleOf(loan).value.FilterByType(Balloon).flows[0].amount == loan.principal
  {
    if !loan.amortization.Bullet? {
      var n := NumberOfPayments(loan).value;
      var dates := LoanPaymentDates(loan, n);
      var rate := PeriodicRate(loan).value;
      var p := loan.principal.amount;
      match loan.amortization {
        case LevelPayment =>
          var payment := CalculateLevelPayment(loan.principal, rate, n).value;
          AmortizingRowDates(p, rate, LevelTotal(payment.amount), dates);
        case LevelPrincipal =>
          AmortizingRowDates(p, rate, LevelPrincipalPart(p / n as real), dates);
        case InterestOnly =>
          InterestOnlyShape(p, rate, dates);
      }
    }
  }

  /** A 30-year monthly level-payment loan has 720 flows; a 5-year interest-only one has 61. */
  lemma ScheduleLengthExamples(loan: Loan)
    requires ValidLoan(loan) && loan.frequency == Monthly && ScheduleOf(loan).Ok?
    ensures loan.amortization.LevelPayment? && loan.term == Period(30, Years) ==> |ScheduleOf(loan).value.flows| == 720
    ensures loan.amortization.InterestOnly? && loan.term == Period(5, Years) ==> |ScheduleOf(loan).value.flows| == 61
    ensures loan.amortization.LevelPayment? && loan.term == Period(1, Months) ==> |ScheduleOf(loan).value.flows| == 2
  {
    ScheduleLength(loan);
  }
}
