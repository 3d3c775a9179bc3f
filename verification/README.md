# credkit core, modelled in Dafny

credkit is a Python library for consumer-loan cash flows. This project models its
core in Dafny and proves properties of the model. The behaviour modelled is the
behaviour the repository's test suites pin down:

- **Money**: an exact decimal amount in a currency, with arithmetic, ordering,
  sign predicates and rounding to the currency's two decimal places.
- **Period**: a length and a time unit. It is parsed from and formatted as compact
  strings ("3M", "1Y", "90D", "2W"), converted to days, months and years, and added
  to dates with month-end clamping.
- **InterestRate and Spread**: percent and basis-point conversions, compound and
  discount factors, and spread algebra.
- **CashFlow and CashFlowSchedule**:
  - sign predicates and date-only ordering;
  - the schedule's type, date-range and principal views;
  - totals and per-type sums, and earliest and latest dates;
  - sorting and aggregation by payment period.
- **ZeroCurve**: validation of a zero curve's points.
- **The amortization engine**:
  - the level-payment (annuity) formula;
  - payment-date generation, with the Following Business Day Convention (ISDA 2006
    Definitions, section 4.12(a)(i));
  - the four schedule builders: level payment, level principal, interest-only and
    bullet.
- **Loan**: construction validation and presets, periodic rate, payment count, payment
  and maturity, schedule generation by amortization type, and total interest and
  total payments.

Amounts and rates are exact `real`s, standing for Python `Decimal` values. Dates are
proleptic Gregorian `(year, month, day)` triples, with Python's ordinal and weekday
numbering. Every error the library raises is a `ValidationError` constructor inside
a `Result`.

Files, one module each:

- `wrappers.dfy`: `Option` and `Result`.
- `errors.dfy`: the error kinds.
- `decimals.dfy`: powers, decimal-literal parsing and half-even rounding.
- `dates.dfy`: the calendar, ordering and month arithmetic.
- `money.dfy`
- `rates.dfy`
- `periods.dfy`
- `scheduling.dfy`: payment frequencies, calendars and business-day adjustment.
- `sorting.dfy`: a stable insertion sort.
- `cashflow.dfy`
- `curves.dfy`
- `amortization.dfy`
- `loans.dfy`

The schedule builders and payment-date generation build their results step by step
in the library. Here they are methods with loops:

- Each loop carries the running balance and the flows built so far.
- Each method is proved equal to a recursive specification (`AmortizingRows`,
  `InterestOnlyRows`, `PaymentDates`).
- The repayment, interest and shape properties are lemmas about those specifications.

Everything else is a pure function.

The library's documentation gives interest rates the invariant rate >= 0. One test
builds `InterestRate(-0.01)` inside the `Loan(...)` call that must fail with
"non-negative", so it cannot tell whether the rate or the loan constructor rejects
the rate. In the model:

- `InterestRate` itself has no sign invariant (listed under "## Left out");
- `NewLoan` and `CalculateLevelPayment` reject a negative rate.

## Model

| member | source | states |
|---|---|---|
| Decimals.IntegerLiteralParses | tests/test_money.py:25-29 | the decimal rendering of any natural parses back to that number |
| Decimals.NegativeLiteralParses | tests/test_money.py:25-29 | a minus sign before a natural's digits parses to its negation |
| Decimals.ParseAcceptsLiterals | tests/test_money.py:25-29 | the parser accepts a text iff it is an optional sign followed by digits with at most one '.' and at least one digit (a grammar stated without the parser) |
| Decimals.FractionLiteralParses | tests/test_money.py:25-29 | "w.f" with w rendered in decimal and f any digit string parses to exactly w + f/10^|f| |
| Decimals.NegativeFractionParses | tests/test_money.py:25-29 | "-w.f" parses to exactly -(w + f/10^|f|) |
| Decimals.FractionValue | tests/test_money.py:25-29 | the digits after the point are worth at least 0 and less than 1 |
| Decimals.DigitsBelowPow10 | tests/test_money.py:25-29 | k digits are worth less than 10^k |
| Decimals.NatToString | tests/test_period.py:101-105 | the rendering is non-empty, all digits, without a leading zero, and has the number as its value |
| Decimals.RoundHalfEven | tests/test_money.py:91-95 | the result is a whole number of units of 10^-places and lies within half a unit of the input |
| Decimals.RoundToUnits | tests/test_money.py:91-95 | the nearest whole number of units; an exact tie goes to the even neighbour |
| Decimals.RoundIdempotent | tests/test_money.py:91-95 | rounding a rounded amount changes nothing |
| Decimals.PowStrictlyIncreasing | tests/test_instruments.py:65-74 | (1+r)^i < (1+r)^j for r > 0 and i < j, which the annuity bounds rest on |
| Dates.DaysInMonth | tests/test_period.py:51-57 | every month has 28 to 31 days (29 in a leap February) |
| Dates.Weekday | tests/test_instruments.py:139-154 | the weekday is in 0..6 (Monday is 0) |
| Dates.NextDay | tests/test_period.py:37-42 | the next day has the next ordinal |
| Dates.AddDays | tests/test_period.py:37-42 | adding n days adds n to the ordinal |
| Dates.Trichotomy | tests/test_cashflow.py:87-98 | date order is total and strict: exactly one of a < b, a == b, b < a holds |
| Dates.BeforeTransitive | tests/test_cashflow.py:462-500 | date order is transitive |
| Dates.OrdinalOrder | tests/test_cashflow.py:87-98 | a date comes before another iff its ordinal is smaller |
| Dates.OrdinalInjective | tests/test_cashflow.py:87-98 | two dates with the same ordinal are the same date |
| Dates.AddMonths | tests/test_period.py:44-57 | the month index advances by exactly k, and the day is clamped to the last day of the target month |
| Dates.AddMonthsZero | tests/test_instruments.py:110-122 | adding zero months returns the date itself |
| Dates.AddMonthsStrictlyIncreasing | tests/test_instruments.py:110-137 | adding more months gives a strictly later date |
| Monetary.Money.Zero | tests/test_money.py:31-35 | zero() is zero, in USD |
| Monetary.Money.FromString | tests/test_money.py:25-29 | from_string succeeds iff the text is a decimal literal (optional sign, digits, at most one point); the result is in USD; otherwise InvalidDecimal |
| Monetary.FromStringOfLiteral | tests/test_money.py:25-29 | from_string of "w.f" is exactly w + f/10^|f| dollars |
| Monetary.FromStringOfNegativeLiteral | tests/test_money.py:25-29 | from_string of "-w.f" is exactly -(w + f/10^|f|) dollars |
| Monetary.FromStringExample | tests/test_money.py:25-29 | "100.50" parses to 100.50 USD |
| Monetary.Money.Abs | tests/test_money.py:73-77 | abs is never negative, equals the amount or its negation, and keeps the currency |
| Monetary.Money.Plus | tests/test_money.py:37-42 | no ensures; PlusMinusInverse (Minus undoes it) and ArithmeticExamples (100.50 + 50.25 = 150.75) state it |
| Monetary.Money.Minus | tests/test_money.py:44-49 | no ensures; PlusMinusInverse (Plus undoes it) and ArithmeticExamples (100.50 − 50.25 = 50.25) state it |
| Monetary.Money.Times | tests/test_money.py:51-59 | no ensures; TimesDividedByInverse (DividedBy undoes it) and ArithmeticExamples (100 × 2 = 200) state it |
| Monetary.Money.DividedBy | tests/test_money.py:61-65 | no ensures; TimesDividedByInverse (Times undoes it) and ArithmeticExamples (100 / 2 = 50) state it; the zero divisor is under Left out |
| Monetary.Money.Negated | tests/test_money.py:67-71 | no ensures; NegationFlipsSign (an involution that swaps the sign) and ArithmeticExamples state it |
| Monetary.Money.Less | tests/test_money.py:79-89 | no ensures; ComparisonsAgree states that it is a strict total order on amounts |
| Monetary.Money.LessOrEqual | tests/test_money.py:79-89 | no ensures; ComparisonsAgree states that it is Less or equal amounts |
| Monetary.Money.IsPositive | tests/test_money.py:97-105 | no ensures; ExactlyOneSign and NegationFlipsSign state it |
| Monetary.Money.IsNegative | tests/test_money.py:107-115 | no ensures; ExactlyOneSign and NegationFlipsSign state it |
| Monetary.Money.IsZero | tests/test_money.py:31-35 | no ensures; ExactlyOneSign and Money.Zero state it |
| Monetary.PlusMinusInverse | tests/test_money.py:37-49 | adding then subtracting the same amount (either order) gives back the original |
| Monetary.TimesDividedByInverse | tests/test_money.py:51-65 | multiplying and dividing by the same non-zero scalar are inverse |
| Monetary.ArithmeticExamples | tests/test_money.py:37-77 | 100.50 + 50.25 = 150.75; 100.50 - 50.25 = 50.25; 100 × 2 = 200; 100 / 2 = 50; -(100) = -100; abs(-100) = 100 |
| Monetary.NegationFlipsSign | tests/test_money.py:67-77 | negation is an involution that swaps positive and negative; abs is the negation exactly for negative amounts |
| Monetary.ExactlyOneSign | tests/test_money.py:97-115 | exactly one of positive, negative, zero holds |
| Monetary.ComparisonsAgree | tests/test_money.py:79-89 | <= is < or equal amounts; the order is total, antisymmetric and transitive |
| Monetary.Money.Round | tests/test_money.py:91-95 | round keeps the currency and gives the half-even nearest whole number of cents, within half a cent |
| Monetary.RoundTwice | tests/test_money.py:91-95 | rounding twice is rounding once |
| Monetary.RoundExample | tests/test_money.py:91-95 | 100.567 rounds to 100.57 |
| Rates.PeriodsPerYear | tests/test_interest_rate.py:61-80 | only simple compounding has no compounding periods |
| Rates.WholeCount | tests/test_interest_rate.py:71-80 | a horizon counts as whole periods exactly when it is a non-negative integer, and then its value is that count |
| Rates.PercentRoundTrip | tests/test_interest_rate.py:19-32 | from_percent then to_percent gives back the percent, and the other way round gives back the rate |
| Rates.BasisPointsRoundTrip | tests/test_interest_rate.py:24-37 | the same round trip for basis points, and 525 bp equals 5.25 % |
| Rates.InterestRate.FromPercent | tests/test_interest_rate.py:19-22 | no ensures; PercentRoundTrip states that ToPercent inverts it in both directions |
| Rates.InterestRate.FromBasisPoints | tests/test_interest_rate.py:24-27 | no ensures; BasisPointsRoundTrip states that ToBasisPoints inverts it and that it equals FromPercent of bp/100 |
| Rates.InterestRate.ToPercent | tests/test_interest_rate.py:29-32 | no ensures; PercentRoundTrip states it |
| Rates.InterestRate.ToBasisPoints | tests/test_interest_rate.py:34-37 | no ensures; BasisPointsRoundTrip states it |
| Rates.InterestRate.CompoundFactor | tests/test_interest_rate.py:61-69 | simple compounding gives 1 + r·t; periodic compounding is defined exactly on whole periods |
| Rates.PeriodicCompoundFactor | tests/test_interest_rate.py:71-80 | over whole years, periodic compounding gives (1 + r/m)^(m·years) |
| Rates.InterestRate.DiscountFactor | tests/test_interest_rate.py:71-80 | the discount factor exists where the compound factor does and is non-zero; their product is exactly 1 |
| Rates.CompoundFactorAtLeastOne | tests/test_interest_rate.py:71-80 | at a non-negative rate and horizon, growth is at least 1 and the discount factor lies in (0, 1] |
| Rates.SimpleCompoundExample | tests/test_interest_rate.py:61-69 | 5 % simple over 2 years compounds to 1.10 |
| Rates.Spread.ApplyTo | tests/test_interest_rate.py:140-149 | applying a spread adds its basis points to the rate and keeps the compounding |
| Rates.SpreadConversions | tests/test_interest_rate.py:110-138 | the bps, percent and decimal constructors agree, and to_decimal and to_percent invert them |
| Rates.SpreadExample | tests/test_interest_rate.py:120-149 | 2.5 % = 0.025 = 250 bps, and 5 % + 250 bps = 7.5 % |
| Rates.SpreadAlgebra | tests/test_interest_rate.py:151-175 | applying two spreads is applying their sum; negation undoes a spread; subtraction inverts addition; ×2 is doubling |
| Rates.SpreadOrder | tests/test_interest_rate.py:177-185 | spread order is total and strict on basis points, and negation reverses it |
| Rates.Spread.FromBps | tests/test_interest_rate.py:115-118 | no ensures; SpreadConversions and SpreadExample state it |
| Rates.Spread.FromPercent | tests/test_interest_rate.py:120-123 | no ensures; SpreadConversions (percent × 100 basis points, inverted by ToPercent) and SpreadExample (2.5 % = 250 bps) state it |
| Rates.Spread.FromDecimal | tests/test_interest_rate.py:125-128 | no ensures; SpreadConversions (inverted by ToDecimal) and SpreadExample (0.025 = 250 bps) state it |
| Rates.Spread.ToDecimal | tests/test_interest_rate.py:130-133 | no ensures; SpreadConversions states it |
| Rates.Spread.ToPercent | tests/test_interest_rate.py:135-138 | no ensures; SpreadConversions states it |
| Rates.Spread.Plus | tests/test_interest_rate.py:151-156 | no ensures; SpreadAlgebra states that applying two spreads is applying their sum |
| Rates.Spread.Minus | tests/test_interest_rate.py:158-163 | no ensures; SpreadAlgebra states that it undoes Plus |
| Rates.Spread.Times | tests/test_interest_rate.py:165-169 | no ensures; SpreadAlgebra states that doubling is adding to itself |
| Rates.Spread.Negated | tests/test_interest_rate.py:171-175 | no ensures; SpreadAlgebra (an involution that cancels the spread) and SpreadOrder (it reverses the order) state it |
| Rates.Spread.Less | tests/test_interest_rate.py:177-185 | no ensures; SpreadOrder states that it is a strict total order |
| Periods.UnitOf | tests/test_period.py:20-35 | a character is recognised iff it is one of D, d, W, w, M, m, Y, y, and a recognised letter names its unit in upper or lower case |
| Periods.UnitLettersRecognised | tests/test_period.py:20-35 | every unit is recognised from both its upper-case and its lower-case letter |
| Periods.FromString | tests/test_period.py:20-35 | from_string accepts exactly digits followed by a known unit letter and gives that count and unit; anything else is InvalidPeriodString |
| Periods.ToString | tests/test_period.py:101-105 | the string is the count's digits followed by the unit letter |
| Periods.ParseFormatted | tests/test_period.py:101-105 | formatting then parsing gives back the period |
| Periods.FormatParsed | tests/test_period.py:20-26 | a parsed string re-formats to a string that parses to the same period |
| Periods.ParsesCountAndLetter | tests/test_period.py:20-26 | any count followed by any unit letter parses to that period |
| Periods.FromStringExamples | tests/test_period.py:20-26 | "3M", "6m", "1Y" and "2W" parse as listed |
| Periods.FromStringTwoDigitExample | tests/test_period.py:25 | "90D" parses to 90 days |
| Periods.FromStringRejects | tests/test_period.py:28-35 | "invalid", "M3" and "3X" are rejected |
| Periods.FormatExample | tests/test_period.py:101-105 | three months formats as "3M" |
| Periods.ToDays | tests/test_period.py:66-77 | exact for days and weeks; months and years need approximate mode (30 and 365 days) and are an error otherwise |
| Periods.ToMonths | tests/test_period.py:79-83 | months and years convert exactly; days and weeks only approximately (30 days a month) |
| Periods.ToYears | tests/test_period.py:85-89 | years and months convert exactly; days and weeks only approximately (365 days a year) |
| Periods.MonthsYearsAgree | tests/test_period.py:79-89 | a period's months are twelve times its years |
| Periods.ConversionExamples | tests/test_period.py:66-89 | the listed conversions: 7D, 2W = 14, 1M ≈ 30, 1Y ≈ 365, 1Y = 12M, 30D ≈ 1M, 12M = 1Y, 6M = 0.5Y; 1M exact is an error |
| Periods.ComparisonIsApproximateDays | tests/test_period.py:91-99 | period order is the order of approximate day counts: total, transitive and reflexive |
| Periods.ComparisonExamples | tests/test_period.py:91-99 | 6M < 1Y and 12M <= 1Y, while 12M and 1Y are distinct values |
| Periods.Shorter | tests/test_period.py:91-99 | no ensures; ComparisonIsApproximateDays and ComparisonExamples state it |
| Periods.NoLonger | tests/test_period.py:91-99 | no ensures; ComparisonIsApproximateDays and ComparisonExamples state it |
| Periods.AddToDate | tests/test_period.py:37-64 | days and weeks move the ordinal; months and years move the month index and clamp the day to the target month |
| Periods.AddKeepsDayOfMonth | tests/test_period.py:44-64 | a day of month up to 28 is kept; adding years keeps the month and adds to the year |
| Periods.AddMovesForward | tests/test_period.py:37-64 | adding a non-empty period gives a strictly later date |
| Periods.AddDaysExample | tests/test_period.py:37-42 | 2024-01-15 + 10D = 2024-01-25 |
| Periods.AddMonthsExamples | tests/test_period.py:44-64 | +3M gives 2024-04-15; 2024-01-31 + 1M = 2024-02-29; +1Y gives 2025-01-15 |
| Scheduling.PaymentsPerYear | tests/test_instruments.py:480-506 | only zero coupon makes no periodic payment |
| Scheduling.MonthsPerPeriod | tests/test_instruments.py:110-137 | months per period times payments per year is 12 |
| Scheduling.RollForward | tests/test_instruments.py:139-154 | gives a business day; the ordinal moves by the days to Monday; every day skipped is not a business day |
| Scheduling.Adjust | tests/test_instruments.py:139-154 | FOLLOWING adjustment gives a business day, leaves business days alone and never moves earlier |
| Scheduling.AdjustMonotone | tests/test_instruments.py:139-154 | adjustment preserves date order |
| Scheduling.AdjustIdempotent | tests/test_instruments.py:139-154 | adjusting twice is adjusting once |
| Scheduling.WeekendRollExample | tests/test_instruments.py:139-154 | Saturday 2024-01-06 rolls forward to Monday 2024-01-08 |
| Sorting.Insert | tests/test_cashflow.py:502-514 | insertion adds exactly one element: the result is the input plus x as a multiset |
| Sorting.InsertKeepsSorted | tests/test_cashflow.py:502-514 | inserting into a sorted list gives a sorted list |
| Sorting.SortBy | tests/test_cashflow.py:502-514 | the result is a sorted permutation of the input |
| Sorting.InsertKeepsRankOrder | tests/test_cashflow.py:502-514 | insertion keeps the relative order of equal-rank elements |
| Sorting.SortIsStable | tests/test_cashflow.py:502-514 | sorting is stable: the elements of each rank keep their input order |
| Sorting.SortKeepsSorted | tests/test_cashflow.py:337-343 | a sorted list is left unchanged |
| Sorting.SortTwice | tests/test_cashflow.py:502-514 | sorting is idempotent |
| Sorting.SortedIsChronological | tests/test_cashflow.py:502-514 | sorted by date rank means chronological |
| Sorting.SortByDate | tests/test_cashflow.py:337-343 | the result is a chronological permutation of the input |
| CashFlows.ExactlyOneSign | tests/test_cashflow.py:54-85 | a flow is positive, negative or zero by its amount's sign, and exactly one holds |
| CashFlows.SameDateFlowsAreTied | tests/test_cashflow.py:87-98 | flows on the same date are neither < nor >, but both <= and >= hold |
| CashFlows.FlowOrderIsDateOrder | tests/test_cashflow.py:87-98 | any two flows are ordered or tied, and < excludes the reverse <= |
| CashFlows.CashFlow.IsPositive | tests/test_cashflow.py:54-63 | no ensures; CashFlows.ExactlyOneSign states that it follows the amount |
| CashFlows.CashFlow.IsNegative | tests/test_cashflow.py:65-74 | no ensures; CashFlows.ExactlyOneSign states it |
| CashFlows.CashFlow.IsZero | tests/test_cashflow.py:76-85 | no ensures; CashFlows.ExactlyOneSign states it |
| CashFlows.CashFlow.Less | tests/test_cashflow.py:87-98 | no ensures; SameDateFlowsAreTied and FlowOrderIsDateOrder state that it compares dates only |
| CashFlows.CashFlow.LessOrEqual | tests/test_cashflow.py:87-98 | no ensures; SameDateFlowsAreTied and FlowOrderIsDateOrder state it |
| CashFlows.SumAppend | tests/test_cashflow.py:412-421 | the total of a concatenation is the sum of the totals |
| CashFlows.SumUpdate | tests/test_cashflow.py:529-550 | replacing one flow changes the total by the difference of amounts |
| CashFlows.FilterMembers | tests/test_cashflow.py:376-410 | a view keeps exactly the flows that satisfy the condition |
| CashFlows.FilterAppend | tests/test_cashflow.py:376-385 | filtering distributes over concatenation, so a view keeps the schedule's order |
| CashFlows.FilterTwice | tests/test_cashflow.py:376-385 | filtering twice by the same condition is filtering once |
| CashFlows.FilterOfFilter | tests/test_cashflow.py:376-410 | filtering by one condition and then another is filtering by both |
| CashFlows.SumSplits | tests/test_cashflow.py:400-421 | a condition and its complement split the total |
| CashFlows.CashFlowSchedule.Empty | tests/test_cashflow.py:345-350 | the empty schedule has no flows |
| CashFlows.CashFlowSchedule.Length | tests/test_cashflow.py:364-374 | no ensures; the number of flows, which CashFlowSchedule.Empty pins at 0 and Loans.ScheduleLength gives for loan schedules |
| CashFlows.CashFlowSchedule.FromList | tests/test_cashflow.py:321-343 | from_list keeps the same flows: in the given order without sort, in chronological order with sort |
| CashFlows.CashFlowSchedule.Sort | tests/test_cashflow.py:502-514 | sort returns the same flows in chronological order |
| CashFlows.CashFlowSchedule.FilterByType | tests/test_cashflow.py:376-385 | the view holds exactly the schedule's flows of that type |
| CashFlows.CashFlowSchedule.GetInterestFlows | tests/test_instruments.py:170-223 | the view holds exactly the INTEREST flows |
| CashFlows.CashFlowSchedule.GetPrincipalFlows | tests/test_cashflow.py:400-410 | the view holds exactly the flows that repay principal (PRINCIPAL, PREPAYMENT, BALLOON) |
| CashFlows.CashFlowSchedule.FilterByDateRange | tests/test_cashflow.py:387-398 | the view holds exactly the flows dated from start to end, both inclusive |
| CashFlows.CashFlowSchedule.TotalAmount | tests/test_cashflow.py:412-426 | the total is in USD and is zero for an empty schedule; its amount is the sum of the flows |
| CashFlows.CashFlowSchedule.SumByType | tests/test_cashflow.py:428-437 | one entry per type present, each the total of that type's view |
| CashFlows.SumByTypeAddsUp | tests/test_cashflow.py:412-437 | the per-type totals add up to the schedule total |
| CashFlows.TypeSumsAddUp | tests/test_cashflow.py:412-437 | the four type views split the sum of any flow list |
| CashFlows.PrincipalViewSum | tests/test_instruments.py:635-649 | the total is the interest view's total plus the principal view's total |
| CashFlows.CashFlowSchedule.EarliestDate | tests/test_cashflow.py:462-471 | None iff empty; otherwise a flow's date that is on or before every flow's date, whatever the stored order |
| CashFlows.CashFlowSchedule.LatestDate | tests/test_cashflow.py:473-482 | None iff empty; otherwise a flow's date that is on or after every flow's date |
| CashFlows.CashFlowSchedule.DateRange | tests/test_cashflow.py:484-500 | None iff empty; otherwise the pair (earliest, latest) |
| CashFlows.MinDate | tests/test_cashflow.py:462-471 | the minimum date is attained by some flow and bounds all of them from below |
| CashFlows.MaxDate | tests/test_cashflow.py:473-482 | the maximum date is attained by some flow and bounds all of them from above |
| CashFlows.CashFlowSchedule.AggregateByPeriod | tests/test_cashflow.py:529-550 | aggregation is an error only for zero coupon; otherwise it gives the aggregate below |
| CashFlows.Aggregate | tests/test_cashflow.py:529-550 | one flow per (type, period start); each dated at its period's first day and carrying the sum of that type's flows in that period; every flow covered; every group holds at least one flow; grand total unchanged |
| CashFlows.GroupFlowsProperties | tests/test_cashflow.py:529-550 | by induction over the flows: the one-flow-at-a-time grouping has all the properties stated for the aggregate |
| CashFlows.AggregateExample | tests/test_cashflow.py:529-550 | the test's four flows (two January PRINCIPAL, one January INTEREST, one February PRINCIPAL) aggregate monthly to exactly three groups, January PRINCIPAL holding the sum of the first two |
| CashFlows.StepKeepsOccupied | tests/test_cashflow.py:529-550 | adding one flow never leaves a group without a flow |
| CashFlows.PeriodStart | tests/test_cashflow.py:529-550 | the period start is day 1 of a month in the flow's year that is a multiple of the period length from January, at most the flow's month and less than a period before it: the month that opens the flow's payment period |
| CashFlows.SamePeriodStart | tests/test_cashflow.py:529-550 | two dates share a period start iff they are in the same year and the same block of months, so flows of one quarter or half-year are grouped together and no others |
| CashFlows.FindGroup | tests/test_cashflow.py:529-550 | the index of the first aggregate of that type and period start, or the length when there is none |
| CashFlows.StepKeepsSums | tests/test_cashflow.py:529-550 | adding one flow to the aggregate keeps every group's sum equal to the sum of its flows |
| CashFlows.StepKeepsCover | tests/test_cashflow.py:529-550 | after adding one flow, every flow still has its group |
| CashFlows.StepKeepsDistinct | tests/test_cashflow.py:529-550 | adding one flow never creates a second group for the same type and period |
| CashFlows.StepKeepsPeriodStarts | tests/test_cashflow.py:529-550 | every group stays dated at a period start |
| CashFlows.SumAddToGroup | tests/test_cashflow.py:529-550 | adding a flow to the aggregate raises its total by that flow's amount |
| Curves.NewZeroCurve | tests/test_cashflow.py:203-231 | construction succeeds iff the points are non-empty, strictly chronological and all after the valuation date; each failure has its own error, checked in that order |
| Curves.FromRates | tests/test_cashflow.py:190-231 | from_rates sorts by date first: on success the points are the given ones, chronological; the same checks decide success |
| Curves.ChronologicalDatesDistinct | tests/test_cashflow.py:203-213 | in a valid curve any earlier point is strictly before any later one |
| Curves.ValidationExamples | tests/test_cashflow.py:203-231 | empty points, out-of-order points and a point before the valuation date are rejected with their errors |
| Curves.DiscountFactor | tests/test_cashflow.py:165-177 | the discount factor is exactly 1 iff the date is on or before the valuation date; later dates have none in the model |
| Curves.PresentValue | tests/test_cashflow.py:117-129 | the present value is defined exactly for flows on or before the valuation date, and there it is the flow's own amount |
| Curves.PastFlowsAreNotDiscounted | tests/test_cashflow.py:117-129 | a flow on or before the valuation date is worth its amount |
| Amortization.CalculateLevelPayment | tests/test_instruments.py:40-104 | negative rate and n <= 0 are rejected, in that order; otherwise the payment keeps the currency, and paying it n times amortizes the principal to exactly zero |
| Amortization.AnnuityPayment | tests/test_instruments.py:40-86 | no ensures; AnnuityClears (it repays exactly), ZeroRatePayment, SinglePayment and PaymentExceedsEvenSplit state it |
| Amortization.BalanceStep | tests/test_instruments.py:170-236 | each period the balance grows by its interest and falls by the payment |
| Amortization.BalanceClosedForm | tests/test_instruments.py:170-236 | balance after k periods, times r, equals P·r·(1+r)^k − a·((1+r)^k − 1) |
| Amortization.BalanceAtZeroRate | tests/test_instruments.py:53-63 | at zero rate the balance falls by the payment each period |
| Amortization.AnnuityBalance | tests/test_instruments.py:40-51 | under the annuity payment the balance after k periods is P·(X^n − X^k)/(X^n − 1), with X = 1 + r |
| Amortization.AnnuityClears | tests/test_instruments.py:40-51 | the annuity payment leaves exactly zero after n periods |
| Amortization.AnnuityBalancePositive | tests/test_instruments.py:559-579 | under the annuity payment the balance stays positive before the last payment |
| Amortization.ZeroRatePayment | tests/test_instruments.py:53-63 | at zero rate the payment is principal / n; 12,000 over 12 is 1,000 |
| Amortization.SinglePayment | tests/test_instruments.py:76-86 | with one payment the payment is principal × (1 + rate) |
| Amortization.AnnuityGap | tests/test_instruments.py:65-74 | n·r·X^n exceeds X^n − 1 for r > 0, which puts the annuity above the even split |
| Amortization.PaymentExceedsEvenSplit | tests/test_instruments.py:65-74 | at a positive rate the payment exceeds principal / n |
| Amortization.GeneratePaymentDates | tests/test_instruments.py:110-164 | zero coupon is rejected; otherwise exactly max(n, 0) dates, date k being the start plus k steps, adjusted when a calendar and convention are given |
| Amortization.PaymentDates | tests/test_instruments.py:110-137 | the date list has n entries, entry k being payment date k |
| Amortization.PaymentDateProperties | tests/test_instruments.py:110-154 | date 0 is the start; date k is k·step months on; unadjusted dates strictly increase; adjusted dates are business days, not before the unadjusted date, and non-decreasing |
| Amortization.MonthlyDatesExample | tests/test_instruments.py:110-122 | monthly from 2024-01-15: date 1 is 2024-02-15 and date 11 is 2024-12-15 |
| Amortization.QuarterlyDatesExample | tests/test_instruments.py:124-137 | quarterly from 2024-01-01: April, July, October |
| Amortization.FirstPaymentDate | tests/test_instruments.py:139-154 | the first date is the start, or the adjusted start with a calendar |
| Amortization.AmortizingRowsFrom | tests/test_instruments.py:170-265 | the rows from period i on are that period's interest and principal flows followed by the rows of the remaining balance |
| Amortization.AmortizingRowsAt | tests/test_instruments.py:195-223 | period k has 2 flows: interest on the balance after k periods, then the scheduled principal (the remaining balance in the last period) |
| Amortization.AmortizingRowsRepay | tests/test_instruments.py:170-193 | for any installment rule the principal flows sum exactly to the principal |
| Amortization.AmortizingRowDates | tests/test_instruments.py:170-193 | 2n flows; flows 2k and 2k+1 fall on payment date k |
| Amortization.AmortizingInterestFree | tests/test_instruments.py:655-675 | at zero rate the interest view sums to zero |
| Amortization.AmortizingInterestPositive | tests/test_instruments.py:170-193 | at a positive rate, with the balance outstanding in every period, total interest is positive |
| Amortization.LevelPaymentSchedule | tests/test_instruments.py:170-236 | a date count other than n is rejected; otherwise the loop builds exactly the amortizing rows for the level payment |
| Amortization.FirstPeriodSplit | tests/test_instruments.py:195-223 | the first interest flow is principal × rate and the first principal flow is payment − that interest |
| Amortization.LevelPaymentIsLevel | tests/test_instruments.py:170-236 | under the annuity payment every period's interest plus principal equals the payment, the last period included, with non-negative interest |
| Amortization.LevelPrincipalSchedule | tests/test_instruments.py:242-265 | count mismatch is rejected, then n = 0 (division by zero); otherwise the loop builds the amortizing rows with principal part P/n |
| Amortization.LevelPrincipalIsLevel | tests/test_instruments.py:242-265 | every principal flow is P/n, the last included; interest is charged on P − k·P/n |
| Amortization.LevelPrincipalBalance | tests/test_instruments.py:242-265 | with a level principal part q the balance after k periods is P − k·q |
| Amortization.InterestOnlyRows | tests/test_instruments.py:271-298 | one interest flow per payment date |
| Amortization.InterestOnlyTotal | tests/test_instruments.py:271-298 | the interest flows total n periods of interest on the principal |
| Amortization.InterestOnlySchedule | tests/test_instruments.py:271-324 | n < 1 is rejected, then a count mismatch; otherwise n interest flows of principal × rate and a balloon of the principal on the last date |
| Amortization.InterestOnlyShape | tests/test_instruments.py:271-312 | n + 1 flows; the interest view is the n interest rows, the balloon view the single balloon, and the principal view sums to the principal |
| Amortization.BulletSchedule | tests/test_instruments.py:330-344 | a single BALLOON flow of the principal on the maturity date; principal view and total equal the principal |
| Loans.NewLoan | tests/test_instruments.py:350-474 | construction succeeds iff the loan is valid and then keeps every field; otherwise the first failed check gives its error: principal not positive, negative rate, zero coupon without bullet, first payment not after origination |
| Loans.ValidationExamples | tests/test_instruments.py:415-474 | zero and −1000 principal, rate −0.01, zero coupon with level payment, and first payment 2023-12-31 are each rejected with their error |
| Loans.PresetsAreMonthlyLevelPayment | tests/test_instruments.py:377-413 | the mortgage, auto and personal presets give monthly level-payment loans with the given term, valid iff principal and rate are |
| Loans.FromFloatExample | tests/test_instruments.py:365-375 | from_float(50000, 5.5, 15) keeps the principal, reads 5.5 as the rate 0.055 and gives a 15-year monthly level-payment loan |
| Loans.Mortgage | tests/test_instruments.py:377-388 | no ensures; PresetsAreMonthlyLevelPayment states it |
| Loans.AutoLoan | tests/test_instruments.py:390-401 | no ensures; PresetsAreMonthlyLevelPayment states it |
| Loans.PersonalLoan | tests/test_instruments.py:403-413 | no ensures; PresetsAreMonthlyLevelPayment states it |
| Loans.FromFloat | tests/test_instruments.py:365-375 | no ensures; FromFloatExample states it |
| Loans.PeriodicRate | tests/test_instruments.py:480-492 | the periodic rate times payments per year is the annual rate; zero coupon has none |
| Loans.TermMonths | tests/test_instruments.py:494-506 | a term has a month count iff it is in months or years; years count 12 each |
| Loans.NumberOfPayments | tests/test_instruments.py:494-506 | the number of whole payment periods in the term (the term itself for monthly loans); zero coupon and day or week terms are errors |
| Loans.NumberOfPaymentsExamples | tests/test_instruments.py:480-506 | 30Y monthly is 360 payments, 5Y is 60, 1M is 1; the monthly periodic rate is annual / 12 |
| Loans.CalculatePayment | tests/test_instruments.py:508-521 | only level-payment loans have a payment; when there is at least one payment, it exists and amortizes the principal to exactly zero over the payment count |
| Loans.ZeroRatePayment | tests/test_instruments.py:655-675 | a zero-rate level-payment loan pays principal / n |
| Loans.FirstPaymentDate | tests/test_instruments.py:696-711 | the given first payment date, otherwise one period after origination; always strictly after origination |
| Loans.GenerateSchedule | tests/test_instruments.py:559-617 | dispatch: bullet repays at origination + term; otherwise dates from the first payment, then the matching builder at the periodic rate, errors passed through |
| Loans.ScheduleOf | tests/test_instruments.py:559-617 | no ensures; ScheduleRepaysPrincipal, TotalsAddUp, ScheduleRunsToMaturity and ScheduleLength state it |
| Loans.MaturityDate | tests/test_instruments.py:523-553 | origination + term for bullet loans; otherwise it exists iff there is at least one payment, and is then the last payment date (no payments: NoPayments) |
| Loans.MaturityExample | tests/test_instruments.py:523-537 | origination 2024-01-15, 5Y monthly: first payment 2024-02-15, maturity 2029-01-15 |
| Loans.BulletMaturityExample | tests/test_instruments.py:539-553 | a 3Y bullet from 2024-01-01 matures on 2027-01-01 |
| Loans.TotalInterest | tests/test_instruments.py:619-633 | the total of the schedule's INTEREST flows, whenever the schedule exists |
| Loans.TotalPayments | tests/test_instruments.py:635-649 | the total of every schedule flow, whenever the schedule exists |
| Loans.ScheduleRepaysPrincipal | tests/test_instruments.py:559-579 | every loan schedule's principal view sums exactly to the principal |
| Loans.TotalsAddUp | tests/test_instruments.py:635-649 | total payments = principal + total interest, exactly |
| Loans.ZeroRateChargesNoInterest | tests/test_instruments.py:655-675 | a zero-rate loan of any amortization type charges zero interest |
| Loans.LevelPaymentChargesInterest | tests/test_instruments.py:559-579 | a level-payment loan at a positive rate charges positive interest |
| Loans.ScheduleRunsToMaturity | tests/test_instruments.py:696-711 | the schedule's latest date is the maturity date, and for periodic loans its earliest date is the first payment date |
| Loans.ScheduleLength | tests/test_instruments.py:559-617 | 2n flows for level payment and level principal; n + 1 with a single balloon of the principal for interest-only; one balloon of the principal for bullet |
| Loans.ScheduleLengthExamples | tests/test_instruments.py:559-599 | 30Y monthly level payment has 720 flows, 5Y interest-only 61, and a one-month loan 2 |

## Left out

- Decimal context: amounts and rates are exact rationals. The library's 28-digit `Decimal` context is not modelled, and tests that allow a cent of tolerance hold here as exact equalities.
- Rounding mode: `Money.Round` uses round-half-even, the `Decimal` default. The tests only pin 100.567 → 100.57, which any round-to-nearest mode gives.
- Numeric scenarios are left out, because they need the 28-digit decimal expansion rather than exact algebra:
  - the approximate payments 1896.20 and 599.55;
  - the compound and discount factors 1.0617 and 0.9419;
  - "total interest is below the principal" for a 15-year 5 % loan.
- Rates.InterestRate.CompoundFactor: periodic compounding over a fractional number of periods, `convert_to`, future-date discount factors, interpolation, spot and forward rates, and present values of future flows are out. All need fractional powers or roots, so the function returns None there.
- Float entry points (`Money.from_float`, float arguments): inputs are exact values. Loans.FromFloat takes its numbers as exact reals.
- String and repr formatting is out: the thousands separator, rate and spread display, schedule and loan display, and enum labels. The exception is the Period string, which is modelled with its parser.
- Runtime type checks (a `TypeError` for a non-date) are out: types are static here.
- Currencies: USD is the only currency, so multi-currency checks cannot fail. Holiday calendars are out: a business day is Monday to Friday.
- Business-day conventions: FOLLOWING is the only one modelled.
- Loans.GenerateSchedule: a Loan has no calendar, so its payment dates are unadjusted.
- Flow descriptions: flows the builders generate carry the empty description. The library's generated description text is not modelled.
- Default arguments: they are not modelled, and callers pass every argument. This covers the mortgage preset's default 30-year term and the rate's default compounding.
- Loans.NumberOfPayments: a term in days or weeks, which the library's handling cannot be recovered for, is an error (TermNotInMonths).
- Loans.CalculatePayment: a non-level-payment loan is an error (PaymentNotLevel) rather than whatever per-period figure the library may return for it.
- Period lengths are natural numbers: negative lengths are not modelled.
- CashFlows.Aggregate: each group is dated on day 1 of its period and carries the empty description. The tests check only a group's month and amount, so the date within the month and the description are modelling choices.
- Amortization.LevelPrincipalSchedule and Amortization.InterestOnlySchedule: they reject a date list whose length differs from the number of payments. The tests and the library's documentation state that check only for the level-payment builder, so it is a modelling choice for these two.
- Rates.InterestRate: the datatype carries no sign invariant, so the documented rate >= 0 is not enforced when a rate is built, and Rates.Spread.ApplyTo can produce a negative rate. A negative rate is rejected only where a loan is built (Loans.NewLoan) or a level payment is computed (Amortization.CalculateLevelPayment).
- CashFlows.CashFlowSchedule.FilterByDateRange: both bounds are inclusive. The tests use a range whose bounds fall between flow dates, so including the end points is a modelling choice.
- Curves.NewZeroCurve: it checks emptiness, then chronological order, then the valuation date, and reports the first failure. The tests trigger one failure at a time, so this order is a modelling choice.
- Amortization.CalculateLevelPayment: it checks the rate before the payment count, so a negative rate with no payments reports the rate. No test combines the two failures, so this order is a modelling choice.
- Stored order: the aggregation keeps groups in first-appearance order, and the library's own output order is not known.
- Loans.PeriodicRate, Loans.NumberOfPayments, Amortization.GeneratePaymentDates and CashFlows.CashFlowSchedule.AggregateByPeriod: for the zero-coupon frequency they return the error NotPeriodic. Neither the tests nor the library's documentation say what the library does there (it has no payments per year to divide by), so this error is a modelling choice.
- Monetary.Money.DividedBy: it requires a non-zero divisor, so the division-by-zero error the library raises is not modelled.
- Dates.Date: years have no upper bound, so the overflow error for dates past year 9999 is not modelled.
- Parsing: Decimals.ParseDecimal accepts an optional sign, then digits with at most one decimal point. Exponents, spaces, and the special values (infinity, NaN) are not modelled.
