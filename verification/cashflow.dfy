/**
 * Cash flows and the cash-flow schedule: an immutable record of one
 * payment, and an ordered container of them with read-only projections
 * (filters, totals, per-type sums, first and last dates, sorting and
 * aggregation by payment period).
 */
module CashFlows {
  import opened Wrappers
  import opened Errors
  import opened Dates
  import opened Monetary
  import opened Scheduling
  import opened Sorting

  datatype CashFlowType = Interest | Principal | Balloon | Prepayment

  datatype CashFlow = CashFlow(date: Date, amount: Money, flowType: CashFlowType, description: string)
  {
    predicate IsPositive()
    {
      amount.IsPositive()
    }

    predicate IsNegative()
    {
      amount.IsNegative()
    }

    predicate IsZero()
    {
      amount.IsZero()
    }

    /** cf < other: flows are ordered by their dates alone. */
    predicate Less(other: CashFlow)
    {
      Before(date, other.date)
    }

    /** cf <= other, by date alone. */
    predicate LessOrEqual(other: CashFlow)
    {
      OnOrBefore(date, other.date)
    }
  }

  /** Exactly one of the sign predicates holds, decided by the amount's sign. */
  lemma ExactlyOneSign(cf: CashFlow)
    ensures cf.IsPositive() <==> cf.amount.amount > 0.0
    ensures cf.IsNegative() <==> cf.amount.amount < 0.0
    ensures cf.IsZero() <==> cf.amount.amount == 0.0
    ensures !(cf.IsPositive() && cf.IsNegative()) && !(cf.IsPositive() && cf.IsZero()) && !(cf.IsNegative() && cf.IsZero())
  {
  }

  /**
   * Two flows on the same date are neither before nor after each other,
   * yet each is <= the other, whatever their amounts and types.
   */
  lemma SameDateFlowsAreTied(a: CashFlow, b: CashFlow)
    requires a.date == b.date
    ensures !a.Less(b) && !b.Less(a)
    ensures a.LessOrEqual(b) && b.LessOrEqual(a)
  {
    Trichotomy(a.date, b.date);
  }

  /** The order on flows is the order on their dates: total, and consistent between < and <=. */
  lemma FlowOrderIsDateOrder(a: CashFlow, b: CashFlow)
    ensures a.Less(b) || b.Less(a) || (a.LessOrEqual(b) && b.LessOrEqual(a))
    ensures a.Less(b) ==> a.LessOrEqual(b) && !b.LessOrEqual(a)
  {
    Trichotomy(a.date, b.date);
  }

  /** The sum of the amounts of a sequence of flows. */
  function Sum(s: seq<CashFlow>): real
  {
    if s == [] then 0.0 else s[0].amount.amount + Sum(s[1..])
  }

  lemma {:induction false} SumAppend(a: seq<CashFlow>, b: seq<CashFlow>)
    ensures Sum(a + b) == Sum(a) + Sum(b)
  {
    if a != [] {
      assert (a + b)[0] == a[0];
      assert (a + b)[1..] == a[1..] + b;
      SumAppend(a[1..], b);
    } else {
      assert a + b == b;
    }
  }

  /** Changing one flow's amount changes the sum by the same difference. */
  lemma {:induction false} SumUpdate(s: seq<CashFlow>, i: nat, g: CashFlow)
    requires i < |s|
    ensures Sum(s[i := g]) == Sum(s) - s[i].amount.amount + g.amount.amount
  {
    if i > 0 {
      assert s[i := g][1..] == s[1..][i - 1 := g];
      SumUpdate(s[1..], i - 1, g);
    }
  }

  /** The flows of s that satisfy p, in their order in s. */
  function Filter(s: seq<CashFlow>, p: CashFlow -> bool): (r: seq<CashFlow>)
    ensures |r| <= |s|
  {
    if s == [] then []
    else (if p(s[0]) then [s[0]] else []) + Filter(s[1..], p)
  }

  /** Filter keeps exactly the flows of s that satisfy p. */
  lemma {:induction false} FilterMembers(s: seq<CashFlow>, p: CashFlow -> bool)
    ensures forall f :: f in Filter(s, p) <==> f in s && p(f)
  {
    if s != [] {
      FilterMembers(s[1..], p);
      assert s == [s[0]] + s[1..];
    }
  }

  /** Filtering commutes with concatenation, so the order of the kept flows is their order in s. */
  lemma {:induction false} FilterAppend(a: seq<CashFlow>, b: seq<CashFlow>, p: CashFlow -> bool)
    ensures Filter(a + b, p) == Filter(a, p) + Filter(b, p)
  {
    if a != [] {
      assert (a + b)[0] == a[0];
      assert (a + b)[1..] == a[1..] + b;
      FilterAppend(a[1..], b, p);
    } else {
      assert a + b == b;
    }
  }

  /** Filtering twice by the same test is filtering once. */
  lemma {:induction false} FilterTwice(s: seq<CashFlow>, p: CashFlow -> bool)
    ensures Filter(Filter(s, p), p) == Filter(s, p)
  {
    if s != [] {
      FilterTwice(s[1..], p);
      if p(s[0]) {
        assert ([s[0]] + Filter(s[1..], p))[1..] == Filter(s[1..], p);
      } else {
        assert Filter(s, p) == Filter(s[1..], p);
      }
    }
  }

  /** What a filter keeps and what it drops add up to the whole. */
  lemma {:induction false} SumSplits(s: seq<CashFlow>, p: CashFlow -> bool, q: CashFlow -> bool)
    requires forall f :: q(f) == !p(f)
    ensures Sum(s) == Sum(Filter(s, p)) + Sum(Filter(s, q))
  {
    if s != [] {
      SumSplits(s[1..], p, q);
      SumAppend(if p(s[0]) then [s[0]] else [], Filter(s[1..], p));
      SumAppend(if q(s[0]) then [s[0]] else [], Filter(s[1..], q));
    }
  }

  function OfType(t: CashFlowType): CashFlow -> bool
  {
    (f: CashFlow) => f.flowType == t
  }

  /** The principal view: principal, prepayment and balloon repayments. */
  predicate RepaysPrincipal(f: CashFlow)
  {
    f.flowType == Principal || f.flowType == Prepayment || f.flowType == Balloon
  }

  datatype CashFlowSchedule = CashFlowSchedule(flows: seq<CashFlow>)
  {
    static function Empty(): (s: CashFlowSchedule)
      ensures s.Length() == 0
    {
      CashFlowSchedule([])
    }

    /**
     * CashFlowSchedule.from_list(flows, sort): the flows as given, or in
     * chronological order (the default).
     */
    static function FromList(flows: seq<CashFlow>, sort: bool): (s: CashFlowSchedule)
      ensures multiset(s.flows) == multiset(flows)
      ensures !sort ==> s.flows == flows
      ensures sort ==> Chronological(s.flows, (f: CashFlow) => f.date)
    {
      if sort then CashFlowSchedule(SortByDate(flows, (f: CashFlow) => f.date))
      else CashFlowSchedule(flows)
    }

    function Length(): nat
    {
      |flows|
    }

    /** schedule.sort(): the same flows in chronological order, stable within a day. */
    function Sort(): (s: CashFlowSchedule)
      ensures multiset(s.flows) == multiset(flows)
      ensures Chronological(s.flows, (f: CashFlow) => f.date)
    {
      CashFlowSchedule(SortByDate(flows, (f: CashFlow) => f.date))
    }

    /** schedule.filter_by_type(t): exactly the flows of type t, in order. */
    function FilterByType(t: CashFlowType): (s: CashFlowSchedule)
      ensures forall f :: f in s.flows <==> f in flows && f.flowType == t
    {
      FilterMembers(flows, OfType(t));
      CashFlowSchedule(Filter(flows, OfType(t)))
    }

    function GetInterestFlows(): (s: CashFlowSchedule)
      ensures forall f :: f in s.flows <==> f in flows && f.flowType == Interest
    {
      FilterByType(Interest)
    }

    /** schedule.get_principal_flows(): every flow that repays principal, in order. */
    function GetPrincipalFlows(): (s: CashFlowSchedule)
      ensures forall f :: f in s.flows <==> f in flows && RepaysPrincipal(f)
    {
      FilterMembers(flows, RepaysPrincipal);
      CashFlowSchedule(Filter(flows, RepaysPrincipal))
    }

    /** schedule.filter_by_date_range(start, end): flows dated within [start, end]. */
    function FilterByDateRange(start: Date, end: Date): (s: CashFlowSchedule)
      ensures forall f :: f in s.flows <==> f in flows && OnOrBefore(start, f.date) && OnOrBefore(f.date, end)
    {
      FilterMembers(flows, (f: CashFlow) => OnOrBefore(start, f.date) && OnOrBefore(f.date, end));
      CashFlowSchedule(Filter(flows, (f: CashFlow) => OnOrBefore(start, f.date) && OnOrBefore(f.date, end)))
    }

    /** schedule.total_amount(): the sum of all amounts; zero when empty. */
    function TotalAmount(): (m: Money)
      ensures flows == [] ==> m.IsZero()
      ensures m.currency == USD
      ensures m.amount == Sum(flows)
    {
      Money(Sum(flows), USD)
    }

    /** schedule.sum_by_type(): the total of each type that occurs. */
    function SumByType(): (sums: map<CashFlowType, Money>)
      ensures forall t :: t in sums <==> exists f :: f in flows && f.flowType == t
      ensures forall t :: t in sums ==> sums[t] == FilterByType(t).TotalAmount()
    {
      map t | t in TypesIn(flows) :: FilterByType(t).TotalAmount()
    }

    /** schedule.earliest_date(): the first date, wherever it is stored; None when empty. */
    function EarliestDate(): (d: Option<Date>)
      ensures d.None? <==> flows == []
      ensures d.Some? ==> exists f :: f in flows && f.date == d.value
      ensures d.Some? ==> forall f :: f in flows ==> OnOrBefore(d.value, f.date)
    {
      if flows == [] then None else Some(MinDate(flows))
    }

    /** schedule.latest_date(): the last date, wherever it is stored; None when empty. */
    function LatestDate(): (d: Option<Date>)
      ensures d.None? <==> flows == []
      ensures d.Some? ==> exists f :: f in flows && f.date == d.value
      ensures d.Some? ==> forall f :: f in flows ==> OnOrBefore(f.date, d.value)
    {
      if flows == [] then None else Some(MaxDate(flows))
    }

    /** schedule.date_range(): (earliest, latest), or None when empty. */
    function DateRange(): (r: Option<(Date, Date)>)
      ensures r.None? <==> flows == []
      ensures r.Some? ==> r.value == (EarliestDate().value, LatestDate().value)
    {
      if flows == [] then None else Some((EarliestDate().value, LatestDate().value))
    }

    /**
     * schedule.aggregate_by_period(frequency): one flow per type and
     * payment period, dated at the period's first day and carrying the sum
     * of that type's flows in that period.
     */
    function AggregateByPeriod(freq: PaymentFrequency): (r: Result<CashFlowSchedule, ValidationError>)
      ensures r.Err? <==> freq.ZeroCoupon?
      ensures r.Err? ==> r.error == NotPeriodic
      ensures r.Ok? ==> r.value.flows == Aggregate(flows, freq)
    {
      if freq.ZeroCoupon? then Err(NotPeriodic) else Ok(CashFlowSchedule(Aggregate(flows, freq)))
    }
  }

  function TypesIn(flows: seq<CashFlow>): set<CashFlowType>
  {
    set f | f in flows :: f.flowType
  }

  function MinDate(s: seq<CashFlow>): (d: Date)
    requires s != []
    ensures exists f :: f in s && f.date == d
    ensures forall f :: f in s ==> OnOrBefore(d, f.date)
  {
    if |s| == 1 then s[0].date
    else
      var rest := MinDate(s[1..]);
      Trichotomy(s[0].date, rest);
      assert s == [s[0]] + s[1..];
      var d := if Before(rest, s[0].date) then rest else s[0].date;
      assert forall f :: f in s[1..] ==> OnOrBefore(d, f.date) by {
        forall f | f in s[1..] ensures OnOrBefore(d, f.date) {
          OnOrBeforeTransitive(d, rest, f.date);
        }
      }
      d
  }

  function MaxDate(s: seq<CashFlow>): (d: Date)
    requires s != []
    ensures exists f :: f in s && f.date == d
    ensures forall f :: f in s ==> OnOrBefore(f.date, d)
  {
    if |s| == 1 then s[0].date
    else
      var rest := MaxDate(s[1..]);
      Trichotomy(s[0].date, rest);
      assert s == [s[0]] + s[1..];
      var d := if Before(s[0].date, rest) then rest else s[0].date;
      assert forall f :: f in s[1..] ==> OnOrBefore(f.date, d) by {
        forall f | f in s[1..] ensures OnOrBefore(f.date, d) {
          OnOrBeforeTransitive(f.date, rest, d);
        }
      }
      d
  }

  /** The per-type totals add up to the total of all flows. */
  lemma {:induction false} TypeSumsAddUp(s: seq<CashFlow>)
    ensures Sum(s)
         == Sum(Filter(s, OfType(Interest))) + Sum(Filter(s, OfType(Principal)))
          + Sum(Filter(s, OfType(Balloon))) + Sum(Filter(s, OfType(Prepayment)))
  {
    if s != [] {
      TypeSumsAddUp(s[1..]);
      var a := s[0].amount.amount;
      var i := TypeSumStep(s, Interest);
      var p := TypeSumStep(s, Principal);
      var b := TypeSumStep(s, Balloon);
      var q := TypeSumStep(s, Prepayment);
      assert i + p + b + q == a;
    }
  }

  /** The first flow adds its amount to its own type's total and nothing to the others; returns that share. */
  lemma TypeSumStep(s: seq<CashFlow>, t: CashFlowType) returns (share: real)
    requires s != []
    ensures share == (if s[0].flowType == t then s[0].amount.amount else 0.0)
    ensures Sum(Filter(s, OfType(t))) == share + Sum(Filter(s[1..], OfType(t)))
  {
    share := if s[0].flowType == t then s[0].amount.amount else 0.0;
    SumAppend(if OfType(t)(s[0]) then [s[0]] else [], Filter(s[1..], OfType(t)));
  }

  /** sum_by_type() accounts for every flow: its totals add up to total_amount(). */
  lemma SumByTypeAddsUp(s: CashFlowSchedule)
    ensures s.TotalAmount().amount
         == s.FilterByType(Interest).TotalAmount().amount + s.FilterByType(Principal).TotalAmount().amount
          + s.FilterByType(Balloon).TotalAmount().amount + s.FilterByType(Prepayment).TotalAmount().amount
  {
    TypeSumsAddUp(s.flows);
  }

  /** Two filters in a row are one filter by both tests. */
  lemma {:induction false} FilterOfFilter(s: seq<CashFlow>, p: CashFlow -> bool, q: CashFlow -> bool)
    ensures Filter(Filter(s, p), q) == Filter(s, (f: CashFlow) => p(f) && q(f))
  {
    if s != [] {
      FilterOfFilter(s[1..], p, q);
      if p(s[0]) {
        assert ([s[0]] + Filter(s[1..], p))[1..] == Filter(s[1..], p);
      } else {
        assert Filter(s, p) == Filter(s[1..], p);
      }
    }
  }

  /** The principal view of a schedule sums principal, prepayment and balloon flows. */
  lemma PrincipalViewSum(s: CashFlowSchedule)
    ensures Sum(s.flows) == Sum(s.GetInterestFlows().flows) + Sum(s.GetPrincipalFlows().flows)
  {
    SumSplits(s.flows, OfType(Interest), RepaysPrincipal);
  }

  // Aggregation by payment period

  /** The first day of the payment period (of the given frequency) that holds d. */
  function PeriodStart(d: Date, freq: PaymentFrequency): (r: Date)
    requires !freq.ZeroCoupon?
    ensures r.year == d.year && r.day == 1
    ensures r.month <= d.month < r.month + MonthsPerPeriod(freq)
    ensures (r.month - 1) % MonthsPerPeriod(freq) == 0
  {
    var m := MonthsPerPeriod(freq);
    var month := (d.month - 1) / m * m + 1;
    assert 1 <= month <= d.month < month + m && (month - 1) % m == 0 by {
      assert m == 1 || m == 3 || m == 6 || m == 12;
    }
    Ymd(d.year, month, 1)
  }

  /**
   * Two dates share a period start exactly when they fall in the same year
   * and the same block of MonthsPerPeriod months counted from January.
   */
  lemma SamePeriodStart(d1: Date, d2: Date, freq: PaymentFrequency)
    requires !freq.ZeroCoupon?
    ensures PeriodStart(d1, freq) == PeriodStart(d2, freq)
        <==> d1.year == d2.year
             && (d1.month - 1) / MonthsPerPeriod(freq) == (d2.month - 1) / MonthsPerPeriod(freq)
  {
    var m := MonthsPerPeriod(freq);
    var q1, q2 := (d1.month - 1) / m, (d2.month - 1) / m;
    assert m == 1 || m == 3 || m == 6 || m == 12;
    assert PeriodStart(d1, freq).month == q1 * m + 1;
    assert PeriodStart(d2, freq).month == q2 * m + 1;
  }

  /** g is the group of flows of type t in the period starting on start. */
  predicate IsGroup(g: CashFlow, t: CashFlowType, start: Date)
  {
    g.flowType == t && g.date == start
  }

  /** Flow f has type t and falls in the period that starts on start. */
  predicate InGroup(f: CashFlow, t: CashFlowType, start: Date, freq: PaymentFrequency)
    requires !freq.ZeroCoupon?
  {
    f.flowType == t && PeriodStart(f.date, freq) == start
  }

  /** The sum of the flows in s of type t falling in the period that starts on start. */
  function GroupSum(s: seq<CashFlow>, t: CashFlowType, start: Date, freq: PaymentFrequency): real
    requires !freq.ZeroCoupon?
  {
    if s == [] then 0.0
    else
      var last := s[|s| - 1];
      GroupSum(s[..|s| - 1], t, start, freq)
        + (if InGroup(last, t, start, freq) then last.amount.amount else 0.0)
  }

  /** The position of the group for (t, start), or |groups| when there is none. */
  function FindGroup(groups: seq<CashFlow>, t: CashFlowType, start: Date): (i: nat)
    ensures i <= |groups|
    ensures i < |groups| ==> IsGroup(groups[i], t, start)
    ensures forall j :: 0 <= j < i ==> !IsGroup(groups[j], t, start)
  {
    if groups == [] then 0
    else if IsGroup(groups[0], t, start) then 0
    else 1 + FindGroup(groups[1..], t, start)
  }

  /** The group for a flow dated in the period starting on start, with the flow added. */
  function Grown(g: CashFlow, f: CashFlow): CashFlow
  {
    g.(amount := g.amount.Plus(f.amount))
  }

  /** Adds one flow to its period group, opening the group when it is new. */
  function AddToGroup(groups: seq<CashFlow>, f: CashFlow, start: Date): seq<CashFlow>
  {
    var i := FindGroup(groups, f.flowType, start);
    if i < |groups| then groups[i := Grown(groups[i], f)]
    else groups + [CashFlow(start, Money(f.amount.amount, USD), f.flowType, "")]
  }

  predicate DistinctGroups(groups: seq<CashFlow>)
  {
    forall i, j :: 0 <= i < j < |groups| ==> !IsGroup(groups[j], groups[i].flowType, groups[i].date)
  }

  /** Every group is dated at the start of its period. */
  predicate AtPeriodStarts(groups: seq<CashFlow>, freq: PaymentFrequency)
    requires !freq.ZeroCoupon?
  {
    forall i :: 0 <= i < |groups| ==> groups[i].date == PeriodStart(groups[i].date, freq)
  }

  /** Every group carries the exact sum of the flows of s in it. */
  predicate SumsMatch(groups: seq<CashFlow>, s: seq<CashFlow>, freq: PaymentFrequency)
    requires !freq.ZeroCoupon?
  {
    forall i :: 0 <= i < |groups| ==> groups[i].amount.amount == GroupSum(s, groups[i].flowType, groups[i].date, freq)
  }

  /** Every flow of s has its group. */
  predicate Covers(groups: seq<CashFlow>, s: seq<CashFlow>, freq: PaymentFrequency)
    requires !freq.ZeroCoupon?
  {
    forall k :: 0 <= k < |s| ==> FindGroup(groups, s[k].flowType, PeriodStart(s[k].date, freq)) < |groups|
  }

  /** Some flow of s has type t and falls in the period starting on start. */
  predicate HasFlow(s: seq<CashFlow>, t: CashFlowType, start: Date, freq: PaymentFrequency)
    requires !freq.ZeroCoupon?
  {
    exists k :: 0 <= k < |s| && InGroup(s[k], t, start, freq)
  }

  /** Every group holds at least one flow of s. */
  predicate Occupied(groups: seq<CashFlow>, s: seq<CashFlow>, freq: PaymentFrequency)
    requires !freq.ZeroCoupon?
  {
    forall i :: 0 <= i < |groups| ==> HasFlow(s, groups[i].flowType, groups[i].date, freq)
  }

  /** Adds each flow of s, in order, to its period group. */
  function GroupFlows(s: seq<CashFlow>, freq: PaymentFrequency): seq<CashFlow>
    requires !freq.ZeroCoupon?
  {
    if s == [] then []
    else
      var last := s[|s| - 1];
      AddToGroup(GroupFlows(s[..|s| - 1], freq), last, PeriodStart(last.date, freq))
  }

  /**
   * The grouping keeps one group per (type, period): every group carries
   * the exact sum of its flows, every flow has its group, every group
   * holds at least one flow, no group appears twice, and the groups add
   * up to the total of the flows.
   */
  lemma {:induction false} GroupFlowsProperties(s: seq<CashFlow>, freq: PaymentFrequency)
    requires !freq.ZeroCoupon?
    ensures var r := GroupFlows(s, freq);
            DistinctGroups(r) && AtPeriodStarts(r, freq) && SumsMatch(r, s, freq)
            && Covers(r, s, freq) && Occupied(r, s, freq) && Sum(r) == Sum(s)
  {
    if s != [] {
      var prefix := s[..|s| - 1];
      var last := s[|s| - 1];
      GroupFlowsProperties(prefix, freq);
      var groups := GroupFlows(prefix, freq);
      var start := PeriodStart(last.date, freq);
      SplitLast(s);
      StepKeepsDistinct(groups, last, start);
      StepKeepsPeriodStarts(groups, last, freq);
      StepKeepsSums(prefix, last, groups, freq);
      StepKeepsCover(prefix, last, groups, freq);
      StepKeepsOccupied(prefix, last, groups, freq);
      SumAddToGroup(groups, last, start);
      SumSnoc(prefix, last);
    }
  }

  /**
   * The aggregated flows, one per (type, period), in the order in which
   * each group first appears.
   */
  function Aggregate(s: seq<CashFlow>, freq: PaymentFrequency): (r: seq<CashFlow>)
    requires !freq.ZeroCoupon?
    ensures DistinctGroups(r)
    ensures AtPeriodStarts(r, freq)
    ensures SumsMatch(r, s, freq)
    ensures Covers(r, s, freq)
    ensures Occupied(r, s, freq)
    ensures Sum(r) == Sum(s)
  {
    GroupFlowsProperties(s, freq);
    GroupFlows(s, freq)
  }

  /** Grouping four flows adds them to their groups one after another. */
  lemma GroupFourFlows(f1: CashFlow, f2: CashFlow, f3: CashFlow, f4: CashFlow, freq: PaymentFrequency)
    requires !freq.ZeroCoupon?
    ensures GroupFlows([f1, f2, f3, f4], freq)
         == AddToGroup(AddToGroup(AddToGroup(AddToGroup([], f1, PeriodStart(f1.date, freq)),
              f2, PeriodStart(f2.date, freq)), f3, PeriodStart(f3.date, freq)), f4, PeriodStart(f4.date, freq))
  {
    var s1, s2, s3, s4 := [f1], [f1, f2], [f1, f2, f3], [f1, f2, f3, f4];
    assert s1[..0] == [] && s2[..1] == s1 && s3[..2] == s2 && s4[..3] == s3;
    assert GroupFlows(s1, freq) == AddToGroup([], f1, PeriodStart(f1.date, freq));
    assert GroupFlows(s2, freq) == AddToGroup(GroupFlows(s1, freq), f2, PeriodStart(f2.date, freq));
    assert GroupFlows(s3, freq) == AddToGroup(GroupFlows(s2, freq), f3, PeriodStart(f3.date, freq));
  }

  /**
   * Two January PRINCIPAL flows, one January INTEREST flow and one
   * February PRINCIPAL flow aggregate monthly to three groups: January
   * PRINCIPAL holding the sum of the first two (200 when every amount
   * is 100), January INTEREST and February PRINCIPAL.
   */
  lemma AggregateExample(a: real, b: real, c: real, d: real)
    ensures Aggregate([CashFlow(Ymd(2025, 1, 5), Money(a, USD), Principal, ""),
                       CashFlow(Ymd(2025, 1, 15), Money(b, USD), Principal, ""),
                       CashFlow(Ymd(2025, 1, 25), Money(c, USD), Interest, ""),
                       CashFlow(Ymd(2025, 2, 5), Money(d, USD), Principal, "")], Monthly)
         == [CashFlow(Ymd(2025, 1, 1), Money(a + b, USD), Principal, ""),
             CashFlow(Ymd(2025, 1, 1), Money(c, USD), Interest, ""),
             CashFlow(Ymd(2025, 2, 1), Money(d, USD), Principal, "")]
  {
    GroupExample(a, b, c, d);
  }

  /** The grouping behind the monthly aggregation of the four example flows. */
  lemma GroupExample(a: real, b: real, c: real, d: real)
    ensures GroupFlows([CashFlow(Ymd(2025, 1, 5), Money(a, USD), Principal, ""),
                        CashFlow(Ymd(2025, 1, 15), Money(b, USD), Principal, ""),
                        CashFlow(Ymd(2025, 1, 25), Money(c, USD), Interest, ""),
                        CashFlow(Ymd(2025, 2, 5), Money(d, USD), Principal, "")], Monthly)
         == [CashFlow(Ymd(2025, 1, 1), Money(a + b, USD), Principal, ""),
             CashFlow(Ymd(2025, 1, 1), Money(c, USD), Interest, ""),
             CashFlow(Ymd(2025, 2, 1), Money(d, USD), Principal, "")]
  {
    var cf1 := CashFlow(Ymd(2025, 1, 5), Money(a, USD), Principal, "");
    var cf2 := CashFlow(Ymd(2025, 1, 15), Money(b, USD), Principal, "");
    var cf3 := CashFlow(Ymd(2025, 1, 25), Money(c, USD), Interest, "");
    var cf4 := CashFlow(Ymd(2025, 2, 5), Money(d, USD), Principal, "");
    GroupFourFlows(cf1, cf2, cf3, cf4, Monthly);
    ExamplePeriodStarts();
    GroupExampleFlows(cf1, cf2, cf3, cf4);
  }

  /** The months of the four example dates start on the 1st of January and of February. */
  lemma ExamplePeriodStarts()
    ensures PeriodStart(Ymd(2025, 1, 5), Monthly) == Ymd(2025, 1, 1)
    ensures PeriodStart(Ymd(2025, 1, 15), Monthly) == Ymd(2025, 1, 1)
    ensures PeriodStart(Ymd(2025, 1, 25), Monthly) == Ymd(2025, 1, 1)
    ensures PeriodStart(Ymd(2025, 2, 5), Monthly) == Ymd(2025, 2, 1)
  {
  }

  /** The groups the four example flows build up, one flow at a time. */
  lemma GroupExampleFlows(cf1: CashFlow, cf2: CashFlow, cf3: CashFlow, cf4: CashFlow)
    requires cf1.flowType == Principal && cf2.flowType == Principal
    requires cf3.flowType == Interest && cf4.flowType == Principal
    requires cf1.amount.currency == USD
    ensures var jan: Date := Ymd(2025, 1, 1);
            var feb: Date := Ymd(2025, 2, 1);
            AddToGroup(AddToGroup(AddToGroup(AddToGroup([], cf1, jan), cf2, jan), cf3, jan), cf4, feb)
            == [CashFlow(jan, Money(cf1.amount.amount + cf2.amount.amount, USD), Principal, ""),
                CashFlow(jan, Money(cf3.amount.amount, USD), Interest, ""),
                CashFlow(feb, Money(cf4.amount.amount, USD), Principal, "")]
  {
    var jan: Date := Ymd(2025, 1, 1);
    var feb: Date := Ymd(2025, 2, 1);
    var g1 := CashFlow(jan, Money(cf1.amount.amount, USD), Principal, "");
    var g1b := CashFlow(jan, Money(cf1.amount.amount + cf2.amount.amount, USD), Principal, "");
    var g2 := CashFlow(jan, Money(cf3.amount.amount, USD), Interest, "");
    AddToNewGroup([], cf1, jan);
    assert [] + [g1] == [g1];
    AddToFoundGroup([g1], cf2, jan, 0);
    AddToNewGroup([g1b], cf3, jan);
    AddToNewGroup([g1b, g2], cf4, feb);
  }

  /** A flow with no group yet opens a new group at the end. */
  lemma AddToNewGroup(groups: seq<CashFlow>, f: CashFlow, start: Date)
    requires forall j :: 0 <= j < |groups| ==> !IsGroup(groups[j], f.flowType, start)
    ensures AddToGroup(groups, f, start) == groups + [CashFlow(start, Money(f.amount.amount, USD), f.flowType, "")]
  {
  }

  /** A flow whose group is at position i is added to that group. */
  lemma AddToFoundGroup(groups: seq<CashFlow>, f: CashFlow, start: Date, i: nat)
    requires i < |groups| && IsGroup(groups[i], f.flowType, start)
    requires forall j :: 0 <= j < i ==> !IsGroup(groups[j], f.flowType, start)
    ensures AddToGroup(groups, f, start) == groups[i := Grown(groups[i], f)]
  {
    var k := FindGroup(groups, f.flowType, start);
    assert !(k < i) && !(i < k);
  }

  lemma StepKeepsOccupied(prefix: seq<CashFlow>, last: CashFlow, groups: seq<CashFlow>, freq: PaymentFrequency)
    requires !freq.ZeroCoupon?
    requires Occupied(groups, prefix, freq)
    ensures Occupied(AddToGroup(groups, last, PeriodStart(last.date, freq)), prefix + [last], freq)
  {
    var s := prefix + [last];
    var start := PeriodStart(last.date, freq);
    var r := AddToGroup(groups, last, start);
    forall j | 0 <= j < |r|
      ensures HasFlow(s, r[j].flowType, r[j].date, freq)
    {
      if j < |groups| {
        assert r[j].flowType == groups[j].flowType && r[j].date == groups[j].date;
        var k :| 0 <= k < |prefix| && InGroup(prefix[k], groups[j].flowType, groups[j].date, freq);
        assert s[k] == prefix[k];
      } else {
        assert s[|prefix|] == last;
        assert InGroup(s[|prefix|], r[j].flowType, r[j].date, freq);
      }
    }
  }

  lemma StepKeepsDistinct(groups: seq<CashFlow>, f: CashFlow, start: Date)
    requires DistinctGroups(groups)
    ensures DistinctGroups(AddToGroup(groups, f, start))
  {
    var i := FindGroup(groups, f.flowType, start);
    var r := AddToGroup(groups, f, start);
    if i == |groups| {
      forall a, b | 0 <= a < b < |r| ensures !IsGroup(r[b], r[a].flowType, r[a].date) {
        if b == |groups| {
          assert !IsGroup(groups[a], f.flowType, start);
        }
      }
    }
  }

  lemma StepKeepsPeriodStarts(groups: seq<CashFlow>, f: CashFlow, freq: PaymentFrequency)
    requires !freq.ZeroCoupon?
    requires AtPeriodStarts(groups, freq)
    ensures AtPeriodStarts(AddToGroup(groups, f, PeriodStart(f.date, freq)), freq)
  {
    var start := PeriodStart(f.date, freq);
    PeriodStartFixed(f.date, freq);
    var i := FindGroup(groups, f.flowType, start);
    var r := AddToGroup(groups, f, start);
    if i < |groups| {
      assert forall j :: 0 <= j < |r| ==> r[j].date == groups[j].date;
    } else {
      assert forall j :: 0 <= j < |groups| ==> r[j] == groups[j];
      assert r[|groups|].date == start;
    }
  }

  /** A period start is its own period start. */
  lemma PeriodStartFixed(d: Date, freq: PaymentFrequency)
    requires !freq.ZeroCoupon?
    ensures PeriodStart(PeriodStart(d, freq), freq) == PeriodStart(d, freq)
  {
    var q := (d.month - 1) / MonthsPerPeriod(freq);
    match freq
    case Monthly =>
    case Quarterly => assert (q * 3) / 3 == q;
    case SemiAnnual => assert (q * 6) / 6 == q;
    case Annual => assert (q * 12) / 12 == q;
  }

  lemma StepKeepsSums(prefix: seq<CashFlow>, last: CashFlow, groups: seq<CashFlow>, freq: PaymentFrequency)
    requires !freq.ZeroCoupon?
    requires DistinctGroups(groups)
    requires SumsMatch(groups, prefix, freq)
    requires Covers(groups, prefix, freq)
    ensures SumsMatch(AddToGroup(groups, last, PeriodStart(last.date, freq)), prefix + [last], freq)
  {
    var s := prefix + [last];
    var start := PeriodStart(last.date, freq);
    var r := AddToGroup(groups, last, start);
    assert s[..|s| - 1] == prefix;
    assert s[|s| - 1] == last;
    var i := FindGroup(groups, last.flowType, start);
    forall j | 0 <= j < |r|
      ensures r[j].amount.amount == GroupSum(s, r[j].flowType, r[j].date, freq)
    {
      if i < |groups| && j == i {
        assert InGroup(last, r[j].flowType, r[j].date, freq);
        assert GroupSum(s, r[j].flowType, r[j].date, freq)
            == GroupSum(prefix, groups[i].flowType, groups[i].date, freq) + last.amount.amount;
      } else if i < |groups| {
        assert r[j] == groups[j];
        assert !IsGroup(groups[j], last.flowType, start) by {
          if j > i {
            assert !IsGroup(groups[j], groups[i].flowType, groups[i].date);
          }
        }
        assert !InGroup(last, r[j].flowType, r[j].date, freq);
      } else if j < |groups| {
        assert r[j] == groups[j];
        assert !InGroup(last, r[j].flowType, r[j].date, freq);
      } else {
        NoGroupNoSum(prefix, groups, last.flowType, start, freq);
        assert InGroup(last, r[j].flowType, r[j].date, freq);
      }
    }
  }

  lemma StepKeepsCover(prefix: seq<CashFlow>, last: CashFlow, groups: seq<CashFlow>, freq: PaymentFrequency)
    requires !freq.ZeroCoupon?
    requires Covers(groups, prefix, freq)
    ensures Covers(AddToGroup(groups, last, PeriodStart(last.date, freq)), prefix + [last], freq)
  {
    var s := prefix + [last];
    var start := PeriodStart(last.date, freq);
    var r := AddToGroup(groups, last, start);
    var i := FindGroup(groups, last.flowType, start);
    forall k | 0 <= k < |s|
      ensures FindGroup(r, s[k].flowType, PeriodStart(s[k].date, freq)) < |r|
    {
      var t := s[k].flowType;
      var st := PeriodStart(s[k].date, freq);
      if i < |groups| {
        var m := FindGroup(groups, t, st);
        if k < |prefix| {
          assert s[k] == prefix[k];
        } else {
          assert m <= i;
        }
        FindGroupAfterUpdate(groups, i, Grown(groups[i], last), t, st);
      } else {
        if k < |prefix| {
          assert s[k] == prefix[k];
        }
        FindGroupAfterAppend(groups, r[|groups|], t, st);
      }
    }
  }

  /** Replacing a group's amount does not move any group. */
  lemma FindGroupAfterUpdate(groups: seq<CashFlow>, i: nat, g: CashFlow, t: CashFlowType, start: Date)
    requires i < |groups| && g.flowType == groups[i].flowType && g.date == groups[i].date
    ensures FindGroup(groups[i := g], t, start) == FindGroup(groups, t, start)
  {
    var r := groups[i := g];
    var m := FindGroup(groups, t, start);
    assert forall j :: 0 <= j < |r| ==> (IsGroup(r[j], t, start) <==> IsGroup(groups[j], t, start));
    assert m < |groups| ==> IsGroup(r[m], t, start);
    assert forall j :: 0 <= j < m ==> !IsGroup(r[j], t, start);
  }

  /** Appending a group does not move the groups already there, and the new one is found. */
  lemma FindGroupAfterAppend(groups: seq<CashFlow>, g: CashFlow, t: CashFlowType, start: Date)
    requires FindGroup(groups, t, start) < |groups| || IsGroup(g, t, start)
    ensures FindGroup(groups + [g], t, start) < |groups| + 1
  {
    var m := FindGroup(groups, t, start);
    var r := groups + [g];
    if m < |groups| {
      assert IsGroup(r[m], t, start);
    } else {
      assert IsGroup(r[|groups|], t, start);
    }
  }

  /** A (type, period) that has no group has no flows, so its sum is zero. */
  lemma {:induction false} NoGroupNoSum(s: seq<CashFlow>, groups: seq<CashFlow>, t: CashFlowType, start: Date, freq: PaymentFrequency)
    requires !freq.ZeroCoupon?
    requires FindGroup(groups, t, start) == |groups|
    requires Covers(groups, s, freq)
    ensures GroupSum(s, t, start, freq) == 0.0
  {
    if s != [] {
      var prefix := s[..|s| - 1];
      assert forall k :: 0 <= k < |prefix| ==> prefix[k] == s[k];
      NoGroupNoSum(prefix, groups, t, start, freq);
      var last := s[|s| - 1];
      assert FindGroup(groups, last.flowType, PeriodStart(last.date, freq)) < |groups|;
      assert !InGroup(last, t, start, freq);
    }
  }

  /** A non-empty sequence is its prefix followed by its last element. */
  lemma SplitLast(s: seq<CashFlow>)
    requires s != []
    ensures s == s[..|s| - 1] + [s[|s| - 1]]
  {
  }

  lemma SumSnoc(prefix: seq<CashFlow>, last: CashFlow)
    ensures Sum(prefix + [last]) == Sum(prefix) + last.amount.amount
  {
    SumAppend(prefix, [last]);
    assert Sum([last]) == last.amount.amount + Sum([]);
  }

  /** Adding a flow to its group adds its amount to the groups' total. */
  lemma SumAddToGroup(groups: seq<CashFlow>, f: CashFlow, start: Date)
    ensures Sum(AddToGroup(groups, f, start)) == Sum(groups) + f.amount.amount
  {
    var i := FindGroup(groups, f.flowType, start);
    if i < |groups| {
      SumUpdate(groups, i, Grown(groups[i], f));
    } else {
      var g := CashFlow(start, Money(f.amount.amount, USD), f.flowType, "");
      SumAppend(groups, [g]);
      assert Sum([g]) == g.amount.amount + Sum([]);
    }
  }
}
