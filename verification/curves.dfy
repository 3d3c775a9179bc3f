/**
 * Discount curves, as far as their inputs and the valuation date go: a
 * zero curve validates its points, and no curve discounts a flow dated
 * on or before the valuation date.
 */
module Curves {
  import opened Wrappers
  import opened Errors
  import opened Dates
  import opened Monetary
  import opened Sorting
  import opened CashFlows

  /** A zero curve: (date, zero rate) points after the valuation date, in strictly increasing date order. */
  datatype ZeroCurve = ZeroCurve(valuationDate: Date, points: seq<(Date, real)>)

  predicate StrictlyChronological(points: seq<(Date, real)>)
  {
    forall i :: 0 <= i < |points| - 1 ==> Before(points[i].0, points[i + 1].0)
  }

  /** ZeroCurve(valuation_date, points): the checks the constructor makes, in order. */
  function NewZeroCurve(valuationDate: Date, points: seq<(Date, real)>): (r: Result<ZeroCurve, ValidationError>)
    ensures r.Ok? <==> points != [] && StrictlyChronological(points)
                       && forall p :: p in points ==> Before(valuationDate, p.0)
    ensures r.Ok? ==> r.value == ZeroCurve(valuationDate, points)
    ensures points == [] ==> r == Err(CurveEmpty)
    ensures points != [] && !StrictlyChronological(points) ==> r == Err(CurveNotChronological)
    ensures points != [] && StrictlyChronological(points) && (exists p :: p in points && !Before(valuationDate, p.0))
            ==> r == Err(CurvePointNotAfterValuation)
  {
    if points == [] then Err(CurveEmpty)
    else if !StrictlyChronological(points) then Err(CurveNotChronological)
    else if exists p :: p in points && !Before(valuationDate, p.0) then Err(CurvePointNotAfterValuation)
    else Ok(ZeroCurve(valuationDate, points))
  }

  /** ZeroCurve.from_rates(valuation_date, rates): sorts the points by date, then validates. */
  function FromRates(valuationDate: Date, rates: seq<(Date, real)>): (r: Result<ZeroCurve, ValidationError>)
    ensures r.Ok? ==> multiset(r.value.points) == multiset(rates)
    ensures r.Ok? ==> Chronological(r.value.points, (p: (Date, real)) => p.0)
    ensures r.Ok? <==> rates != [] && StrictlyChronological(SortByDate(rates, (p: (Date, real)) => p.0))
                       && forall p :: p in rates ==> Before(valuationDate, p.0)
  {
    var sorted := SortByDate(rates, (p: (Date, real)) => p.0);
    assert forall p :: p in sorted <==> p in rates by {
      forall p ensures p in sorted <==> p in rates {
        assert p in sorted <==> p in multiset(sorted);
        assert p in rates <==> p in multiset(rates);
      }
    }
    NewZeroCurve(valuationDate, sorted)
  }

  /** A strictly chronological list has no two points on the same date. */
  lemma {:induction false} ChronologicalDatesDistinct(points: seq<(Date, real)>, i: nat, j: nat)
    requires StrictlyChronological(points)
    requires i < j < |points|
    ensures Before(points[i].0, points[j].0)
    decreases j - i
  {
    if i + 1 < j {
      ChronologicalDatesDistinct(points, i + 1, j);
      BeforeTransitive(points[i].0, points[i + 1].0, points[j].0);
    }
  }

  /** The library's validation examples: empty, out of order, before the valuation date. */
  lemma ValidationExamples(rate: real, rate2: real)
    ensures NewZeroCurve(Ymd(2024, 1, 1), []) == Err(CurveEmpty)
    ensures NewZeroCurve(Ymd(2024, 1, 1), [(Ymd(2026, 1, 1), rate), (Ymd(2025, 1, 1), rate2)]) == Err(CurveNotChronological)
    ensures FromRates(Ymd(2024, 1, 1), [(Ymd(2023, 1, 1), rate)]) == Err(CurvePointNotAfterValuation)
  {
    var unordered: seq<(Date, real)> := [(Ymd(2026, 1, 1), rate), (Ymd(2025, 1, 1), rate2)];
    assert !Before(unordered[0].0, unordered[1].0);
    var points: seq<(Date, real)> := [(Ymd(2023, 1, 1), rate)];
    var sorted := SortByDate(points, (p: (Date, real)) => p.0);
    assert |sorted| == 1 && multiset(sorted) == multiset(points);
    assert sorted[0] in multiset(points);
    assert sorted == points;
  }

  /**
   * The discount factor of a flat or zero curve for a date on or before
   * its valuation date: exactly 1. Later dates need a fractional power of
   * the rate and are not modelled (None).
   */
  function DiscountFactor(valuationDate: Date, d: Date): (df: Option<real>)
    ensures OnOrBefore(d, valuationDate) <==> df == Some(1.0)
  {
    if OnOrBefore(d, valuationDate) then Some(1.0) else None
  }

  /** cash_flow.present_value(curve): the amount times the discount factor. */
  function PresentValue(cf: CashFlow, valuationDate: Date): (pv: Option<Money>)
    ensures pv.Some? <==> OnOrBefore(cf.date, valuationDate)
    ensures pv.Some? ==> pv.value == cf.amount
  {
    match DiscountFactor(valuationDate, cf.date)
    case Some(df) => Some(cf.amount.Times(df))
    case None => None
  }

  /** A flow dated on or before the valuation date is not discounted. */
  lemma PastFlowsAreNotDiscounted(cf: CashFlow, valuationDate: Date)
    requires OnOrBefore(cf.date, valuationDate)
    ensures PresentValue(cf, valuationDate) == Some(cf.amount)
  {
  }
}
