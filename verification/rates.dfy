/**
 * Interest rates (a fraction with a compounding convention) and spreads
 * (an offset in basis points). A rate carries no sign invariant of its
 * own: a negative rate can be built, and it is the loan and the payment
 * formula that refuse one.
 */
module Rates {
  import opened Wrappers
  import opened Decimals

  datatype CompoundingConvention = Simple | Annual | SemiAnnual | Quarterly | Monthly

  /** Compounding periods per year; Simple has none. */
  function PeriodsPerYear(c: CompoundingConvention): (m: nat)
    ensures c.Simple? <==> m == 0
  {
    match c
    case Simple => 0
    case Annual => 1
    case SemiAnnual => 2
    case Quarterly => 4
    case Monthly => 12
  }

  /** x as a count of whole periods, when it is one. */
  function WholeCount(x: real): (n: Option<nat>)
    ensures n.Some? <==> x >= 0.0 && x.Floor as real == x
    ensures n.Some? ==> n.value as real == x
  {
    if x >= 0.0 && x.Floor as real == x then Some(x.Floor) else None
  }

  /** The convention a rate gets when none is given. */
  const DefaultCompounding: CompoundingConvention := Monthly

  datatype InterestRate = InterestRate(rate: real, compounding: CompoundingConvention)
  {
    /** InterestRate.from_percent(p): 5.25 percent is the fraction 0.0525. */
    static function FromPercent(percent: real, compounding: CompoundingConvention): InterestRate
    {
      InterestRate(percent / 100.0, compounding)
    }

    /** InterestRate.from_basis_points(bp): 525 basis points is 0.0525. */
    static function FromBasisPoints(bps: real, compounding: CompoundingConvention): InterestRate
    {
      InterestRate(bps / 10000.0, compounding)
    }

    function ToPercent(): real
    {
      rate * 100.0
    }

    function ToBasisPoints(): real
    {
      rate * 10000.0
    }

    /**
     * Growth of one unit over t years. Simple interest grows linearly; a
     * periodic convention compounds m times a year. Only horizons covering
     * a whole number of compounding periods are modelled (a fractional
     * power has no exact decimal value); any other horizon gives None.
     */
    function CompoundFactor(t: real): (f: Option<real>)
      ensures compounding.Simple? ==> f == Some(1.0 + rate * t)
      ensures !compounding.Simple? ==>
        (f.Some? <==> WholeCount(t * PeriodsPerYear(compounding) as real).Some?)
    {
      if compounding.Simple? then Some(1.0 + rate * t)
      else
        var m := PeriodsPerYear(compounding) as real;
        match WholeCount(t * m)
        case Some(n) => Some(Pow(1.0 + rate / m, n))
        case None => None
    }

    /** Present value of one unit due in t years: the reciprocal of the growth. */
    function DiscountFactor(t: real): (d: Option<real>)
      ensures d.Some? <==> CompoundFactor(t).Some? && CompoundFactor(t).value != 0.0
      ensures d.Some? ==> d.value * CompoundFactor(t).value == 1.0
    {
      match CompoundFactor(t)
      case Some(f) => if f != 0.0 then Some(1.0 / f) else None
      case None => None
    }
  }

  /** Percent and fraction convert into each other without loss. */
  lemma PercentRoundTrip(p: real, r: InterestRate)
    ensures InterestRate.FromPercent(p, r.compounding).ToPercent() == p
    ensures InterestRate.FromPercent(r.ToPercent(), r.compounding) == r
  {
  }

  /** Basis points and fraction convert into each other without loss. */
  lemma BasisPointsRoundTrip(bp: real, r: InterestRate)
    ensures InterestRate.FromBasisPoints(bp, r.compounding).ToBasisPoints() == bp
    ensures InterestRate.FromBasisPoints(r.ToBasisPoints(), r.compounding) == r
    ensures InterestRate.FromBasisPoints(bp, r.compounding) == InterestRate.FromPercent(bp / 100.0, r.compounding)
  {
  }

  /** A periodic rate over a whole number of years compounds m*t times at r/m. */
  lemma {:induction false} PeriodicCompoundFactor(r: InterestRate, years: nat)
    requires !r.compounding.Simple?
    ensures r.CompoundFactor(years as real)
         == Some(Pow(1.0 + r.rate / PeriodsPerYear(r.compounding) as real, years * PeriodsPerYear(r.compounding)))
  {
    var m := PeriodsPerYear(r.compounding);
    assert years as real * m as real == (years * m) as real;
    assert ((years * m) as real).Floor == years * m;
    assert WholeCount(years as real * m as real) == Some(years * m);
  }

  /** A non-negative rate never shrinks money over a non-negative horizon. */
  lemma CompoundFactorAtLeastOne(r: InterestRate, t: real)
    requires r.rate >= 0.0 && t >= 0.0
    requires r.CompoundFactor(t).Some?
    ensures r.CompoundFactor(t).value >= 1.0
    ensures r.DiscountFactor(t).Some? && 0.0 < r.DiscountFactor(t).value <= 1.0
  {
    if r.compounding.Simple? {
      assert r.rate * t >= 0.0;
    } else {
      var m := PeriodsPerYear(r.compounding) as real;
      assert r.rate / m >= 0.0;
      PowAtLeastOne(1.0 + r.rate / m, WholeCount(t * m).value);
    }
  }

  /** Simple interest: 5 percent over 2 years grows one unit to 1.10. */
  lemma SimpleCompoundExample()
    ensures InterestRate.FromPercent(5.0, Simple).CompoundFactor(2.0) == Some(1.10)
  {
  }

  /** A spread over a base rate, in basis points (hundredths of a percent). */
  datatype Spread = Spread(basisPoints: real)
  {
    static function FromBps(bps: real): Spread
    {
      Spread(bps)
    }

    static function FromPercent(percent: real): Spread
    {
      Spread(percent * 100.0)
    }

    static function FromDecimal(fraction: real): Spread
    {
      Spread(fraction * 10000.0)
    }

    function ToDecimal(): real
    {
      basisPoints / 10000.0
    }

    function ToPercent(): real
    {
      basisPoints / 100.0
    }

    /** spread.apply_to(rate): the base rate moved by the spread, same compounding. */
    function ApplyTo(base: InterestRate): (r: InterestRate)
      ensures r.compounding == base.compounding
      ensures r.ToBasisPoints() == base.ToBasisPoints() + basisPoints
    {
      InterestRate(base.rate + ToDecimal(), base.compounding)
    }

    function Plus(other: Spread): Spread
    {
      Spread(basisPoints + other.basisPoints)
    }

    function Minus(other: Spread): Spread
    {
      Spread(basisPoints - other.basisPoints)
    }

    function Times(k: real): Spread
    {
      Spread(basisPoints * k)
    }

    function Negated(): Spread
    {
      Spread(-basisPoints)
    }

    predicate Less(other: Spread)
    {
      basisPoints < other.basisPoints
    }
  }

  /** The three constructors agree, and the two conversions invert them. */
  lemma SpreadConversions(x: real)
    ensures Spread.FromPercent(x) == Spread.FromBps(x * 100.0)
    ensures Spread.FromDecimal(x) == Spread.FromPercent(x * 100.0)
    ensures Spread.FromDecimal(x).ToDecimal() == x
    ensures Spread.FromPercent(x).ToPercent() == x
    ensures Spread.FromBps(x).ToPercent() * 100.0 == x
  {
  }

  /** 250 bps, 2.5 percent and 0.025 are one spread; it moves 5 percent to 7.5. */
  lemma SpreadExample()
    ensures Spread.FromPercent(2.5) == Spread.FromBps(250.0)
    ensures Spread.FromDecimal(0.025) == Spread.FromBps(250.0)
    ensures Spread.FromBps(250.0).ApplyTo(InterestRate.FromPercent(5.0, DefaultCompounding)).ToPercent() == 7.5
  {
  }

  /** Applying two spreads in turn is applying their sum; a spread and its negation cancel. */
  lemma SpreadAlgebra(s: Spread, t: Spread, base: InterestRate)
    ensures t.ApplyTo(s.ApplyTo(base)) == s.Plus(t).ApplyTo(base)
    ensures s.Negated().ApplyTo(s.ApplyTo(base)) == base
    ensures s.Plus(t).Minus(t) == s
    ensures s.Negated().Negated() == s && s.Plus(s.Negated()).basisPoints == 0.0
    ensures s.Times(2.0) == s.Plus(s)
  {
  }

  /** Spreads are totally ordered by their basis points. */
  lemma SpreadOrder(s: Spread, t: Spread)
    ensures s.Less(t) || s == t || t.Less(s)
    ensures !(s.Less(t) && t.Less(s))
    ensures s.Less(t) <==> t.Negated().Less(s.Negated())
  {
  }
}
