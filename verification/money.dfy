/**
 * Money: an exact decimal amount in a currency. Arithmetic is exact;
 * only Round() moves an amount to the currency's minor unit.
 */
module Monetary {
  import opened Wrappers
  import opened Errors
  import opened Decimals

  /** The one currency the library ships, US dollars with 2 minor digits. */
  datatype Currency = USD
  {
    function DecimalPlaces(): nat
    {
      2
    }
  }

  datatype Money = Money(amount: real, currency: Currency)
  {
    /** Money.zero(): nothing, in the default currency. */
    static function Zero(): (z: Money)
      ensures z.IsZero() && z.currency == USD
    {
      Money(0.0, USD)
    }

    /** Money.from_string(s): a decimal literal in the default currency. */
    static function FromString(s: string): (r: Result<Money, ValidationError>)
      ensures r.Ok? <==> DecimalLiteral(s)
      ensures r.Ok? ==> r.value.currency == USD && r.value.amount == ParseDecimal(s).value
      ensures r.Err? ==> r.error == InvalidDecimal
    {
      ParseAcceptsLiterals(s);
      match ParseDecimal(s)
      case Some(v) => Ok(Money(v, USD))
      case None => Err(InvalidDecimal)
    }

    predicate IsPositive()
    {
      amount > 0.0
    }

    predicate IsNegative()
    {
      amount < 0.0
    }

    predicate IsZero()
    {
      amount == 0.0
    }

    /** self + other */
    function Plus(other: Money): Money
    {
      Money(amount + other.amount, currency)
    }

    /** self - other */
    function Minus(other: Money): Money
    {
      Money(amount - other.amount, currency)
    }

    /** self * k and k * self (__mul__ and __rmul__ are the same product). */
    function Times(k: real): Money
    {
      Money(amount * k, currency)
    }

    /** self / k, exact; Decimal refuses a zero divisor. */
    function DividedBy(k: real): Money
      requires k != 0.0
    {
      Money(amount / k, currency)
    }

    /** -self */
    function Negated(): Money
    {
      Money(-amount, currency)
    }

    /** abs(self) */
    function Abs(): (r: Money)
      ensures !r.IsNegative()
      ensures r.amount == amount || r.amount == -amount
      ensures r.currency == currency
    {
      if amount < 0.0 then Negated() else this
    }

    predicate Less(other: Money)
    {
      amount < other.amount
    }

    predicate LessOrEqual(other: Money)
    {
      amount <= other.amount
    }

    /** Money.round(): the nearest whole number of minor units, ties to even. */
    function Round(): (r: Money)
      ensures r.currency == currency
      ensures r.amount * Scale(currency.DecimalPlaces()) == RoundToUnits(amount, currency.DecimalPlaces()) as real
      ensures -0.5 <= (r.amount - amount) * Scale(currency.DecimalPlaces()) <= 0.5
    {
      Money(RoundHalfEven(amount, currency.DecimalPlaces()), currency)
    }
  }

  /** Subtraction undoes addition, and the reverse. */
  lemma PlusMinusInverse(m: Money, n: Money)
    ensures m.Plus(n).Minus(n) == m
    ensures m.Minus(n).Plus(n) == m
  {
  }

  /** Scaling by a non-zero factor is undone by dividing by it. */
  lemma TimesDividedByInverse(m: Money, k: real)
    requires k != 0.0
    ensures m.Times(k).DividedBy(k) == m
    ensures m.DividedBy(k).Times(k) == m
  {
  }

  /** Negation is its own inverse and turns the sign around. */
  lemma NegationFlipsSign(m: Money)
    ensures m.Negated().Negated() == m
    ensures m.IsPositive() <==> m.Negated().IsNegative()
    ensures m.IsNegative() ==> m.Abs() == m.Negated()
    ensures !m.IsNegative() ==> m.Abs() == m
  {
  }

  /** Exactly one of the three sign predicates holds. */
  lemma ExactlyOneSign(m: Money)
    ensures m.IsPositive() || m.IsNegative() || m.IsZero()
    ensures !(m.IsPositive() && m.IsNegative())
    ensures !(m.IsPositive() && m.IsZero())
    ensures !(m.IsNegative() && m.IsZero())
  {
  }

  /** The comparisons are a total order on amounts and agree with each other. */
  lemma ComparisonsAgree(m: Money, n: Money, p: Money)
    ensures m.LessOrEqual(n) <==> m.Less(n) || m.amount == n.amount
    ensures m.Less(n) || m.amount == n.amount || n.Less(m)
    ensures !(m.Less(n) && n.Less(m))
    ensures m.LessOrEqual(n) && n.LessOrEqual(m) ==> m.amount == n.amount
    ensures m.Less(n) && n.Less(p) ==> m.Less(p)
  {
  }

  /** Rounding twice is rounding once. */
  lemma RoundTwice(m: Money)
    ensures m.Round().Round() == m.Round()
  {
    RoundIdempotent(m.amount, m.currency.DecimalPlaces());
  }

  /** Money.round() of 100.567 is 100.57. */
  lemma RoundExample()
    ensures Money(100.567, USD).Round() == Money(100.57, USD)
  {
    var units := RoundToUnits(100.567, 2);
    assert Scale(2) == 100.0;
    assert units == 10057;
  }

  /** A literal "w.f" gives w plus the value of the fraction digits f, in USD. */
  lemma FromStringOfLiteral(w: nat, f: string)
    requires AllDigits(f)
    ensures Money.FromString(NatToString(w) + "." + f) == Ok(Money(w as real + FractionValue(f), USD))
  {
    FractionLiteralParses(w, f);
  }

  /** A literal "-w.f" gives the negated amount, in USD. */
  lemma FromStringOfNegativeLiteral(w: nat, f: string)
    requires AllDigits(f)
    ensures Money.FromString("-" + NatToString(w) + "." + f) == Ok(Money(-(w as real + FractionValue(f)), USD))
  {
    NegativeFractionParses(w, f);
  }

  /** Money.from_string("100.50") is 100.50 dollars. */
  lemma FromStringExample()
    ensures Money.FromString("100.50") == Ok(Money(100.50, USD))
  {
    var s := "100.50";
    assert IndexOf(s, '.') == 3;
    assert s[..3] == "100";
    assert s[4..] == "50";
    assert DigitsValue("100") == 100 by {
      assert "100"[..2] == "10";
      assert "10"[..1] == "1";
      assert "1"[..0] == "";
    }
    assert DigitsValue("50") == 50 by {
      assert "50"[..1] == "5";
      assert "5"[..0] == "";
    }
    assert Pow10(2) == 100;
  }

  /** The exact arithmetic of the library's own examples. */
  lemma ArithmeticExamples()
    ensures Money(100.50, USD).Plus(Money(50.25, USD)) == Money(150.75, USD)
    ensures Money(100.50, USD).Minus(Money(50.25, USD)) == Money(50.25, USD)
    ensures Money(100.00, USD).Times(2.0) == Money(200.00, USD)
    ensures Money(100.00, USD).DividedBy(2.0) == Money(50.00, USD)
    ensures Money(100.00, USD).Negated() == Money(-100.00, USD)
    ensures Money(-100.00, USD).Abs() == Money(100.00, USD)
  {
  }
}
