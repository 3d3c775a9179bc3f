/**
 * Exact decimal helpers shared by the value types: integer powers, decimal
 * digit strings (the integer part of Period's compact notation and of a
 * money literal) and rounding to a number of decimal places.
 */
module Decimals {
  import opened Wrappers

  /** x raised to a whole power. */
  function Pow(x: real, n: nat): real
  {
    if n == 0 then 1.0 else x * Pow(x, n - 1)
  }

  /** A power of a base of at least one is at least one. */
  lemma {:induction false} PowAtLeastOne(x: real, n: nat)
    requires x >= 1.0
    ensures Pow(x, n) >= 1.0
  {
    if n > 0 {
      PowAtLeastOne(x, n - 1);
      assert x * Pow(x, n - 1) >= 1.0 * Pow(x, n - 1);
    }
  }

  /** Powers of a base above one grow strictly with the exponent. */
  lemma {:induction false} PowStrictlyIncreasing(x: real, i: nat, j: nat)
    requires x > 1.0 && i < j
    ensures Pow(x, i) < Pow(x, j)
  {
    PowAtLeastOne(x, j - 1);
    if i < j - 1 {
      PowStrictlyIncreasing(x, i, j - 1);
    }
    assert Pow(x, j) == x * Pow(x, j - 1);
    assert x * Pow(x, j - 1) > 1.0 * Pow(x, j - 1);
  }

  function Pow10(n: nat): (p: nat)
    ensures p >= 1
  {
    if n == 0 then 1 else 10 * Pow10(n - 1)
  }

  predicate IsDigit(c: char)
  {
    '0' <= c <= '9'
  }

  predicate AllDigits(s: string)
  {
    forall i :: 0 <= i < |s| ==> IsDigit(s[i])
  }

  function DigitValue(c: char): (v: nat)
    requires IsDigit(c)
    ensures v < 10
  {
    c as int - '0' as int
  }

  function DigitChar(v: nat): (c: char)
    requires v < 10
    ensures IsDigit(c) && DigitValue(c) == v
  {
    ('0' as int + v) as char
  }

  /** The value of a string of decimal digits, most significant first. */
  function DigitsValue(s: string): nat
    requires AllDigits(s)
  {
    if s == [] then 0 else 10 * DigitsValue(s[..|s| - 1]) + DigitValue(s[|s| - 1])
  }

  /** Python's str() of a non-negative int: the shortest decimal spelling. */
  function NatToString(n: nat): (s: string)
    ensures 1 <= |s| && AllDigits(s)
    ensures DigitsValue(s) == n
    ensures |s| > 1 ==> s[0] != '0'
  {
    if n < 10 then [DigitChar(n)]
    else
      var prefix := NatToString(n / 10);
      assert (prefix + [DigitChar(n % 10)])[..|prefix|] == prefix;
      prefix + [DigitChar(n % 10)]
  }

  /** First position of c in s, or |s| when c does not occur. */
  function IndexOf(s: string, c: char): (i: nat)
    ensures i <= |s|
    ensures i < |s| ==> s[i] == c
    ensures forall j :: 0 <= j < i ==> s[j] != c
  {
    if s == [] then 0
    else if s[0] == c then 0
    else 1 + IndexOf(s[1..], c)
  }

  /**
   * The subset of Python's Decimal literal syntax the model accepts: an
   * optional sign, digits, and an optional '.' followed by digits, with at
   * least one digit in all.
   */
  function ParseDecimal(s: string): (r: Option<real>)
    ensures r.Some? ==> |s| >= 1
  {
    if |s| > 0 && (s[0] == '-' || s[0] == '+') then
      match ParseUnsigned(s[1..])
      case None => None
      case Some(v) => Some(if s[0] == '-' then -v else v)
    else ParseUnsigned(s)
  }

  /** The text before the first '.' and the text after it. */
  function WholePart(t: string): string
  {
    t[..IndexOf(t, '.')]
  }

  function FractionPart(t: string): string
  {
    var dot := IndexOf(t, '.');
    if dot < |t| then t[dot + 1..] else ""
  }

  /** k digits are worth less than 10^k. */
  lemma {:induction false} DigitsBelowPow10(s: string)
    requires AllDigits(s)
    ensures DigitsValue(s) < Pow10(|s|)
  {
    if s != [] {
      DigitsBelowPow10(s[..|s| - 1]);
    }
  }

  /** The digits after the point, worth DigitsValue(f) / 10^|f|: a value in [0, 1). */
  function FractionValue(f: string): (v: real)
    requires AllDigits(f)
    ensures 0.0 <= v < 1.0
  {
    DigitsBelowPow10(f);
    QuotientBelowOne(DigitsValue(f) as real, Pow10(|f|) as real);
    DigitsValue(f) as real / Pow10(|f|) as real
  }

  lemma QuotientBelowOne(num: real, den: real)
    requires 0.0 <= num < den
    ensures 0.0 <= num / den < 1.0
  {
    var q := num / den;
    assert q * den == num;
  }

  /** The value of whole-part digits and fraction digits. */
  function LiteralValue(whole: string, fraction: string): (v: real)
    requires AllDigits(whole) && AllDigits(fraction)
    ensures v >= 0.0
  {
    DigitsValue(whole) as real + FractionValue(fraction)
  }

  function ParseUnsigned(s: string): (r: Option<real>)
    ensures r.Some? ==> r.value >= 0.0
  {
    var whole, fraction := WholePart(s), FractionPart(s);
    if AllDigits(whole) && AllDigits(fraction) && |whole| + |fraction| >= 1 then
      Some(LiteralValue(whole, fraction))
    else None
  }

  /**
   * Digits with at most one '.' among them and at least one digit: the
   * unsigned part of a literal, stated without reference to the parser.
   */
  predicate UnsignedLiteral(t: string)
  {
    && (forall i :: 0 <= i < |t| ==> IsDigit(t[i]) || t[i] == '.')
    && (forall i, j :: 0 <= i < j < |t| ==> !(t[i] == '.' && t[j] == '.'))
    && (exists i :: 0 <= i < |t| && IsDigit(t[i]))
  }

  /** An optional leading sign followed by an unsigned literal. */
  predicate DecimalLiteral(s: string)
  {
    if |s| > 0 && (s[0] == '-' || s[0] == '+') then UnsignedLiteral(s[1..]) else UnsignedLiteral(s)
  }

  /** The parser accepts exactly the literals. */
  lemma ParseAcceptsLiterals(s: string)
    ensures ParseDecimal(s).Some? <==> DecimalLiteral(s)
  {
    if |s| > 0 && (s[0] == '-' || s[0] == '+') {
      UnsignedAccepts(s[1..]);
    } else {
      UnsignedAccepts(s);
    }
  }

  lemma UnsignedAccepts(t: string)
    ensures ParseUnsigned(t).Some? <==> UnsignedLiteral(t)
  {
    if UnsignedLiteral(t) {
      LiteralParses(t);
    }
    if ParseUnsigned(t).Some? {
      ParsedIsLiteral(t);
    }
  }

  lemma LiteralParses(t: string)
    requires UnsignedLiteral(t)
    ensures ParseUnsigned(t).Some?
  {
    var dot := IndexOf(t, '.');
    var whole, fraction := WholePart(t), FractionPart(t);
    assert AllDigits(whole) by {
      forall k | 0 <= k < |whole| ensures IsDigit(whole[k]) {
        assert whole[k] == t[k] && t[k] != '.';
      }
    }
    assert AllDigits(fraction) by {
      forall k | 0 <= k < |fraction| ensures IsDigit(fraction[k]) {
        assert fraction[k] == t[dot + 1 + k];
        assert !(t[dot] == '.' && t[dot + 1 + k] == '.');
      }
    }
    var i :| 0 <= i < |t| && IsDigit(t[i]);
    if i < dot {
      assert whole[i] == t[i];
    } else {
      assert i > dot && fraction[i - dot - 1] == t[i];
    }
  }

  lemma ParsedIsLiteral(t: string)
    requires ParseUnsigned(t).Some?
    ensures UnsignedLiteral(t)
  {
    var dot := IndexOf(t, '.');
    var whole, fraction := WholePart(t), FractionPart(t);
    assert AllDigits(whole) && AllDigits(fraction) && |whole| + |fraction| >= 1;
    forall i | 0 <= i < |t| ensures IsDigit(t[i]) || t[i] == '.' {
      if i < dot {
        assert t[i] == whole[i];
      } else if i > dot {
        assert t[i] == fraction[i - dot - 1];
      }
    }
    forall i, j | 0 <= i < j < |t| ensures t[i] != '.' || t[j] != '.' {
      if dot <= i {
        assert t[j] == fraction[j - dot - 1];
      }
    }
    if |whole| > 0 {
      assert t[0] == whole[0];
    } else {
      assert t[dot + 1] == fraction[0];
    }
  }

  /** Digits alone are all whole part. */
  lemma DigitsHaveNoDot(n: string)
    requires AllDigits(n)
    ensures WholePart(n) == n && FractionPart(n) == ""
  {
    forall j | 0 <= j < |n| ensures n[j] != '.' {
      assert IsDigit(n[j]);
    }
  }

  /** Digits, a '.', then anything: the digits are the whole part and the rest the fraction. */
  lemma SplitAtDot(n: string, f: string)
    requires AllDigits(n)
    ensures WholePart(n + "." + f) == n && FractionPart(n + "." + f) == f
  {
    var s := n + "." + f;
    forall j | 0 <= j < |n| ensures s[j] != '.' {
      assert s[j] == n[j] && IsDigit(n[j]);
    }
    assert s[|n|] == '.';
    assert IndexOf(s, '.') == |n|;
    assert s[..|n|] == n;
    assert s[|n| + 1..] == f;
  }

  /** Text that does not open with a sign is parsed as an unsigned literal. */
  lemma UnsignedWhenNoSign(s: string)
    requires s != [] && IsDigit(s[0])
    ensures ParseDecimal(s) == ParseUnsigned(s)
  {
  }

  /** A plain integer literal parses to its value. */
  lemma IntegerLiteralParses(n: nat)
    ensures ParseDecimal(NatToString(n)) == Some(n as real)
  {
    var s := NatToString(n);
    DigitsHaveNoDot(s);
    assert ParseUnsigned(s) == Some(n as real);
    UnsignedWhenNoSign(s);
  }

  /** A negative integer literal parses to its negative value. */
  lemma NegativeLiteralParses(n: nat)
    ensures ParseDecimal("-" + NatToString(n)) == Some(-(n as real))
  {
    var s := "-" + NatToString(n);
    assert s[1..] == NatToString(n);
    IntegerLiteralParses(n);
  }

  /** A literal with a fractional part parses to its whole part plus the value of its fraction digits. */
  lemma FractionLiteralParses(w: nat, f: string)
    requires AllDigits(f)
    ensures ParseDecimal(NatToString(w) + "." + f) == Some(w as real + FractionValue(f))
  {
    var n := NatToString(w);
    var s := n + "." + f;
    UnsignedFraction(n, f);
    assert s[0] == n[0];
    UnsignedWhenNoSign(s);
    LiteralValueOf(n, f, w);
  }

  /** The same literal with a minus sign parses to the negated value. */
  lemma NegativeFractionParses(w: nat, f: string)
    requires AllDigits(f)
    ensures ParseDecimal("-" + NatToString(w) + "." + f) == Some(-(w as real + FractionValue(f)))
  {
    var n := NatToString(w);
    var s := "-" + n + "." + f;
    assert s[1..] == n + "." + f;
    UnsignedFraction(n, f);
    MinusNegates(s, LiteralValue(n, f));
    LiteralValueOf(n, f, w);
  }

  lemma UnsignedFraction(n: string, f: string)
    requires AllDigits(n) && |n| >= 1 && AllDigits(f)
    ensures ParseUnsigned(n + "." + f) == Some(LiteralValue(n, f))
  {
    SplitAtDot(n, f);
    UnsignedFromParts(n + "." + f, n, f);
  }

  lemma UnsignedFromParts(s: string, n: string, f: string)
    requires WholePart(s) == n && FractionPart(s) == f
    requires AllDigits(n) && |n| >= 1 && AllDigits(f)
    ensures ParseUnsigned(s) == Some(LiteralValue(n, f))
  {
  }

  /** A leading minus negates the unsigned value that follows it. */
  lemma MinusNegates(s: string, v: real)
    requires s != [] && s[0] == '-' && ParseUnsigned(s[1..]) == Some(v)
    ensures ParseDecimal(s) == Some(-v)
  {
  }

  lemma LiteralValueOf(n: string, f: string, w: nat)
    requires AllDigits(n) && AllDigits(f) && DigitsValue(n) == w
    ensures LiteralValue(n, f) == w as real + FractionValue(f)
  {
  }

  /** The number of smallest units in one whole: 10^places. */
  function Scale(places: nat): (u: real)
    ensures u >= 1.0
  {
    Pow10(places) as real
  }

  /**
   * x measured in units of 10^-places, rounded to a whole number of units,
   * ties going to the even neighbour.
   */
  function RoundToUnits(x: real, places: nat): (n: int)
    ensures -0.5 <= n as real - x * Scale(places) <= 0.5
    ensures n as real - x * Scale(places) == 0.5 ==> n % 2 == 0
    ensures n as real - x * Scale(places) == -0.5 ==> n % 2 == 0
  {
    var q := x * Scale(places);
    var f := q.Floor;
    var rest := q - f as real;
    if rest > 0.5 then f + 1
    else if rest < 0.5 then f
    else if f % 2 == 0 then f
    else f + 1
  }

  /** Rounding to `places` decimal places, ties to the even neighbour. */
  function RoundHalfEven(x: real, places: nat): (r: real)
    ensures r * Scale(places) == RoundToUnits(x, places) as real
    ensures -0.5 <= (r - x) * Scale(places) <= 0.5
  {
    RoundToUnits(x, places) as real / Scale(places)
  }

  /** Rounding an already rounded amount changes nothing. */
  lemma RoundIdempotent(x: real, places: nat)
    ensures RoundHalfEven(RoundHalfEven(x, places), places) == RoundHalfEven(x, places)
  {
    var r := RoundHalfEven(x, places);
    var n := RoundToUnits(x, places);
    WholeUnitsStay(r, places, n);
  }

  /** An amount that is already a whole number of units rounds to itself. */
  lemma WholeUnitsStay(x: real, places: nat, n: int)
    requires x * Scale(places) == n as real
    ensures RoundToUnits(x, places) == n
  {
    var q := x * Scale(places);
    assert q.Floor == n;
  }
}
