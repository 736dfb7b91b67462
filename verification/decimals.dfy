/** Python's `decimal.Decimal` as far as the parsing layer uses it: a finite value
    coefficient * 10^exponent, compared against zero and made absolute. */
module Decimals {

  /** A finite decimal. The sign lives in the coefficient; the exponent records the number of
      digits after the point (negated), which `abs` and `str` preserve. */
  datatype Decimal = Decimal(coefficient: int, exponent: int)

  function Pow10(k: nat): (p: nat)
    ensures p >= 1
  {
    if k == 0 then 1 else 10 * Pow10(k - 1)
  }

  /** The positive factor 10^exponent, for exponents of either sign. */
  ghost function Scale(e: int): (f: real)
    ensures f > 0.0
  {
    if e >= 0 then Pow10(e) as real else 1.0 / Pow10(-e) as real
  }

  /** The rational number a decimal denotes. */
  ghost function Value(d: Decimal): real {
    d.coefficient as real * Scale(d.exponent)
  }

  /** `d > 0`: decided on the coefficient alone, since the scale is always positive. */
  predicate IsPositive(d: Decimal): (r: bool)
    ensures r <==> Value(d) > 0.0
  {
    assert d.coefficient > 0 ==> d.coefficient as real * Scale(d.exponent) > 0.0;
    assert d.coefficient <= 0 ==> d.coefficient as real * Scale(d.exponent) <= 0.0;
    d.coefficient > 0
  }

  /** `abs(d)` for a decimal that fits the default context (at most 28 significant digits, adjusted
      exponent within range): the same digits and exponent, without the sign. */
  function Abs(d: Decimal): (r: Decimal)
    ensures r.exponent == d.exponent
    ensures r.coefficient >= 0
    ensures r.coefficient == d.coefficient || r.coefficient == -d.coefficient
  {
    Decimal(if d.coefficient < 0 then -d.coefficient else d.coefficient, d.exponent)
  }

  /** `-d`. */
  function Negate(d: Decimal): (r: Decimal)
    ensures r.exponent == d.exponent
    ensures r.coefficient + d.coefficient == 0
  {
    Decimal(-d.coefficient, d.exponent)
  }

  /** The comparison against zero agrees with the value the decimal denotes. */
  lemma IsPositiveMeansValuePositive(d: Decimal)
    ensures IsPositive(d) <==> Value(d) > 0.0
  {
    var c, f := d.coefficient as real, Scale(d.exponent);
    if c > 0.0 { assert c * f > 0.0; } else { assert c * f <= 0.0; }
  }

  /** `abs` yields the magnitude of the value. */
  lemma AbsValue(d: Decimal)
    ensures Value(Abs(d)) >= 0.0
    ensures Value(Abs(d)) == Value(d) || Value(Abs(d)) == -Value(d)
  {
    var a, f := Abs(d).coefficient as real, Scale(d.exponent);
    assert a >= 0.0;
    assert a * f >= 0.0;
    if d.coefficient < 0 {
      assert a * f == -(d.coefficient as real * f);
    }
  }
}
