/** Python's finite `Decimal` values and the exact money arithmetic built on them
    (kestrel_cloud_runpod/billing.py).

    A value is a sign, a coefficient and a power-of-ten exponent. Numerical equality is
    stated without rationals: two values are compared after both are scaled to a
    common exponent that is low enough for each. */
module Decimals {

  datatype Decimal = Decimal(negative: bool, coefficient: nat, exponent: int)

  const ZERO := Decimal(false, 0, 0)

  function Pow10(n: nat): (p: int)
    ensures p >= 1
  {
    if n == 0 then 1 else 10 * Pow10(n - 1)
  }

  /** How many characters the decimal numeral of n has; zero has one. */
  function Digits(n: nat): (d: nat)
    ensures d >= 1
  {
    if n < 10 then 1 else 1 + Digits(n / 10)
  }

  function Signed(d: Decimal): int {
    if d.negative then -(d.coefficient as int) else d.coefficient
  }

  /** The integer v with d == v * 10^e. */
  function ScaledTo(d: Decimal, e: int): int
    requires e <= d.exponent
  {
    Signed(d) * Pow10(d.exponent - e)
  }

  function Lower(a: int, b: int): int { if a <= b then a else b }
  function Higher(a: int, b: int): int { if a <= b then b else a }

  /** Python's `==` on finite decimals. */
  predicate NumericallyEqual(a: Decimal, b: Decimal) {
    var e := Lower(a.exponent, b.exponent);
    ScaledTo(a, e) == ScaledTo(b, e)
  }

  function FromScaled(v: int, e: int): Decimal {
    Decimal(v < 0, if v < 0 then -v else v, e)
  }

  /** ROUND_HALF_EVEN of n / unit. */
  function RoundHalfEven(n: nat, unit: nat): nat
    requires unit >= 1
  {
    var q, r := n / unit, n % unit;
    if 2 * r > unit || (2 * r == unit && q % 2 == 1) then q + 1 else q
  }

  /** The context rounding every Decimal operation ends with. */
  function RoundToPrecision(d: Decimal, precision: nat): Decimal
    requires precision >= 1
  {
    var n := Digits(d.coefficient);
    if n <= precision then d
    else
      var dropped := n - precision;
      var q := RoundHalfEven(d.coefficient, Pow10(dropped));
      if Digits(q) > precision
      then Decimal(d.negative, q / 10, d.exponent + dropped + 1)
      else Decimal(d.negative, q, d.exponent + dropped)
  }

  function Add(a: Decimal, b: Decimal, precision: nat): Decimal
    requires precision >= 1
  {
    var e := Lower(a.exponent, b.exponent);
    RoundToPrecision(FromScaled(ScaledTo(a, e) + ScaledTo(b, e), e), precision)
  }

  /** `sum(items, start=Decimal(0))` under one context precision. */
  function RunningSum(items: seq<Decimal>, precision: nat): Decimal
    requires precision >= 1
  {
    if items == [] then ZERO
    else Add(RunningSum(items[..|items| - 1], precision), items[|items| - 1], precision)
  }

  function MinExponent(items: seq<Decimal>): (e: int)
    requires items != []
    ensures forall i :: 0 <= i < |items| ==> e <= items[i].exponent
    ensures exists i :: 0 <= i < |items| && e == items[i].exponent
  {
    if |items| == 1 then items[0].exponent
    else
      var rest := MinExponent(items[1..]);
      assert forall i :: 1 <= i < |items| ==> items[i] == items[1..][i - 1];
      Lower(items[0].exponent, rest)
  }

  function MaxAlignedDigits(items: seq<Decimal>, e: int): (m: int)
    requires items != []
    ensures forall i :: 0 <= i < |items| ==> Digits(items[i].coefficient) + items[i].exponent - e <= m
    ensures exists i :: 0 <= i < |items| && m == Digits(items[i].coefficient) + items[i].exponent - e
  {
    var first := Digits(items[0].coefficient) + items[0].exponent - e;
    if |items| == 1 then first
    else
      var rest := MaxAlignedDigits(items[1..], e);
      assert forall i :: 1 <= i < |items| ==> items[i] == items[1..][i - 1];
      Higher(first, rest)
  }

  /** The context precision that `exact_decimal_sum` selects. */
  function SumPrecision(items: seq<Decimal>, ambient: nat): (p: int)
    requires items != []
  {
    var e := MinExponent(items);
    Higher(ambient, MaxAlignedDigits(items, e) + Digits(|items|) + 1)
  }

  /** Operands as the caller may pass them; anything not finite is refused. */
  datatype Operand = Finite(value: Decimal) | NotFinite

  datatype SumResult = Total(total: Decimal) | InvalidAmounts

  function FiniteValues(values: seq<Operand>): (items: seq<Decimal>)
    requires forall v :: v in values ==> v.Finite?
    ensures |items| == |values|
    ensures forall i :: 0 <= i < |items| ==> items[i] == values[i].value
  {
    seq(|values|, i requires 0 <= i < |values| => values[i].value)
  }

  function ExactDecimalSum(values: seq<Operand>, ambient: nat): SumResult
    requires ambient >= 1
  {
    if exists v :: v in values && v.NotFinite? then InvalidAmounts
    else
      var items := FiniteValues(values);
      if items == [] then Total(ZERO)
      else Total(RunningSum(items, SumPrecision(items, ambient)))
  }

  /** The mathematical total, in units of 10^e. */
  function TotalAt(items: seq<Decimal>, e: int): int
    requires forall i :: 0 <= i < |items| ==> e <= items[i].exponent
  {
    if items == [] then 0
    else TotalAt(items[..|items| - 1], e) + ScaledTo(items[|items| - 1], e)
  }

  // ---- powers of ten and digit counts ----

  lemma {:induction false} Pow10Add(a: nat, b: nat)
    ensures Pow10(a + b) == Pow10(a) * Pow10(b)
  {
    if a > 0 {
      Pow10Add(a - 1, b);
      assert Pow10(a + b) == 10 * Pow10(a - 1 + b);
      assert 10 * (Pow10(a - 1) * Pow10(b)) == Pow10(a) * Pow10(b);
    }
  }

  lemma {:induction false} Pow10Monotone(a: nat, b: nat)
    requires a <= b
    ensures Pow10(a) <= Pow10(b)
  {
    if a < b { Pow10Monotone(a, b - 1); }
  }

  lemma {:induction false} DigitsBound(n: nat)
    ensures n < Pow10(Digits(n))
    ensures n > 0 ==> Pow10(Digits(n) - 1) <= n
  {
    if n >= 10 { DigitsBound(n / 10); }
  }

  lemma {:induction false} DigitsWithin(n: nat, p: nat)
    requires p >= 1 && n < Pow10(p)
    ensures Digits(n) <= p
  {
    DigitsBound(n);
    if Digits(n) > p { Pow10Monotone(p, Digits(n) - 1); }
  }

  // ---- scaling ----

  /** Rescaling to a lower exponent multiplies by the power of ten between them. */
  lemma Rescale(d: Decimal, high: int, low: int)
    requires low <= high <= d.exponent
    ensures ScaledTo(d, low) == ScaledTo(d, high) * Pow10(high - low)
  {
    Pow10Add(d.exponent - high, high - low);
    MulAssoc(Signed(d), Pow10(d.exponent - high), Pow10(high - low));
  }

  lemma MulAssoc(a: int, b: int, c: int)
    ensures (a * b) * c == a * (b * c)
  {}

  lemma CancelFactor(a: int, b: int, f: int)
    requires f >= 1 && a * f == b * f
    ensures a == b
  {}

  /** Equality may be checked at any common exponent. */
  lemma EqualAtAnyExponent(a: Decimal, b: Decimal, e: int)
    requires e <= a.exponent && e <= b.exponent
    ensures NumericallyEqual(a, b) <==> ScaledTo(a, e) == ScaledTo(b, e)
  {
    var m := Lower(a.exponent, b.exponent);
    Rescale(a, m, e);
    Rescale(b, m, e);
    if ScaledTo(a, e) == ScaledTo(b, e) {
      CancelFactor(ScaledTo(a, m), ScaledTo(b, m), Pow10(m - e));
    }
  }

  lemma {:induction false} TotalRescale(items: seq<Decimal>, high: int, low: int)
    requires low <= high
    requires forall i :: 0 <= i < |items| ==> high <= items[i].exponent
    ensures TotalAt(items, low) == TotalAt(items, high) * Pow10(high - low)
  {
    if items != [] {
      var front, last := items[..|items| - 1], items[|items| - 1];
      TotalRescale(front, high, low);
      Rescale(last, high, low);
      Distribute(TotalAt(front, high), ScaledTo(last, high), Pow10(high - low));
    }
  }

  lemma Distribute(a: int, b: int, c: int)
    ensures (a + b) * c == a * c + b * c
  {}

  // ---- rounding keeps a value that fits ----

  /** A value that is a multiple of 10^e with a quotient below 10^precision survives
      context rounding unchanged, whatever exponent it is written with. */
  lemma RoundingKeepsFittingValue(d: Decimal, e: int, m: int, precision: nat, low: int)
    requires precision >= 1
    requires low <= d.exponent && low <= e
    requires ScaledTo(d, low) == m * Pow10(e - low)
    requires Magnitude(m) < Pow10(precision)
    ensures var r := RoundToPrecision(d, precision);
            low <= r.exponent && ScaledTo(r, low) == ScaledTo(d, low)
  {
    MagnitudeScaled(d, e, m, low);
    if Digits(d.coefficient) > precision {
      if e <= d.exponent {
        NoLongerThanQuotient(d, e, Magnitude(m), precision, low);
      } else {
        var q := DroppedDigitsAreZero(d, e, Magnitude(m), precision, low);
        var k := Digits(d.coefficient) - precision;
        DivideExactly(q, Pow10(k));
        QuotientDigits(d.coefficient, q, k);
        assert RoundToPrecision(d, precision) == Decimal(d.negative, q, d.exponent + k);
        Rescaled(d, q, k, low);
      }
    }
  }

  lemma Rescaled(d: Decimal, q: nat, k: nat, low: int)
    requires low <= d.exponent && d.coefficient == q * Pow10(k)
    ensures ScaledTo(Decimal(d.negative, q, d.exponent + k), low) == ScaledTo(d, low)
  {
    var p := Pow10(d.exponent - low);
    Pow10Add(k, d.exponent - low);
    MulAssoc(q, Pow10(k), p);
    MulAssoc(-1, q * Pow10(k), p);
    MulAssoc(-1, q, Pow10(k) * p);
  }

  /** A value written at or above its unit has no more digits than its quotient. */
  lemma NoLongerThanQuotient(d: Decimal, e: int, mag: nat, precision: nat, low: int)
    requires precision >= 1 && low <= e <= d.exponent
    requires d.coefficient * Pow10(d.exponent - low) == mag * Pow10(e - low)
    requires mag < Pow10(precision)
    ensures Digits(d.coefficient) <= precision
  {
    var c := d.coefficient;
    Pow10Add(d.exponent - e, e - low);
    MulAssoc(c, Pow10(d.exponent - e), Pow10(e - low));
    CancelFactor(c * Pow10(d.exponent - e), mag, Pow10(e - low));
    AtLeastItself(c, Pow10(d.exponent - e));
    DigitsWithin(c, precision);
  }

  /** A value written below its unit ends in zeros, as many as rounding may drop. */
  lemma DroppedDigitsAreZero(d: Decimal, e: int, mag: nat, precision: nat, low: int) returns (q: nat)
    requires precision >= 1 && low <= d.exponent < e
    requires d.coefficient * Pow10(d.exponent - low) == mag * Pow10(e - low)
    requires mag < Pow10(precision) && Digits(d.coefficient) > precision
    ensures d.coefficient == q * Pow10(Digits(d.coefficient) - precision)
  {
    var c, t := d.coefficient, e - d.exponent;
    var k := Digits(c) - precision;
    Pow10Add(t, d.exponent - low);
    MulAssoc(mag, Pow10(t), Pow10(d.exponent - low));
    CancelFactor(c, mag * Pow10(t), Pow10(d.exponent - low));
    CoefficientDigits(mag, t, precision);
    Pow10Add(t - k, k);
    MulAssoc(mag, Pow10(t - k), Pow10(k));
    q := mag * Pow10(t - k);
  }

  function Magnitude(v: int): nat { if v < 0 then -v else v }

  lemma MagnitudeProduct(a: int, p: int)
    requires p >= 1
    ensures Magnitude(a * p) == Magnitude(a) * p
  {
    if a < 0 { assert a * p < 0; }
  }

  lemma MagnitudeScaled(d: Decimal, e: int, m: int, low: int)
    requires low <= d.exponent && low <= e
    requires ScaledTo(d, low) == m * Pow10(e - low)
    ensures d.coefficient * Pow10(d.exponent - low) == Magnitude(m) * Pow10(e - low)
  {
    MagnitudeProduct(Signed(d), Pow10(d.exponent - low));
    MagnitudeProduct(m, Pow10(e - low));
  }

  lemma AtLeastItself(c: nat, f: nat)
    requires f >= 1
    ensures c <= c * f
  {}

  lemma CoefficientDigits(mag: nat, t: nat, precision: nat)
    requires precision >= 1 && mag < Pow10(precision)
    ensures Digits(mag * Pow10(t)) <= precision + t
  {
    Pow10Add(precision, t);
    MulOrder(mag + 1, Pow10(precision), Pow10(t));
    Distribute(mag, 1, Pow10(t));
    DigitsWithin(mag * Pow10(t), precision + t);
  }

  lemma DivideExactly(q: nat, unit: nat)
    requires unit >= 1
    ensures (q * unit) / unit == q && (q * unit) % unit == 0
  {
    var n := q * unit;
    assert n == unit * (n / unit) + n % unit;
    if q < n / unit {
      MulOrder(q + 1, n / unit, unit);
      Distribute(q, 1, unit);
    } else if n / unit < q {
      MulOrder(n / unit + 1, q, unit);
      Distribute(n / unit, 1, unit);
    }
  }

  lemma MulOrder(a: int, b: int, f: int)
    requires a <= b && f >= 0
    ensures a * f <= b * f
  {}

  lemma {:induction false} QuotientDigits(c: nat, q: nat, k: nat)
    requires c == q * Pow10(k) && Digits(c) > k
    ensures Digits(q) == Digits(c) - k
  {
    if k > 0 {
      assert c == (q * Pow10(k - 1)) * 10 by { assert Pow10(k) == 10 * Pow10(k - 1); }
      QuotientDigits(q * Pow10(k - 1), q, k - 1);
    }
  }

  // ---- exactness of the sum ----

  lemma {:induction false} TotalBound(items: seq<Decimal>, e: int, digits: nat)
    requires forall i :: 0 <= i < |items| ==>
      e <= items[i].exponent && Digits(items[i].coefficient) + items[i].exponent - e <= digits
    ensures Magnitude(TotalAt(items, e)) <= |items| * Pow10(digits)
  {
    if items != [] {
      var front, last := items[..|items| - 1], items[|items| - 1];
      TotalBound(front, e, digits);
      var shift := last.exponent - e;
      DigitsBound(last.coefficient);
      Pow10Add(Digits(last.coefficient), shift);
      Pow10Monotone(Digits(last.coefficient) + shift, digits);
      ScaledMagnitude(last, e, digits);
      Distribute(|items| - 1, 1, Pow10(digits));
    }
  }

  lemma ScaledMagnitude(d: Decimal, e: int, digits: nat)
    requires e <= d.exponent && d.coefficient < Pow10(Digits(d.coefficient))
    requires Pow10(Digits(d.coefficient)) * Pow10(d.exponent - e) <= Pow10(digits)
    ensures Magnitude(ScaledTo(d, e)) <= Pow10(digits)
  {
    var p := Pow10(d.exponent - e);
    MagnitudeProduct(Signed(d), p);
    MulOrder(d.coefficient, Pow10(Digits(d.coefficient)), p);
  }

  /** Every partial sum fits the chosen precision, so no addition rounds. */
  lemma {:induction false} PartialSumExact(items: seq<Decimal>, e: int, digits: nat, precision: nat, low: int)
    requires precision >= 1 && low <= e && low <= 0
    requires forall i :: 0 <= i < |items| ==>
      e <= items[i].exponent && Digits(items[i].coefficient) + items[i].exponent - e <= digits
    requires |items| * Pow10(digits) < Pow10(precision)
    ensures low <= RunningSum(items, precision).exponent
    ensures ScaledTo(RunningSum(items, precision), low) == TotalAt(items, e) * Pow10(e - low)
  {
    if items != [] {
      var front, last := items[..|items| - 1], items[|items| - 1];
      Distribute(|items| - 1, 1, Pow10(digits));
      PartialSumExact(front, e, digits, precision, low);
      TotalBound(items, e, digits);
      var so := RunningSum(front, precision);
      var x := Lower(so.exponent, last.exponent);
      var exact := FromScaled(ScaledTo(so, x) + ScaledTo(last, x), x);
      Rescale(so, x, low);
      Rescale(last, x, low);
      Rescale(last, e, low);
      Distribute(ScaledTo(so, x), ScaledTo(last, x), Pow10(x - low));
      Distribute(TotalAt(front, e), ScaledTo(last, e), Pow10(e - low));
      assert ScaledTo(exact, low) == TotalAt(items, e) * Pow10(e - low);
      RoundingKeepsFittingValue(exact, e, TotalAt(items, e), precision, low);
    }
  }

  lemma EnoughHeadroom(n: nat, digits: nat)
    ensures n * Pow10(digits) < Pow10(digits + Digits(n) + 1)
  {
    DigitsBound(n);
    Pow10Add(Digits(n), digits);
    MulOrder(n + 1, Pow10(Digits(n)), Pow10(digits));
    Distribute(n, 1, Pow10(digits));
    Pow10Monotone(digits + Digits(n), digits + Digits(n) + 1);
  }

  lemma HeadroomWithin(n: nat, digits: nat, precision: int)
    requires digits + Digits(n) + 1 <= precision
    ensures n * Pow10(digits) < Pow10(precision)
  {
    EnoughHeadroom(n, digits);
    Pow10Monotone(digits + Digits(n) + 1, precision);
  }

  lemma AlignedDigitsPositive(items: seq<Decimal>)
    requires items != []
    ensures MaxAlignedDigits(items, MinExponent(items)) >= 1
  {
    var min := MinExponent(items);
    assert Digits(items[0].coefficient) + items[0].exponent - min <= MaxAlignedDigits(items, min);
  }

  lemma PrecisionSuffices(items: seq<Decimal>, ambient: nat)
    requires ambient >= 1 && items != []
    ensures var min := MinExponent(items);
            var digits := MaxAlignedDigits(items, min);
            digits >= 1 && |items| * Pow10(digits) < Pow10(SumPrecision(items, ambient))
  {
    AlignedDigitsPositive(items);
    HeadroomWithin(|items|, MaxAlignedDigits(items, MinExponent(items)), SumPrecision(items, ambient));
  }

  lemma ExactAt(items: seq<Decimal>, ambient: nat, e: int)
    requires ambient >= 1 && items != []
    requires forall i :: 0 <= i < |items| ==> e <= items[i].exponent
    requires e <= RunningSum(items, SumPrecision(items, ambient)).exponent
    ensures ScaledTo(RunningSum(items, SumPrecision(items, ambient)), e) == TotalAt(items, e)
  {
    var min, precision := MinExponent(items), SumPrecision(items, ambient);
    var total := RunningSum(items, precision);
    PrecisionSuffices(items, ambient);
    var base := Lower(Lower(e, 0), min);
    PartialSumExact(items, min, MaxAlignedDigits(items, min), precision, base);
    Rescale(total, e, base);
    TotalRescale(items, e, base);
    TotalRescale(items, min, base);
    CancelFactor(ScaledTo(total, e), TotalAt(items, e), Pow10(e - base));
  }

  /** The sum is refused exactly when some amount is not finite; otherwise it is the
      mathematical total, whatever the ambient precision. */
  lemma SumIsExact(values: seq<Operand>, ambient: nat)
    requires ambient >= 1
    ensures ExactDecimalSum(values, ambient).InvalidAmounts?
            <==> exists v :: v in values && v.NotFinite?
    ensures ExactDecimalSum(values, ambient).Total? ==>
              var items, total := FiniteValues(values), ExactDecimalSum(values, ambient).total;
              forall e :: e <= total.exponent && (forall i :: 0 <= i < |items| ==> e <= items[i].exponent)
                          ==> ScaledTo(total, e) == TotalAt(items, e)
  {
    if (forall v :: v in values ==> v.Finite?) && values != [] {
      var items := FiniteValues(values);
      var total := ExactDecimalSum(values, ambient).total;
      forall e | e <= total.exponent && (forall i :: 0 <= i < |items| ==> e <= items[i].exponent)
        ensures ScaledTo(total, e) == TotalAt(items, e)
      {
        ExactAt(items, ambient, e);
      }
    }
  }
}
