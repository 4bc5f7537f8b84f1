/** The real number that a decimal stands for, so that exactness can be stated without a
    common exponent (kestrel_cloud_runpod/billing.py). */
module DecimalValues {

  import opened Decimals

  /** x times ten to the power e. */
  function Shifted(x: real, e: int): real
    decreases if e < 0 then -e else e
  {
    if e == 0 then x else if e > 0 then 10.0 * Shifted(x, e - 1) else Shifted(x, e + 1) / 10.0
  }

  function Value(d: Decimal): real { Shifted(Signed(d) as real, d.exponent) }

  function TotalValue(items: seq<Decimal>): real {
    if items == [] then 0.0 else TotalValue(items[..|items| - 1]) + Value(items[|items| - 1])
  }

  lemma {:induction false} ShiftedAdds(x: real, y: real, e: int)
    ensures Shifted(x + y, e) == Shifted(x, e) + Shifted(y, e)
    decreases if e < 0 then -e else e
  {
    if e > 0 { ShiftedAdds(x, y, e - 1); } else if e < 0 { ShiftedAdds(x, y, e + 1); }
  }

  lemma {:induction false} ShiftedIsInjective(x: real, y: real, e: int)
    ensures Shifted(x, e) == Shifted(y, e) <==> x == y
    decreases if e < 0 then -e else e
  {
    if e > 0 { ShiftedIsInjective(x, y, e - 1); } else if e < 0 { ShiftedIsInjective(x, y, e + 1); }
  }

  lemma {:induction false} ShiftedTenfold(x: real, e: int)
    ensures Shifted(10.0 * x, e) == 10.0 * Shifted(x, e) == Shifted(x, e + 1)
    decreases if e < 0 then -e else e
  {
    if e > 0 { ShiftedTenfold(x, e - 1); } else if e < 0 { ShiftedTenfold(x, e + 1); }
  }

  lemma {:induction false} ShiftedByPower(v: int, e: int, k: nat)
    ensures Shifted((v * Pow10(k)) as real, e) == Shifted(v as real, e + k)
  {
    if k > 0 {
      var less := v * Pow10(k - 1);
      assert v * Pow10(k) == 10 * less;
      ShiftedByPower(v, e, k - 1);
      assert (10 * less) as real == 10.0 * less as real;
      ShiftedTenfold(less as real, e);
      ShiftedTenfold(v as real, e + k - 1);
    }
  }

  lemma ValueAt(d: Decimal, e: int)
    requires e <= d.exponent
    ensures Value(d) == Shifted(ScaledTo(d, e) as real, e)
  {
    ShiftedByPower(Signed(d), e, d.exponent - e);
  }

  /** Python's `==` is equality of the real numbers. */
  lemma EqualByValue(a: Decimal, b: Decimal)
    ensures NumericallyEqual(a, b) <==> Value(a) == Value(b)
  {
    var e := Lower(a.exponent, b.exponent);
    ValueAt(a, e);
    ValueAt(b, e);
    ShiftedIsInjective(ScaledTo(a, e) as real, ScaledTo(b, e) as real, e);
  }

  lemma {:induction false} ShiftedKeepsSign(x: real, e: int)
    ensures 0.0 <= Shifted(x, e) <==> 0.0 <= x
    decreases if e < 0 then -e else e
  {
    if e > 0 { ShiftedKeepsSign(x, e - 1); } else if e < 0 { ShiftedKeepsSign(x, e + 1); }
  }

  lemma ValueHasItsSign(d: Decimal)
    ensures 0.0 <= Value(d) <==> 0 <= Signed(d)
  {
    ShiftedKeepsSign(Signed(d) as real, d.exponent);
  }

  lemma {:induction false} ShiftedZero(e: int)
    ensures Shifted(0.0, e) == 0.0
    decreases if e < 0 then -e else e
  {
    if e > 0 { ShiftedZero(e - 1); } else if e < 0 { ShiftedZero(e + 1); }
  }

  lemma {:induction false} TotalValueAt(items: seq<Decimal>, e: int)
    requires forall i :: 0 <= i < |items| ==> e <= items[i].exponent
    ensures TotalValue(items) == Shifted(TotalAt(items, e) as real, e)
  {
    if items == [] {
      ShiftedZero(e);
    } else {
      var n := |items| - 1;
      var before, last := TotalAt(items[..n], e), ScaledTo(items[n], e);
      TotalValueAt(items[..n], e);
      ValueAt(items[n], e);
      ShiftedAdds(before as real, last as real, e);
    }
  }

  lemma {:induction false} TotalValueAppend(a: seq<Decimal>, b: seq<Decimal>)
    ensures TotalValue(a + b) == TotalValue(a) + TotalValue(b)
  {
    if b == [] {
      assert a + b == a;
    } else {
      TotalValueAppend(a, b[..|b| - 1]);
      assert (a + b)[..|a + b| - 1] == a + b[..|b| - 1];
    }
  }

  /** The sum of finite amounts is the sum of the numbers, whatever the ambient precision. */
  lemma SumIsTheSum(values: seq<Operand>, ambient: nat)
    requires ambient >= 1 && forall v :: v in values ==> v.Finite?
    ensures ExactDecimalSum(values, ambient).Total?
    ensures Value(ExactDecimalSum(values, ambient).total) == TotalValue(FiniteValues(values))
  {
    SumIsExact(values, ambient);
    var items, total := FiniteValues(values), ExactDecimalSum(values, ambient).total;
    var e := if items == [] then total.exponent else Lower(total.exponent, MinExponent(items));
    assert ScaledTo(total, e) == TotalAt(items, e);
    ValueAt(total, e);
    TotalValueAt(items, e);
  }
}
