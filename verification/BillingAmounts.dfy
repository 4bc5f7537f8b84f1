/** Validated provider amounts (`billing_amounts`, kestrel_cloud_runpod/billing.py) and
    the order-independence of exact totals. */
module BillingAmounts {

  import opened Results
  import opened Decimals
  import opened DecimalValues
  import opened CanonicalAmounts
  import opened Sequences

  /** One JSON value where an amount is expected. */
  datatype RawAmount = NotNumeric | Numeric(value: Operand)

  datatype RawAmounts = RawAmounts(total: RawAmount, parts: seq<RawAmount>)

  /** A total and its components, numerically normalized. */
  datatype Amounts = Amounts(total: Decimal, parts: seq<Decimal>)

  // Python's default context; `SumIsExact` shows that the choice is irrelevant.
  const AMBIENT_PRECISION: nat := 28

  function ExactTotal(items: seq<Decimal>): Decimal {
    if items == [] then ZERO else RunningSum(items, SumPrecision(items, AMBIENT_PRECISION))
  }

  predicate Usable(raw: RawAmount) {
    raw.Numeric? && raw.value.Finite? && Signed(raw.value.value) >= 0
  }

  function RawValue(raw: RawAmount): Decimal
    requires Usable(raw)
  {
    raw.value.value
  }

  function Clean(raw: RawAmount): Decimal
    requires Usable(raw)
  {
    ReadAmount(IdentityAmount(RawValue(raw)))
  }

  predicate AllUsable(raw: RawAmounts) {
    Usable(raw.total) && PartsUsable(raw.parts)
  }

  function CleanParts(parts: seq<RawAmount>): (r: seq<Decimal>)
    requires PartsUsable(parts)
    ensures |r| == |parts| && forall i :: 0 <= i < |parts| ==> r[i] == Clean(parts[i])
  {
    seq(|parts|, i requires 0 <= i < |parts| => Clean(parts[i]))
  }

  function CleanAmounts(raw: RawAmounts): Amounts
    requires AllUsable(raw)
  {
    Amounts(Clean(raw.total), CleanParts(raw.parts))
  }

  predicate Balanced(a: Amounts) { NumericallyEqual(a.total, ExactTotal(a.parts)) }

  predicate PartsUsable(parts: seq<RawAmount>) { forall i :: 0 <= i < |parts| ==> Usable(parts[i]) }

  /** What `billing_amounts` returns once the first parts have been collected. */
  function Collected(total: RawAmount, parts: seq<RawAmount>, done: seq<Decimal>): Option<Amounts>
    requires Usable(total) && |done| <= |parts|
    decreases |parts| - |done|
  {
    if |done| == |parts| then
      var amounts := Amounts(Clean(total), done);
      if Balanced(amounts) then Some(amounts) else None
    else if Usable(parts[|done|]) then Collected(total, parts, done + [Clean(parts[|done|])])
    else None
  }

  /** What `billing_amounts` accepts, and the amounts it then returns. */
  function AmountsOf(raw: RawAmounts): Option<Amounts> {
    if Usable(raw.total) then Collected(raw.total, raw.parts, []) else None
  }

  predicate CleanForm(raw: RawAmount, d: Decimal) { Usable(raw) && d == Clean(raw) }

  lemma {:induction false} CollectedAll(total: RawAmount, parts: seq<RawAmount>, done: seq<Decimal>)
    requires Usable(total) && Matched(CleanForm, parts, done)
    ensures Collected(total, parts, done).Some? <==>
              PartsUsable(parts) && Balanced(Amounts(Clean(total), CleanParts(parts)))
    ensures Collected(total, parts, done).Some? ==>
              Collected(total, parts, done).value == Amounts(Clean(total), CleanParts(parts))
    decreases |parts| - |done|
  {
    if |done| == |parts| {
      assert forall i :: 0 <= i < |done| ==> CleanForm(parts[i], done[i]);
      assert done == CleanParts(parts);
    } else if Usable(parts[|done|]) {
      var one := Clean(parts[|done|]);
      MatchedNext(CleanForm, parts, done, one);
      CollectedAll(total, parts, done + [one]);
    }
  }

  /** All amounts must be usable and the components must add up to the total. */
  lemma AmountsOfMeans(raw: RawAmounts)
    ensures AmountsOf(raw).Some? <==> AllUsable(raw) && Balanced(CleanAmounts(raw))
    ensures AmountsOf(raw).Some? ==> AmountsOf(raw).value == CleanAmounts(raw)
  {
    if Usable(raw.total) { CollectedAll(raw.total, raw.parts, []); }
  }

  method ValidatedAmounts(raw: RawAmounts) returns (r: Option<Amounts>)
    ensures r == AmountsOf(raw)
  {
    if !Usable(raw.total) { return None; }
    var parts: seq<Decimal> := [];
    for i := 0 to |raw.parts|
      invariant |parts| == i
      invariant Collected(raw.total, raw.parts, parts) == Collected(raw.total, raw.parts, [])
    {
      if !Usable(raw.parts[i]) { return None; }
      parts := parts + [Clean(raw.parts[i])];
    }
    var amounts := Amounts(Clean(raw.total), parts);
    if !Balanced(amounts) { return None; }
    return Some(amounts);
  }

  // ---- exact totals ----

  predicate LowEnough(items: seq<Decimal>, e: int) {
    forall i :: 0 <= i < |items| ==> e <= items[i].exponent
  }

  /** The stored total is the mathematical one at every exponent fine enough to write it. */
  lemma ExactTotalValue(items: seq<Decimal>, e: int)
    requires LowEnough(items, e) && e <= ExactTotal(items).exponent
    ensures ScaledTo(ExactTotal(items), e) == TotalAt(items, e)
  {
    if items != [] { ExactAt(items, AMBIENT_PRECISION, e); }
  }

  lemma {:induction false} TotalAppend(a: seq<Decimal>, b: seq<Decimal>, e: int)
    requires LowEnough(a, e) && LowEnough(b, e)
    ensures LowEnough(a + b, e) && TotalAt(a + b, e) == TotalAt(a, e) + TotalAt(b, e)
  {
    if b == [] {
      assert a + b == a;
    } else {
      TotalAppend(a, b[..|b| - 1], e);
      assert (a + b)[..|a + b| - 1] == a + b[..|b| - 1];
    }
  }

  lemma TotalWithout(b: seq<Decimal>, k: nat, e: int)
    requires LowEnough(b, e) && k < |b|
    ensures LowEnough(Without(b, k), e)
    ensures TotalAt(b, e) == TotalAt(Without(b, k), e) + ScaledTo(b[k], e)
  {
    var before, after := b[..k], b[k + 1..];
    assert b == before + ([b[k]] + after);
    assert [b[k]][..0] == [];
    TotalAppend([b[k]], after, e);
    TotalAppend(before, [b[k]] + after, e);
    TotalAppend(before, after, e);
  }

  lemma {:induction false} TotalPermutes(a: seq<Decimal>, b: seq<Decimal>, e: int)
    requires multiset(a) == multiset(b) && LowEnough(a, e) && LowEnough(b, e)
    ensures TotalAt(a, e) == TotalAt(b, e)
  {
    if a == [] {
      assert |multiset(b)| == 0;
    } else {
      var n := |a| - 1;
      var k := SameElements(a, b, n);
      RemoveBoth(a, n, b, k);
      WithoutLast(a);
      TotalWithout(b, k, e);
      TotalPermutes(a[..n], Without(b, k), e);
    }
  }

  lemma SameMembers(a: seq<Decimal>, b: seq<Decimal>, e: int)
    requires multiset(a) == multiset(b) && LowEnough(a, e)
    ensures LowEnough(b, e)
  {
    forall i | 0 <= i < |b| ensures e <= b[i].exponent {
      assert b[i] in multiset(b);
      assert b[i] in a;
    }
  }

  /** Totals of the same amounts in any order are the same number. */
  lemma ExactTotalPermutes(a: seq<Decimal>, b: seq<Decimal>)
    requires multiset(a) == multiset(b)
    ensures NumericallyEqual(ExactTotal(a), ExactTotal(b))
  {
    var e := Lower(ExactTotal(a).exponent, ExactTotal(b).exponent);
    if a != [] { e := Lower(e, MinExponent(a)); }
    SameMembers(a, b, e);
    TotalPermutes(a, b, e);
    ExactTotalValue(a, e);
    ExactTotalValue(b, e);
    EqualAtAnyExponent(ExactTotal(a), ExactTotal(b), e);
  }

  /** Amounts are accepted exactly when every one is a finite nonnegative number and the
      components add up to the total; what is returned has the values that came in. */
  lemma AcceptedAmounts(raw: RawAmounts, e: int)
    requires AllUsable(raw)
    requires e <= RawValue(raw.total).exponent && e <= CleanAmounts(raw).total.exponent
    requires forall i :: 0 <= i < |raw.parts| ==> e <= RawValue(raw.parts[i]).exponent
    requires LowEnough(CleanAmounts(raw).parts, e)
    requires e <= ExactTotal(CleanAmounts(raw).parts).exponent
    ensures AmountsOf(raw).Some? <==> ScaledTo(RawValue(raw.total), e) == RawTotalAt(raw.parts, e)
    ensures ScaledTo(CleanAmounts(raw).total, e) == ScaledTo(RawValue(raw.total), e)
  {
    var a := CleanAmounts(raw);
    AmountsOfMeans(raw);
    IdentityTextRoundTrip(RawValue(raw.total));
    EqualAtAnyExponent(a.total, RawValue(raw.total), e);
    ExactTotalValue(a.parts, e);
    EqualAtAnyExponent(a.total, ExactTotal(a.parts), e);
    CleanKeepsTotal(raw.parts, a.parts, e);
  }

  function RawTotalAt(parts: seq<RawAmount>, e: int): int
    requires forall i :: 0 <= i < |parts| ==> Usable(parts[i]) && e <= RawValue(parts[i]).exponent
  {
    if parts == [] then 0
    else RawTotalAt(parts[..|parts| - 1], e) + ScaledTo(RawValue(parts[|parts| - 1]), e)
  }

  lemma {:induction false} CleanKeepsTotal(parts: seq<RawAmount>, cleaned: seq<Decimal>, e: int)
    requires |parts| == |cleaned| && LowEnough(cleaned, e)
    requires forall i :: 0 <= i < |parts| ==>
      Usable(parts[i]) && e <= RawValue(parts[i]).exponent && cleaned[i] == Clean(parts[i])
    ensures RawTotalAt(parts, e) == TotalAt(cleaned, e)
  {
    if parts != [] {
      var n := |parts| - 1;
      CleanKeepsTotal(parts[..n], cleaned[..n], e);
      IdentityTextRoundTrip(RawValue(parts[n]));
      EqualAtAnyExponent(cleaned[n], RawValue(parts[n]), e);
    }
  }

  // ---- the same, as numbers ----

  lemma ExactTotalIsTheSum(items: seq<Decimal>)
    ensures Value(ExactTotal(items)) == TotalValue(items)
  {
    var total := ExactTotal(items);
    var e := if items == [] then total.exponent else Lower(total.exponent, MinExponent(items));
    ExactTotalValue(items, e);
    ValueAt(total, e);
    TotalValueAt(items, e);
  }

  function RawTotalValue(parts: seq<RawAmount>): real
    requires PartsUsable(parts)
  {
    if parts == [] then 0.0 else RawTotalValue(parts[..|parts| - 1]) + Value(RawValue(parts[|parts| - 1]))
  }

  lemma CleanKeepsValue(raw: RawAmount)
    requires Usable(raw)
    ensures Value(Clean(raw)) == Value(RawValue(raw))
  {
    IdentityTextRoundTrip(RawValue(raw));
    EqualByValue(Clean(raw), RawValue(raw));
  }

  lemma {:induction false} CleanPartsKeepTotal(parts: seq<RawAmount>)
    requires PartsUsable(parts)
    ensures TotalValue(CleanParts(parts)) == RawTotalValue(parts)
  {
    if parts != [] {
      var n := |parts| - 1;
      CleanPartsKeepTotal(parts[..n]);
      CleanKeepsValue(parts[n]);
      assert CleanParts(parts)[..n] == CleanParts(parts[..n]);
    }
  }

  /** A finite number that is not negative. */
  predicate Charge(raw: RawAmount) { raw.Numeric? && raw.value.Finite? && Value(raw.value.value) >= 0.0 }

  lemma UsableIsCharge(raw: RawAmount)
    ensures Usable(raw) <==> Charge(raw)
  {
    if raw.Numeric? && raw.value.Finite? { ValueHasItsSign(raw.value.value); }
  }

  lemma AllAreCharges(raw: RawAmounts)
    ensures AllUsable(raw) <==> Charge(raw.total) && forall i :: 0 <= i < |raw.parts| ==> Charge(raw.parts[i])
  {
    UsableIsCharge(raw.total);
    forall i | 0 <= i < |raw.parts| ensures Usable(raw.parts[i]) <==> Charge(raw.parts[i]) {
      UsableIsCharge(raw.parts[i]);
    }
  }

  /** What is returned is spelled canonically. */
  lemma AcceptedSpelling(raw: RawAmounts)
    requires AmountsOf(raw).Some?
    ensures AllUsable(raw) && |AmountsOf(raw).value.parts| == |raw.parts|
    ensures AmountsOf(raw).value.total == Canonical(RawValue(raw.total))
    ensures forall i :: 0 <= i < |raw.parts| ==> AmountsOf(raw).value.parts[i] == Canonical(RawValue(raw.parts[i]))
  {
    AmountsOfMeans(raw);
    IdentityTextRoundTrip(RawValue(raw.total));
    forall i | 0 <= i < |raw.parts| ensures AmountsOf(raw).value.parts[i] == Canonical(RawValue(raw.parts[i])) {
      IdentityTextRoundTrip(RawValue(raw.parts[i]));
    }
  }

  /** Amounts are accepted exactly when every one is a finite nonnegative number and the
      components add up to the total, and every amount that is returned is the number that
      came in. */
  lemma AcceptedNumbers(raw: RawAmounts)
    ensures AllUsable(raw) <==> Charge(raw.total) && forall i :: 0 <= i < |raw.parts| ==> Charge(raw.parts[i])
    ensures AmountsOf(raw).Some? <==>
              AllUsable(raw) && Value(RawValue(raw.total)) == RawTotalValue(raw.parts)
    ensures AmountsOf(raw).Some? ==>
              var a := AmountsOf(raw).value;
              && Value(a.total) == Value(RawValue(raw.total)) && |a.parts| == |raw.parts|
              && forall i :: 0 <= i < |raw.parts| ==> Value(a.parts[i]) == Value(RawValue(raw.parts[i]))
  {
    AllAreCharges(raw);
    AmountsOfMeans(raw);
    if AllUsable(raw) {
      var a := CleanAmounts(raw);
      CleanKeepsValue(raw.total);
      CleanPartsKeepTotal(raw.parts);
      ExactTotalIsTheSum(a.parts);
      EqualByValue(a.total, ExactTotal(a.parts));
      forall i | 0 <= i < |raw.parts| ensures Value(a.parts[i]) == Value(RawValue(raw.parts[i])) {
        CleanKeepsValue(raw.parts[i]);
      }
    }
  }
}
