/** Rearrangements of sequences, stated with multisets, sequences related item by item, and sums. */
module Sequences {

  lemma SameLength<T>(a: seq<T>, b: seq<T>)
    requires multiset(a) == multiset(b)
    ensures |a| == |b|
  {
    assert |multiset(a)| == |a|;
    assert |multiset(b)| == |b|;
  }

  lemma SameElements<T>(a: seq<T>, b: seq<T>, k: nat) returns (j: nat)
    requires multiset(a) == multiset(b) && k < |a|
    ensures j < |b| && b[j] == a[k]
  {
    assert a[k] in multiset(b);
    j :| 0 <= j < |b| && b[j] == a[k];
  }

  function Without<T>(s: seq<T>, k: nat): seq<T>
    requires k < |s|
  {
    s[..k] + s[k + 1..]
  }

  lemma MultisetWithout<T>(s: seq<T>, k: nat)
    requires k < |s|
    ensures multiset(Without(s, k)) == multiset(s) - multiset{s[k]}
  {
    assert s == s[..k] + [s[k]] + s[k + 1..];
  }

  /** Removing one occurrence of the same element from both sides keeps the rearrangement. */
  lemma RemoveBoth<T>(a: seq<T>, i: nat, b: seq<T>, j: nat)
    requires multiset(a) == multiset(b) && i < |a| && j < |b| && a[i] == b[j]
    ensures multiset(Without(a, i)) == multiset(Without(b, j))
  {
    MultisetWithout(a, i);
    MultisetWithout(b, j);
  }

  lemma WithoutLast<T>(s: seq<T>)
    requires s != []
    ensures Without(s, |s| - 1) == s[..|s| - 1]
  {}

  function Mapped<T, U>(s: seq<T>, f: T -> U): (t: seq<U>)
    ensures |t| == |s| && forall i :: 0 <= i < |s| ==> t[i] == f(s[i])
  {
    seq(|s|, i requires 0 <= i < |s| => f(s[i]))
  }

  lemma {:induction false} MappedPermutes<T, U>(a: seq<T>, b: seq<T>, f: T -> U)
    requires multiset(a) == multiset(b)
    ensures multiset(Mapped(a, f)) == multiset(Mapped(b, f))
  {
    SameLength(a, b);
    if a != [] {
      var n := |a| - 1;
      var k := SameElements(a, b, n);
      RemoveBoth(a, n, b, k);
      MappedPermutes(Without(a, n), Without(b, k), f);
      MappedWithout(a, n, f);
      MappedWithout(b, k, f);
    }
  }

  lemma MappedWithout<T, U>(s: seq<T>, k: nat, f: T -> U)
    requires k < |s|
    ensures multiset(Mapped(s, f)) == multiset(Mapped(Without(s, k), f)) + multiset{f(s[k])}
  {
    var m := Mapped(s, f);
    assert m == m[..k] + [m[k]] + m[k + 1..];
    assert Mapped(Without(s, k), f) == m[..k] + m[k + 1..];
  }

  method AllHold(n: nat, p: nat -> bool) returns (ok: bool)
    ensures ok <==> forall i :: 0 <= i < n ==> p(i)
  {
    for i := 0 to n
      invariant forall j :: 0 <= j < i ==> p(j)
    {
      if !p(i) { return false; }
    }
    return true;
  }

  /** The items of b are related to the first items of a. */
  predicate Matched<A(!new), B(!new)>(related: (A, B) -> bool, a: seq<A>, b: seq<B>) {
    |b| <= |a| && forall i :: 0 <= i < |b| ==> related(a[i], b[i])
  }

  lemma MatchedNext<A(!new), B(!new)>(related: (A, B) -> bool, a: seq<A>, b: seq<B>, next: B)
    requires Matched(related, a, b) && |b| < |a| && related(a[|b|], next)
    ensures Matched(related, a, b + [next])
  {
  }

  function Sum(xs: seq<real>): real {
    if xs == [] then 0.0 else Sum(xs[..|xs| - 1]) + xs[|xs| - 1]
  }

  lemma LastOfWithout<T>(s: seq<T>, k: nat)
    requires k < |s| - 1
    ensures |Without(s, k)| == |s| - 1
    ensures Without(s, k)[|s| - 2] == s[|s| - 1] && Without(s, k)[..|s| - 2] == Without(s[..|s| - 1], k)
  {}

  lemma {:induction false} SumWithout(xs: seq<real>, k: nat)
    requires k < |xs|
    ensures Sum(xs) == Sum(Without(xs, k)) + xs[k]
  {
    if k == |xs| - 1 {
      WithoutLast(xs);
    } else {
      SumWithout(xs[..|xs| - 1], k);
      LastOfWithout(xs, k);
    }
  }

  /** A sum does not depend on the order. */
  lemma {:induction false} SumPermutes(a: seq<real>, b: seq<real>)
    requires multiset(a) == multiset(b)
    ensures Sum(a) == Sum(b)
  {
    if a == [] {
      assert |multiset(b)| == 0;
    } else {
      var n := |a| - 1;
      var k := SameElements(a, b, n);
      RemoveBoth(a, n, b, k);
      WithoutLast(a);
      SumWithout(b, k);
      SumPermutes(a[..n], Without(b, k));
    }
  }
}
