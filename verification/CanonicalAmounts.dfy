/** The canonical text of a money amount (`billing_identity_amount`,
    kestrel_cloud_runpod/billing.py) and how it reads back. */
module CanonicalAmounts {
  import opened Decimals

  type Text = seq<char>

  function DigitChar(d: nat): (c: char)
    requires d < 10
    ensures '0' <= c <= '9'
  {
    "0123456789"[d]
  }

  function DigitValue(c: char): (d: nat)
  {
    if '0' <= c <= '9' then c as int - '0' as int else 0
  }

  /** The decimal numeral of n, without leading zeros. */
  function Numeral(n: nat): (s: Text)
    ensures |s| == Digits(n)
    ensures AllDigits(s)
  {
    if n < 10 then [DigitChar(n)] else Numeral(n / 10) + [DigitChar(n % 10)]
  }

  predicate AllDigits(s: Text) { forall i :: 0 <= i < |s| ==> '0' <= s[i] <= '9' }

  function Zeros(n: nat): (s: Text)
    ensures |s| == n && forall i :: 0 <= i < n ==> s[i] == '0'
  {
    if n == 0 then "" else Zeros(n - 1) + "0"
  }

  function NumeralValue(s: Text): nat {
    if s == "" then 0 else 10 * NumeralValue(s[..|s| - 1]) + DigitValue(s[|s| - 1])
  }

  /** The numeral with enough leading zeros to leave a digit before `places` decimals. */
  function PaddedDigits(coefficient: nat, places: nat): (s: Text)
    ensures |s| > places && AllDigits(s)
  {
    var numeral := Numeral(coefficient);
    Zeros(if |numeral| > places then 0 else places + 1 - |numeral|) + numeral
  }

  /** A text with its decimal point `places` characters from the end. */
  function Pointed(s: Text, places: nat): Text
    requires places < |s|
  {
    s[..|s| - places] + "." + s[|s| - places..]
  }

  /** The unsigned body of Python's format(value, "f"). */
  function FixedBody(d: Decimal): Text {
    if d.exponent >= 0 then Numeral(d.coefficient) + Zeros(d.exponent)
    else
      var places := -d.exponent;
      Pointed(PaddedDigits(d.coefficient, places), places)
  }

  function SignText(d: Decimal): Text { if d.negative then "-" else "" }

  function StripRight(s: Text, c: char): (t: Text)
    ensures t <= s
    ensures t == "" || t[|t| - 1] != c
  {
    if s != "" && s[|s| - 1] == c then StripRight(s[..|s| - 1], c) else s
  }

  function StripDecimals(text: Text): Text {
    if '.' in text then StripRight(StripRight(text, '0'), '.') else text
  }

  function IdentityAmount(value: Decimal): Text {
    if value.coefficient == 0 then "0" else StripDecimals(SignText(value) + FixedBody(value))
  }

  function PointIndex(s: Text): (p: nat)
    ensures p <= |s|
    ensures p < |s| ==> s[p] == '.'
    ensures forall i :: 0 <= i < p ==> s[i] != '.'
  {
    if s == "" || s[0] == '.' then 0
    else
      var rest := PointIndex(s[1..]);
      assert forall i :: 1 <= i < 1 + rest ==> s[i] == s[1..][i - 1];
      1 + rest
  }

  function ReadUnsigned(text: Text): Decimal {
    var p := PointIndex(text);
    if p == |text| then Decimal(false, NumeralValue(text), 0)
    else Decimal(false, NumeralValue(text[..p] + text[p + 1..]), -((|text| - p - 1) as int))
  }

  /** Reading a plain numeral back, as Decimal(text) does. */
  function ReadAmount(text: Text): Decimal {
    if text != "" && text[0] == '-' then ReadUnsigned(text[1..]).(negative := true)
    else ReadUnsigned(text)
  }

  /** The unique spelling of a value: no positive exponent, no trailing zero decimals. */
  function Canonical(d: Decimal): (c: Decimal)
    ensures d.coefficient > 0 ==>
              c.coefficient > 0 && c.negative == d.negative && c.exponent <= 0
              && (c.exponent < 0 ==> c.coefficient % 10 != 0)
    decreases if d.exponent < 0 then -d.exponent else 0
  {
    if d.coefficient == 0 then ZERO
    else if d.exponent >= 0 then
      PositiveProduct(d.coefficient, Pow10(d.exponent));
      Decimal(d.negative, d.coefficient * Pow10(d.exponent), 0)
    else if d.coefficient % 10 == 0 then
      Canonical(Decimal(d.negative, d.coefficient / 10, d.exponent + 1))
    else d
  }

  lemma PositiveProduct(a: int, b: int)
    requires a > 0 && b > 0
    ensures a * b > 0
  {}

  // ---- the canonical form has the same value and is unique ----

  lemma {:induction false} CanonicalValue(d: Decimal)
    ensures NumericallyEqual(d, Canonical(d))
    decreases if d.exponent < 0 then -d.exponent else 0
  {
    if d.coefficient == 0 {
    } else if d.exponent >= 0 {
      MulAssoc(if d.negative then -1 else 1, d.coefficient, Pow10(d.exponent));
    } else if d.coefficient % 10 == 0 {
      var shorter := Decimal(d.negative, d.coefficient / 10, d.exponent + 1);
      CanonicalValue(shorter);
      var c := Canonical(d);
      var e := Lower(d.exponent, c.exponent);
      EqualAtAnyExponent(shorter, c, e);
      EqualAtAnyExponent(d, c, e);
      Rescale(shorter, d.exponent + 1, e);
      Pow10Add(1, d.exponent - e);
      assert Signed(d) == Signed(shorter) * 10;
      MulAssoc(Signed(shorter), 10, Pow10(d.exponent - e));
    }
  }

  lemma EqualTransitive(a: Decimal, b: Decimal, c: Decimal)
    requires NumericallyEqual(a, b) && NumericallyEqual(b, c)
    ensures NumericallyEqual(a, c) && NumericallyEqual(b, a)
  {
    var e := Lower(a.exponent, Lower(b.exponent, c.exponent));
    EqualAtAnyExponent(a, b, e);
    EqualAtAnyExponent(b, c, e);
    EqualAtAnyExponent(a, c, e);
    EqualAtAnyExponent(b, a, e);
  }

  lemma SameSign(a: int, p: int)
    requires p >= 1
    ensures (a > 0 <==> a * p > 0) && (a < 0 <==> a * p < 0) && (a == 0 <==> a * p == 0)
  {}

  lemma CanonicalUnique(a: Decimal, b: Decimal)
    requires a.coefficient > 0 && a.exponent <= 0 && (a.exponent < 0 ==> a.coefficient % 10 != 0)
    requires b.coefficient > 0 && b.exponent <= 0 && (b.exponent < 0 ==> b.coefficient % 10 != 0)
    requires NumericallyEqual(a, b)
    ensures a == b
  {
    var e := Lower(a.exponent, b.exponent);
    SameSign(Signed(a), Pow10(a.exponent - e));
    SameSign(Signed(b), Pow10(b.exponent - e));
    if a.exponent < b.exponent {
      assert Pow10(b.exponent - e) == 10 * Pow10(b.exponent - e - 1);
      EndsInZero(Signed(a), Signed(b), Pow10(b.exponent - e - 1));
    } else if b.exponent < a.exponent {
      assert Pow10(a.exponent - e) == 10 * Pow10(a.exponent - e - 1);
      EndsInZero(Signed(b), Signed(a), Pow10(a.exponent - e - 1));
    }
  }

  lemma EndsInZero(x: int, y: int, p: int)
    requires x == y * (10 * p)
    ensures x % 10 == 0 && (-x) % 10 == 0
  {
    assert x == 10 * (y * p);
    assert -x == 10 * (-(y * p));
  }

  lemma ZeroOnlyEqualsZero(a: Decimal, b: Decimal)
    requires NumericallyEqual(a, b)
    ensures a.coefficient == 0 <==> b.coefficient == 0
  {
    var e := Lower(a.exponent, b.exponent);
    SameSign(Signed(a), Pow10(a.exponent - e));
    SameSign(Signed(b), Pow10(b.exponent - e));
  }

  lemma EqualValuesShareCanonicalForm(a: Decimal, b: Decimal)
    requires NumericallyEqual(a, b)
    ensures Canonical(a) == Canonical(b)
  {
    CanonicalValue(a);
    CanonicalValue(b);
    EqualTransitive(a, Canonical(a), Canonical(a));
    EqualTransitive(Canonical(a), a, b);
    EqualTransitive(Canonical(a), b, Canonical(b));
    ZeroOnlyEqualsZero(a, b);
    if a.coefficient > 0 { CanonicalUnique(Canonical(a), Canonical(b)); }
  }

  // ---- the text only depends on the canonical form ----

  lemma NumeralAppendsZero(m: nat)
    requires m > 0
    ensures Numeral(10 * m) == Numeral(m) + "0"
  {
    assert (10 * m) / 10 == m && (10 * m) % 10 == 0;
  }

  lemma {:induction false} NumeralTimesTen(n: nat, k: nat)
    requires n > 0
    ensures Numeral(n * Pow10(k)) == Numeral(n) + Zeros(k)
  {
    if k == 0 {
      assert Numeral(n) + Zeros(0) == Numeral(n);
    } else {
      var m := n * Pow10(k - 1);
      PositiveProduct(n, Pow10(k - 1));
      TenTimes(n, Pow10(k - 1));
      assert n * Pow10(k) == 10 * m;
      NumeralTimesTen(n, k - 1);
      NumeralAppendsZero(m);
      assert Numeral(n) + (Zeros(k - 1) + "0") == (Numeral(n) + Zeros(k - 1)) + "0";
    }
  }

  lemma TenTimes(n: nat, p: int)
    ensures n * (10 * p) == 10 * (n * p)
  {}

  lemma PaddedTimesTen(n: nat, places: nat)
    requires n > 0
    ensures PaddedDigits(10 * n, places + 1) == PaddedDigits(n, places) + "0"
  {
    NumeralAppendsZero(n);
  }

  lemma StripAppended(s: Text, c: char)
    ensures StripRight(s + [c], c) == StripRight(s, c)
  {
    assert (s + [c])[..|s|] == s;
  }

  lemma NoPoint(s: Text)
    requires AllDigits(s)
    ensures '.' !in s
  {}

  lemma LastDecimalDropped(sign: Text, s: Text)
    requires s != "" && AllDigits(s)
    ensures StripDecimals(sign + (s + "." + "0")) == sign + s
  {
    assert sign + (s + "." + "0") == ((sign + s) + ".") + "0";
    assert (sign + s)[|sign + s| - 1] == s[|s| - 1] != '.';
    ZeroAndPointDropped(sign + s);
  }

  lemma ZeroAndPointDropped(t: Text)
    requires t != "" && t[|t| - 1] != '.'
    ensures StripDecimals((t + ".") + "0") == t
  {
    assert ((t + ".") + "0")[|t|] == '.';
    StripAppended(t + ".", '0');
    assert StripRight(t + ".", '0') == t + ".";
    StripAppended(t, '.');
  }

  lemma SignedDigits(negative: bool, s: Text)
    requires AllDigits(s)
    ensures StripDecimals((if negative then "-" else "") + s) == (if negative then "-" else "") + s
  {
    NoPoint(s);
  }

  lemma OneDecimalBody(n: nat)
    requires n > 0
    ensures FixedBody(Decimal(false, 10 * n, -1)) == Numeral(n) + "." + "0"
    ensures FixedBody(Decimal(false, n, 0)) == Numeral(n)
  {
    PaddedTimesTen(n, 0);
    assert PaddedDigits(n, 0) == Numeral(n);
    var t := Numeral(n) + "0";
    assert t[..|t| - 1] == Numeral(n) && t[|t| - 1..] == "0";
  }

  lemma OneDecimalZero(n: nat, negative: bool)
    requires n > 0
    ensures IdentityAmount(Decimal(negative, 10 * n, -1)) == IdentityAmount(Decimal(negative, n, 0))
  {
    var longer, shorter := Decimal(negative, 10 * n, -1), Decimal(negative, n, 0);
    OneDecimalBody(n);
    var s, sign := Numeral(n), SignText(longer);
    assert FixedBody(longer) == s + "." + "0" && FixedBody(shorter) == s;
    LastDecimalDropped(sign, s);
    SignedDigits(negative, s);
  }

  lemma PointedAppended(s: Text, places: nat)
    requires places < |s|
    ensures Pointed(s + "0", places + 1) == Pointed(s, places) + "0" && '.' in Pointed(s, places)
  {
    var t, cut := s + "0", |s| - places;
    assert t[..cut] == s[..cut] && t[cut..] == s[cut..] + "0";
    assert Pointed(s, places)[cut] == '.';
  }

  /** One more digit and one more decimal place keep the point where it is. */
  lemma AppendedBody(longer: nat, shorter: nat, places: int)
    requires places > 1 && PaddedDigits(longer, places) == PaddedDigits(shorter, places - 1) + "0"
    ensures FixedBody(Decimal(false, longer, -places)) == FixedBody(Decimal(false, shorter, 1 - places)) + "0"
    ensures '.' in FixedBody(Decimal(false, shorter, 1 - places))
  {
    PointedAppended(PaddedDigits(shorter, places - 1), places - 1);
  }

  lemma DeeperDecimalZero(n: nat, places: int, negative: bool)
    requires n > 0 && places > 1
    ensures IdentityAmount(Decimal(negative, 10 * n, -places)) == IdentityAmount(Decimal(negative, n, 1 - places))
  {
    PaddedTimesTen(n, places - 1);
    AppendedAmount(10 * n, n, places, negative);
  }

  lemma AppendedAmount(longer: nat, shorter: nat, places: int, negative: bool)
    requires longer > 0 && shorter > 0 && places > 1
    requires PaddedDigits(longer, places) == PaddedDigits(shorter, places - 1) + "0"
    ensures IdentityAmount(Decimal(negative, longer, -places)) == IdentityAmount(Decimal(negative, shorter, 1 - places))
  {
    AppendedBody(longer, shorter, places);
    var body := FixedBody(Decimal(false, shorter, 1 - places));
    assert FixedBody(Decimal(negative, shorter, 1 - places)) == body;
    assert FixedBody(Decimal(negative, longer, -places)) == body + "0";
    ZeroAfterPoint(SignText(Decimal(negative, longer, -places)), body);
  }

  lemma ZeroAfterPoint(sign: Text, body: Text)
    requires '.' in body
    ensures StripDecimals(sign + (body + "0")) == StripDecimals(sign + body)
  {
    var text := sign + body;
    assert sign + (body + "0") == text + "0";
    StripAppended(text, '0');
  }

  /** Dropping one trailing zero decimal does not change the text. */
  lemma TextDropsZero(n: nat, exponent: int, negative: bool)
    requires n > 0 && exponent < 0
    ensures IdentityAmount(Decimal(negative, 10 * n, exponent))
         == IdentityAmount(Decimal(negative, n, exponent + 1))
  {
    if exponent == -1 { OneDecimalZero(n, negative); } else { DeeperDecimalZero(n, -exponent, negative); }
  }

  lemma TextOfWhole(d: Decimal)
    requires d.coefficient > 0 && d.exponent >= 0
    ensures IdentityAmount(d) == IdentityAmount(Canonical(d))
  {
    NumeralTimesTen(d.coefficient, d.exponent);
    PositiveProduct(d.coefficient, Pow10(d.exponent));
    var c := Canonical(d);
    assert c == Decimal(d.negative, d.coefficient * Pow10(d.exponent), 0);
    assert FixedBody(c) == Numeral(c.coefficient) + Zeros(0) == FixedBody(d);
  }

  lemma {:induction false} TextOfCanonical(d: Decimal)
    ensures IdentityAmount(d) == IdentityAmount(Canonical(d))
    decreases if d.exponent < 0 then -d.exponent else 0
  {
    if d.coefficient == 0 {
    } else if d.exponent >= 0 {
      TextOfWhole(d);
    } else if d.coefficient % 10 == 0 {
      var shorter := Decimal(d.negative, d.coefficient / 10, d.exponent + 1);
      assert d == Decimal(d.negative, 10 * (d.coefficient / 10), d.exponent);
      TextDropsZero(d.coefficient / 10, d.exponent, d.negative);
      TextOfCanonical(shorter);
    }
  }

  // ---- reading the text back ----

  lemma {:induction false} NumeralReads(n: nat)
    ensures NumeralValue(Numeral(n)) == n
  {
    if n >= 10 {
      NumeralReads(n / 10);
      assert Numeral(n)[..|Numeral(n)| - 1] == Numeral(n / 10);
    } else {
      assert Numeral(n)[..0] == "";
    }
  }

  lemma {:induction false} LeadingZeros(k: nat, s: Text)
    ensures NumeralValue(Zeros(k) + s) == NumeralValue(s)
  {
    if s == "" {
      assert Zeros(k) + s == Zeros(k);
      if k > 0 {
        LeadingZeros(k - 1, s);
        assert Zeros(k)[..k - 1] == Zeros(k - 1) == Zeros(k - 1) + s;
      }
    } else {
      LeadingZeros(k, s[..|s| - 1]);
      assert (Zeros(k) + s)[..k + |s| - 1] == Zeros(k) + s[..|s| - 1];
    }
  }

  lemma LastDigit(n: nat, places: nat)
    requires n % 10 != 0
    ensures var s := PaddedDigits(n, places); s[|s| - 1] != '0'
  {
    assert Numeral(n)[|Numeral(n)| - 1] == DigitChar(n % 10);
  }

  lemma PointOfSplit(whole: Text, fraction: Text)
    requires AllDigits(whole)
    ensures PointIndex(whole + "." + fraction) == |whole|
  {
    var t := whole + "." + fraction;
    assert t[|whole|] == '.';
    assert forall i :: 0 <= i < |whole| ==> t[i] == whole[i];
  }

  lemma SignReads(negative: bool, body: Text)
    requires body != "" && body[0] != '-'
    ensures ReadAmount((if negative then "-" else "") + body) == ReadUnsigned(body).(negative := negative)
  {
    var text := (if negative then "-" else "") + body;
    assert negative ==> text[1..] == body;
    assert !negative ==> text == body;
  }

  lemma UnsignedSplit(whole: Text, fraction: Text)
    requires AllDigits(whole)
    ensures ReadUnsigned(whole + "." + fraction) == Decimal(false, NumeralValue(whole + fraction), -(|fraction| as int))
  {
    var body := whole + "." + fraction;
    PointOfSplit(whole, fraction);
    assert body[..|whole|] == whole && body[|whole| + 1..] == fraction;
  }

  lemma JoinedReads(whole: Text, fraction: Text, s: Text, text: Text)
    requires AllDigits(whole) && whole + fraction == s && text == whole + "." + fraction
    ensures ReadUnsigned(text) == Decimal(false, NumeralValue(s), -(|fraction| as int))
  {
    UnsignedSplit(whole, fraction);
  }

  lemma FirstOfJoined(whole: Text, fraction: Text)
    requires whole != ""
    ensures (whole + "." + fraction)[0] == (whole + fraction)[0] == whole[0]
  {}

  lemma PointedReads(s: Text, places: int)
    requires AllDigits(s) && 0 < places < |s|
    ensures ReadUnsigned(Pointed(s, places)) == Decimal(false, NumeralValue(s), -places)
    ensures Pointed(s, places)[0] == s[0]
  {
    var whole, fraction := s[..|s| - places], s[|s| - places..];
    assert whole + fraction == s && Pointed(s, places) == whole + "." + fraction;
    JoinedReads(whole, fraction, s, Pointed(s, places));
    FirstOfJoined(whole, fraction);
  }

  /** A text made of a sign and digits around one point reads as those digits. */
  lemma SplitReads(negative: bool, s: Text, places: int)
    requires AllDigits(s) && 0 < places < |s|
    ensures ReadAmount((if negative then "-" else "") + Pointed(s, places))
         == Decimal(negative, NumeralValue(s), -places)
  {
    PointedReads(s, places);
    SignReads(negative, Pointed(s, places));
  }

  lemma WholeReads(negative: bool, s: Text)
    requires AllDigits(s) && s != ""
    ensures ReadAmount((if negative then "-" else "") + s) == Decimal(negative, NumeralValue(s), 0)
  {
    SignReads(negative, s);
    NoPoint(s);
  }

  lemma PaddedReads(n: nat, places: nat)
    ensures NumeralValue(PaddedDigits(n, places)) == n
  {
    NumeralReads(n);
    LeadingZeros(if |Numeral(n)| > places then 0 else places + 1 - |Numeral(n)|, Numeral(n));
  }

  lemma NothingToStrip(text: Text)
    requires text != "" && text[|text| - 1] != '0' && text[|text| - 1] != '.'
    ensures StripDecimals(text) == text
  {}

  lemma CanonicalTextUnstripped(c: Decimal)
    requires c.coefficient > 0 && c.exponent < 0 && c.coefficient % 10 != 0
    ensures IdentityAmount(c) == SignText(c) + FixedBody(c)
  {
    var places := -c.exponent;
    var s := PaddedDigits(c.coefficient, places);
    var text := SignText(c) + FixedBody(c);
    LastDigit(c.coefficient, places);
    assert text[|text| - 1] == s[|s| - 1];
    NothingToStrip(text);
  }

  lemma CanonicalReads(c: Decimal)
    requires c.coefficient > 0 && c.exponent <= 0 && (c.exponent < 0 ==> c.coefficient % 10 != 0)
    ensures ReadAmount(IdentityAmount(c)) == c
  {
    if c.exponent == 0 {
      var s := Numeral(c.coefficient);
      assert FixedBody(c) == s + Zeros(0) == s;
      NumeralReads(c.coefficient);
      WholeReads(c.negative, s);
      SignedDigits(c.negative, s);
    } else {
      CanonicalTextUnstripped(c);
      PaddedReads(c.coefficient, -c.exponent);
      SplitReads(c.negative, PaddedDigits(c.coefficient, -c.exponent), -c.exponent);
    }
  }

  /** Reading the identity text back gives the same value, in its canonical spelling. */
  lemma IdentityTextRoundTrip(value: Decimal)
    ensures NumericallyEqual(ReadAmount(IdentityAmount(value)), value)
    ensures ReadAmount(IdentityAmount(value)) == Canonical(value)
  {
    TextOfCanonical(value);
    CanonicalValue(value);
    if value.coefficient == 0 {
      assert "0"[..0] == "";
      assert ReadAmount("0") == Decimal(false, 0, 0);
    } else {
      CanonicalReads(Canonical(value));
      EqualTransitive(value, Canonical(value), Canonical(value));
    }
  }

  // ---- what the text looks like ----

  /** Digits without a superfluous leading zero, then perhaps a point and digits that do not end
      in a zero; never an exponent. */
  predicate PlainNumber(body: Text) {
    var p := PointIndex(body);
    && p > 0 && AllDigits(body[..p]) && (p > 1 ==> body[0] != '0')
    && (p < |body| ==> p + 1 < |body| && AllDigits(body[p + 1..]) && body[|body| - 1] != '0')
  }

  lemma {:induction false} NoLeadingZero(n: nat)
    requires n > 0
    ensures Numeral(n)[0] != '0'
  {
    if n >= 10 { NoLeadingZero(n / 10); }
  }

  lemma PlainWhole(s: Text)
    requires s != "" && AllDigits(s) && (|s| > 1 ==> s[0] != '0')
    ensures PlainNumber(s)
  {
    NoPoint(s);
    assert s[..|s|] == s;
  }

  lemma PlainSplit(whole: Text, fraction: Text)
    requires whole != "" && AllDigits(whole) && (|whole| > 1 ==> whole[0] != '0')
    requires fraction != "" && AllDigits(fraction) && fraction[|fraction| - 1] != '0'
    ensures PlainNumber(whole + "." + fraction)
  {
    var body := whole + "." + fraction;
    PointOfSplit(whole, fraction);
    assert body[..|whole|] == whole && body[|whole| + 1..] == fraction;
    assert body[0] == whole[0] && body[|body| - 1] == fraction[|fraction| - 1];
  }

  lemma PlainPointed(s: Text, places: int)
    requires 0 < places < |s| && AllDigits(s) && s[|s| - 1] != '0' && (|s| > places + 1 ==> s[0] != '0')
    ensures PlainNumber(Pointed(s, places))
  {
    var whole, fraction := s[..|s| - places], s[|s| - places..];
    assert fraction[|fraction| - 1] == s[|s| - 1] && whole[0] == s[0];
    PlainSplit(whole, fraction);
  }

  lemma CanonicalTextIsPlain(c: Decimal)
    requires c.coefficient > 0 && c.exponent <= 0 && (c.exponent < 0 ==> c.coefficient % 10 != 0)
    ensures IdentityAmount(c) == SignText(c) + FixedBody(c) && PlainNumber(FixedBody(c))
  {
    NoLeadingZero(c.coefficient);
    if c.exponent == 0 {
      var s := Numeral(c.coefficient);
      assert FixedBody(c) == s + Zeros(0) == s;
      SignedDigits(c.negative, s);
      PlainWhole(s);
    } else {
      var places := -c.exponent;
      var s := PaddedDigits(c.coefficient, places);
      CanonicalTextUnstripped(c);
      LastDigit(c.coefficient, places);
      PlainPointed(s, places);
    }
  }

  /** The identity text is a plain number, with a minus sign exactly if the value is negative. */
  lemma IdentityTextIsPlain(value: Decimal)
    ensures var text := IdentityAmount(value);
            if Signed(value) < 0 then text != "" && text[0] == '-' && PlainNumber(text[1..]) else PlainNumber(text)
  {
    TextOfCanonical(value);
    if value.coefficient == 0 {
      PlainWhole("0");
    } else {
      var c := Canonical(value);
      CanonicalTextIsPlain(c);
      assert c.negative ==> (SignText(c) + FixedBody(c))[1..] == FixedBody(c);
      assert !c.negative ==> SignText(c) + FixedBody(c) == FixedBody(c);
    }
  }

  /** Two amounts share their identity text exactly when they are the same number. */
  lemma IdentityTextIsNumerical(a: Decimal, b: Decimal)
    ensures IdentityAmount(a) == IdentityAmount(b) <==> NumericallyEqual(a, b)
  {
    if NumericallyEqual(a, b) {
      EqualValuesShareCanonicalForm(a, b);
      TextOfCanonical(a);
      TextOfCanonical(b);
    }
    if IdentityAmount(a) == IdentityAmount(b) {
      var read := ReadAmount(IdentityAmount(a));
      IdentityTextRoundTrip(a);
      IdentityTextRoundTrip(b);
      EqualTransitive(read, a, a);
      EqualTransitive(a, read, b);
    }
  }
}
