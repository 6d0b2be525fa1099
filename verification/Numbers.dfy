/** The number literals the reader accepts are those of the grammar in section 6 of RFC 8259. */
module Numbers {
  import opened Basics
  import opened JsonText
  import opened Canonical

  predicate AllDigits(t: Text) { forall i | 0 <= i < |t| :: IsDigit(t[i]) }

  /** A zero, or digits that do not begin with one. */
  predicate IntPart(t: Text) { t == [0x30] || (t != [] && AllDigits(t) && t[0] != 0x30) }

  /** Nothing, or a point and digits. */
  predicate FracPart(t: Text) { t == [] || (|t| >= 2 && t[0] == 0x2E && AllDigits(t[1..])) }

  /** Nothing, or an e in either case, a sign or none, and digits. */
  predicate ExpPart(t: Text) {
    t == [] || (t[0] in {0x45, 0x65}
                && ((|t| >= 2 && AllDigits(t[1..])) || (|t| >= 3 && t[1] in {0x2B, 0x2D} && AllDigits(t[2..]))))
  }

  ghost predicate Composed(t: Text, minus: Text, whole: Text, frac: Text, exp: Text) {
    && t == minus + (whole + (frac + exp)) && minus in {[], [0x2D]} && IntPart(whole) && FracPart(frac) && ExpPart(exp)
  }

  lemma {:induction false} DigitsAre(t: Text)
    ensures AllDigits(t[..Digits(t)]) && (Digits(t) < |t| ==> !IsDigit(t[Digits(t)]))
    decreases |t|
  {
    if t != [] && IsDigit(t[0]) {
      DigitsAre(t[1..]);
      assert t[..Digits(t)] == [t[0]] + t[1..][..Digits(t[1..])];
    }
  }

  lemma {:induction false} DigitsOf(ds: Text, rest: Text)
    requires AllDigits(ds) && (rest != [] ==> !IsDigit(rest[0]))
    ensures Digits(ds + rest) == |ds|
    decreases |ds|
  {
    if ds == [] {
      assert ds + rest == rest;
    } else {
      assert (ds + rest)[1..] == ds[1..] + rest;
      DigitsOf(ds[1..], rest);
    }
  }

  lemma AllDigitsOf(ds: Text)
    requires AllDigits(ds)
    ensures Digits(ds) == |ds|
  {
    DigitsOf(ds, []);
    assert ds + [] == ds;
  }

  lemma ExpExactlyWhen(t: Text)
    ensures IsExponent(t) <==> ExpPart(t)
  {
    if |t| >= 2 && t[0] in {0x45, 0x65} {
      DigitsAre(t[1..]);
      DigitsAre(t[2..]);
      if AllDigits(t[1..]) {
        AllDigitsOf(t[1..]);
        assert IsDigit(t[1..][0]);
      }
      if AllDigits(t[2..]) {
        AllDigitsOf(t[2..]);
      }
    }
  }

  lemma FracSplit(t: Text) returns (frac: Text, exp: Text)
    requires AfterFraction(t).Some? && IsExponent(AfterFraction(t).value)
    ensures t == frac + exp && FracPart(frac) && ExpPart(exp)
  {
    exp := AfterFraction(t).value;
    ExpExactlyWhen(exp);
    if t == [] || t[0] != 0x2E {
      frac := [];
    } else {
      var n := Digits(t[1..]);
      frac := [t[0]] + t[1..][..n];
      DigitsAre(t[1..]);
      assert frac[1..] == t[1..][..n];
      assert t == frac + exp;
    }
  }

  lemma FracBack(frac: Text, exp: Text)
    requires FracPart(frac) && ExpPart(exp)
    ensures AfterFraction(frac + exp) == Some(exp)
  {
    if frac == [] {
      assert frac + exp == exp;
    } else {
      assert (frac + exp)[1..] == frac[1..] + exp;
      DigitsOf(frac[1..], exp);
    }
  }

  lemma AfterWhole(whole: Text, rest: Text)
    requires IntPart(whole) && (rest != [] ==> !IsDigit(rest[0]))
    ensures var u := whole + rest;
            u != [] && IsDigit(u[0]) && (if u[0] == 0x30 then u[1..] else u[Digits(u)..]) == rest
  {
    DigitsOf(whole, rest);
  }

  lemma NotADigitNext(frac: Text, exp: Text)
    requires FracPart(frac) && ExpPart(exp)
    ensures frac + exp != [] ==> !IsDigit((frac + exp)[0])
  {
  }

  lemma BytesOfNumber(t: Text, minus: Text, whole: Text, frac: Text, exp: Text)
    requires Composed(t, minus, whole, frac, exp)
    ensures forall i | 0 <= i < |t| :: IsNumberByte(t[i])
  {
    DigitBytes(whole);
    assert forall i | 0 < i < |frac| :: frac[i] == frac[1..][i - 1];
    assert forall i | 1 < i < |exp| :: exp[i] == exp[2..][i - 2] && exp[i] == exp[1..][i - 1];
    assert |exp| > 1 ==> exp[1] == exp[1..][0];
  }

  lemma DigitBytes(whole: Text)
    requires IntPart(whole)
    ensures forall i | 0 <= i < |whole| :: IsNumberByte(whole[i])
  {
  }

  lemma WholeSplit(u: Text) returns (whole: Text, rest: Text)
    requires u != [] && IsDigit(u[0])
    ensures IntPart(whole) && u == whole + rest && rest == if u[0] == 0x30 then u[1..] else u[Digits(u)..]
  {
    var n := if u[0] == 0x30 then 1 else Digits(u);
    DigitsAre(u);
    whole, rest := u[..n], u[n..];
  }

  lemma NumberSplit(t: Text) returns (minus: Text, whole: Text, frac: Text, exp: Text)
    requires IsNumber(t)
    ensures Composed(t, minus, whole, frac, exp)
  {
    hide Digits, AfterFraction, IsExponent, IntPart, FracPart, ExpPart;
    minus := if t[0] == 0x2D then [t[0]] else [];
    var rest: Text;
    whole, rest := WholeSplit(t[|minus|..]);
    frac, exp := FracSplit(rest);
    assert t == minus + t[|minus|..];
  }

  lemma ComposedIsNumber(t: Text, minus: Text, whole: Text, frac: Text, exp: Text)
    requires Composed(t, minus, whole, frac, exp)
    ensures IsNumber(t)
  {
    BytesOfNumber(t, minus, whole, frac, exp);
    NotADigitNext(frac, exp);
    AfterWhole(whole, frac + exp);
    FracBack(frac, exp);
    ExpExactlyWhen(exp);
    hide Digits, IsExponent, AfterFraction;
    var u := whole + (frac + exp);
    assert u[0] != 0x2D;
    assert u == if t[0] == 0x2D then t[1..] else t;
  }

  /** A literal is accepted exactly when it is an optional minus, an integer without leading zeros, an
      optional fraction and an optional exponent. */
  lemma NumberExactlyWhen(t: Text)
    ensures IsNumber(t) <==> exists minus, whole, frac, exp :: Composed(t, minus, whole, frac, exp)
  {
    hide IsNumber, Composed;
    if IsNumber(t) {
      var minus, whole, frac, exp := NumberSplit(t);
      assert Composed(t, minus, whole, frac, exp);
    }
    if minus, whole, frac, exp :| Composed(t, minus, whole, frac, exp) {
      ComposedIsNumber(t, minus, whole, frac, exp);
    }
  }
}
