/** What number tokens are worth, from their parts (RFC 8259, section 6). */
module NumberLaws {
  import opened Json

  predicate Digits(s: string) {
    s != "" && forall k | 0 <= k < |s| :: Digit(s[k])
  }

  /** An integer part: digits without a leading zero. */
  predicate Whole(w: string) {
    Digits(w) && (w == "0" || w[0] != '0')
  }

  /** The value of a digit string, digit by digit. */
  function Decimal(digits: string): nat
    requires forall k | 0 <= k < |digits| :: Digit(digits[k])
  {
    if digits == "" then 0
    else
      var last := digits[|digits| - 1];
      assert Digit(last);
      10 * Decimal(digits[..|digits| - 1]) + (last as int - '0' as int)
  }

  predicate Stands(t: string, i: nat, part: string) {
    i + |part| <= |t| && t[i..i + |part|] == part
  }

  lemma DigitsStand(t: string, i: nat, digits: string)
    requires Stands(t, i, digits) && forall k | 0 <= k < |digits| :: Digit(digits[k])
    ensures forall k | i <= k < i + |digits| :: Digit(t[k]) && t[k] == digits[k - i]
  {
    forall k | i <= k < i + |digits| ensures Digit(t[k]) && t[k] == digits[k - i] {
      assert t[k] == t[i..i + |digits|][k - i];
    }
  }

  lemma {:induction false} DecimalOf(t: string, i: nat, digits: string)
    requires Stands(t, i, digits) && forall k | 0 <= k < |digits| :: Digit(digits[k])
    ensures forall k | i <= k < i + |digits| :: Digit(t[k])
    ensures DigitsValue(t, i, i + |digits|) == Decimal(digits)
    decreases |digits|
  {
    DigitsStand(t, i, digits);
    if digits != "" {
      var init := digits[..|digits| - 1];
      assert t[i..i + |init|] == init;
      DecimalOf(t, i, init);
    }
  }

  lemma {:induction false} DigitsRun(t: string, i: nat, e: nat)
    requires i <= e <= |t| && (forall k | i <= k < e :: Digit(t[k])) && (e < |t| ==> !Digit(t[e]))
    ensures DigitsEnd(t, i) == e
    decreases e - i
  {
    if i < e { DigitsRun(t, i + 1, e); }
  }

  /** `e` or `E`, perhaps signed. */
  predicate Mark(exp: string) {
    && 1 <= |exp| <= 2 && (exp[0] == 'e' || exp[0] == 'E')
    && (|exp| == 2 ==> exp[1] == '+' || exp[1] == '-')
  }

  predicate Lowers(exp: string) {
    |exp| == 2 && exp[1] == '-'
  }

  function Sign(neg: bool): string {
    if neg then "-" else ""
  }

  function Fraction(f: string): string {
    if f == "" then "" else "." + f
  }

  /** A token's parts, where they stand in it. */
  predicate Parts(t: string, neg: bool, w: string, f: string, exp: string, x: string) {
    && Whole(w) && (f == "" || Digits(f)) && (if exp == "" then x == "" else Mark(exp) && Digits(x))
    && t == Sign(neg) + w + Fraction(f) + exp + x
  }

  /** Where the parts end. */
  function WholeEnd(neg: bool, w: string): nat {
    |Sign(neg)| + |w|
  }

  lemma Joined(a: string, b: string, c: string, d: string, e: string)
    ensures var (t, i, j, k) := (a + b + c + d + e, |a|, |a| + |b|, |a| + |b| + |c|);
            Stands(t, i, b) && Stands(t, j, c) && Stands(t, k, d) && Stands(t, k + |d|, e)
  {
    var (t, i, j, k) := (a + b + c + d + e, |a|, |a| + |b|, |a| + |b| + |c|);
    assert t[i..j] == b && t[j..k] == c && t[k..k + |d|] == d && t[k + |d|..] == e;
    assert t[k + |d|..k + |d| + |e|] == e;
  }

  lemma Layout(t: string, neg: bool, w: string, f: string, exp: string, x: string)
    requires Parts(t, neg, w, f, exp, x)
    ensures var a := WholeEnd(neg, w);
            var b := a + |Fraction(f)|;
            && t != "" && (t[0] == '-' <==> neg)
            && Stands(t, |Sign(neg)|, w) && Stands(t, a, Fraction(f)) && Stands(t, b, exp) && Stands(t, b + |exp|, x)
            && |t| == b + |exp| + |x|
  {
    hide Stands, Fraction;
    Joined(Sign(neg), w, Fraction(f), exp, x);
    assert t[0] == if neg then '-' else w[0];
  }

  lemma WholeEnds(t: string, neg: bool, w: string, f: string, exp: string, x: string)
    requires Parts(t, neg, w, f, exp, x)
    ensures IntEnd(t, 0) == WholeEnd(neg, w)
  {
    Layout(t, neg, w, f, exp, x);
    var k, a := |Sign(neg)|, WholeEnd(neg, w);
    DigitsStand(t, k, w);
    NoDigitAfter(t, a, f, exp, x);
    if w != "0" { DigitsRun(t, k, a); }
  }

  lemma NoDigitAfter(t: string, a: nat, f: string, exp: string, x: string)
    requires Stands(t, a, Fraction(f)) && Stands(t, a + |Fraction(f)|, exp) && |t| == a + |Fraction(f)| + |exp| + |x|
    requires if exp == "" then x == "" else Mark(exp)
    ensures a < |t| ==> !Digit(t[a])
    ensures a < |t| && f == "" ==> t[a] != '.'
    ensures a < |t| && f != "" ==> t[a] == '.'
  {
    if f != "" {
      assert t[a] == t[a..a + |Fraction(f)|][0];
    } else if exp != "" {
      assert t[a] == t[a..a + |exp|][0];
    }
  }

  lemma FractionEnds(t: string, neg: bool, w: string, f: string, exp: string, x: string)
    requires Parts(t, neg, w, f, exp, x)
    ensures FracEnd(t, WholeEnd(neg, w)) == WholeEnd(neg, w) + |Fraction(f)|
  {
    hide Sign, Stands, Mark, DigitsEnd;
    Layout(t, neg, w, f, exp, x);
    var a := WholeEnd(neg, w);
    NoDigitAfter(t, a, f, exp, x);
    if f != "" {
      FractionStands(t, a, f, exp, x);
      DigitsRun(t, a + 1, a + |Fraction(f)|);
    }
  }

  lemma FractionStands(t: string, a: nat, f: string, exp: string, x: string)
    requires Digits(f) && Stands(t, a, Fraction(f)) && Stands(t, a + |Fraction(f)|, exp)
    requires |t| == a + |Fraction(f)| + |exp| + |x| && if exp == "" then x == "" else Mark(exp)
    ensures var b := a + |Fraction(f)|;
            && a + 1 < b <= |t| && (forall k | a + 1 <= k < b :: Digit(t[k])) && (b < |t| ==> !Digit(t[b]))
  {
    FractionDigits(t, a, f);
    DigitsStand(t, a + 1, f);
    NoDigitAfter(t, a + |Fraction(f)|, "", exp, x);
  }

  lemma ExponentEnds(t: string, b: nat, exp: string, x: string)
    requires b <= |t| && Stands(t, b, exp) && Stands(t, b + |exp|, x) && |t| == b + |exp| + |x|
    requires if exp == "" then x == "" else Mark(exp) && Digits(x)
    ensures ExpEnd(t, b) == |t|
    ensures exp != "" ==> ExponentAt(t, b) == if Lowers(exp) then Lowered(Decimal(x)) else Raised(Decimal(x))
  {
    hide Decimal, DigitsValue;
    if exp != "" {
      var n := b + |exp|;
      MarkStands(t, b, exp, x);
      DigitsRun(t, n, |t|);
      DecimalOf(t, n, x);
    }
  }

  lemma MarkStands(t: string, b: nat, exp: string, x: string)
    requires Stands(t, b, exp) && Stands(t, b + |exp|, x) && |t| == b + |exp| + |x| && Mark(exp) && Digits(x)
    ensures var n := b + |exp|;
            && (forall k | n <= k < |t| :: Digit(t[k])) && n < |t|
            && t[b] == exp[0] && t[b + 1] == if |exp| == 2 then exp[1] else x[0]
  {
    var n := b + |exp|;
    DigitsStand(t, n, x);
    assert t[b] == t[b..n][0];
    if |exp| == 2 { assert t[b + 1] == t[b..n][1]; }
  }

  /** The value of the token with these parts. */
  function Worth(neg: bool, w: string, f: string, exp: string, x: string): real
    requires Whole(w) && (f == "" || Digits(f)) && (exp == "" || Digits(x))
  {
    var size := Decimal(w) as real + (if f == "" then 0.0 else Decimal(f) as real / Pow10(|f|) as real);
    var signed := if neg then -size else size;
    if exp == "" then signed
    else if Lowers(exp) then signed / Pow10(Decimal(x)) as real
    else signed * Pow10(Decimal(x)) as real
  }

  lemma WorthAssembled(neg: bool, w: string, f: string, exp: string, x: string)
    requires Whole(w) && (f == "" || Digits(f)) && (exp == "" || Digits(x))
    ensures Worth(neg, w, f, exp, x)
         == Assemble(neg, Decimal(w), if f == "" then 0 else Decimal(f), |f|,
                     if exp == "" then NoExponent else if Lowers(exp) then Lowered(Decimal(x)) else Raised(Decimal(x)))
  {
    hide Decimal, Whole, Digits, Pow10, Lowers;
    if f == "" { NoFraction(); }
  }

  lemma NoFraction()
    ensures 0 as real / Pow10(0) as real == 0.0
  {
  }

  lemma TokenIsNumber(t: string, neg: bool, w: string, f: string, exp: string, x: string)
    requires Parts(t, neg, w, f, exp, x)
    ensures var a := WholeEnd(neg, w);
            var b := a + |Fraction(f)|;
            && IntEnd(t, 0) == a && FracEnd(t, a) == b && ExpEnd(t, b) == |t| && IsNumber(t)
  {
    hide IntEnd, FracEnd, ExpEnd, DigitsValue, Stands, Mark, ExponentAt, Fraction;
    Layout(t, neg, w, f, exp, x);
    WholeEnds(t, neg, w, f, exp, x);
    FractionEnds(t, neg, w, f, exp, x);
    ExponentEnds(t, WholeEnd(neg, w) + |Fraction(f)|, exp, x);
    assert WholeEnd(neg, w) > 0;
  }

  /** Every token is a number and is worth what its sign, digits, fraction and exponent say. */
  lemma NumberWorth(t: string, neg: bool, w: string, f: string, exp: string, x: string)
    requires Parts(t, neg, w, f, exp, x)
    ensures IsNumber(t) && NumValue(t) == Worth(neg, w, f, exp, x)
  {
    hide IntEnd, FracEnd, ExpEnd, DigitsValue, Decimal, Pow10, Assemble, Worth, ExponentAt, Mark, Lowers, Stands;
    Layout(t, neg, w, f, exp, x);
    TokenIsNumber(t, neg, w, f, exp, x);
    var a := WholeEnd(neg, w);
    var b := a + |Fraction(f)|;
    DecimalOf(t, |Sign(neg)|, w);
    if f != "" {
      FractionDigits(t, a, f);
      DecimalOf(t, a + 1, f);
    }
    ExponentEnds(t, b, exp, x);
    WorthAssembled(neg, w, f, exp, x);
  }

  lemma FractionDigits(t: string, a: nat, f: string)
    requires f != "" && Stands(t, a, Fraction(f))
    ensures Stands(t, a + 1, f)
  {
    assert t[a + 1..a + 1 + |f|] == t[a..a + |Fraction(f)|][1..];
  }
}
