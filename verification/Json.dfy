/**
 JSON values as the service holds them after parsing: objects are Python dicts, so a
 map from key to value, and numbers are kept as the token they print as (RFC 8259,
 section 6).
 */
module Json {

  predicate Digit(c: char) {
    '0' <= c <= '9'
  }

  // The characters that could continue a number token.
  predicate NumberChar(c: char) {
    Digit(c) || c in "+-.eE"
  }

  function DigitsEnd(s: string, i: nat): (e: nat)
    requires i <= |s|
    ensures i <= e <= |s|
    ensures forall k | i <= k < e :: Digit(s[k])
    ensures e < |s| ==> !Digit(s[e])
    decreases |s| - i
  {
    if i < |s| && Digit(s[i]) then DigitsEnd(s, i + 1) else i
  }

  function IntEnd(s: string, i: nat): (e: nat)
    requires i <= |s|
    ensures i <= e <= |s|
  {
    var k := if i < |s| && s[i] == '-' then i + 1 else i;
    if k < |s| && s[k] == '0' then k + 1
    else if k < |s| && Digit(s[k]) then DigitsEnd(s, k)
    else i
  }

  function FracEnd(s: string, i: nat): (e: nat)
    requires i <= |s|
    ensures i <= e <= |s|
  {
    if i + 1 < |s| && s[i] == '.' && Digit(s[i + 1]) then DigitsEnd(s, i + 1) else i
  }

  function ExpEnd(s: string, i: nat): (e: nat)
    requires i <= |s|
    ensures i <= e <= |s|
  {
    if i < |s| && (s[i] == 'e' || s[i] == 'E') then
      var k := if i + 1 < |s| && (s[i + 1] == '+' || s[i + 1] == '-') then i + 2 else i + 1;
      if k < |s| && Digit(s[k]) then DigitsEnd(s, k) else i
    else i
  }

  /** End of the longest number token that starts at `i`; `i` itself when there is none. */
  function NumberEnd(s: string, i: nat): (e: nat)
    requires i <= |s|
    ensures i <= e <= |s|
  {
    var e := IntEnd(s, i);
    if e == i then i else ExpEnd(s, FracEnd(s, e))
  }

  predicate IsNumber(t: string) {
    t != "" && NumberEnd(t, 0) == |t|
  }

  type NumberToken = t: string | IsNumber(t) witness "0"

  datatype Json =
    | Null
    | Bool(b: bool)
    | Num(token: NumberToken)
    | Str(s: string)
    | Arr(items: seq<Json>)
    | Obj(members: Dict)

  type Dict = map<string, Json>

  predicate Stops(s: string, i: nat) {
    i >= |s| || !NumberChar(s[i])
  }

  predicate Same(s: string, i: nat, t: string, j: nat, n: nat) {
    i + n <= |s| && j + n <= |t| && forall k | i <= k < i + n :: s[k] == t[k - i + j]
  }

  /** A digit run reads the same wherever it stands, as long as no digit follows it. */
  lemma {:induction false} DigitsShift(s: string, i: nat, t: string, j: nat, n: nat)
    requires i <= |s| && i + n == DigitsEnd(s, i)
    requires Same(s, i, t, j, n)
    requires j + n == |t| || !Digit(t[j + n])
    ensures DigitsEnd(t, j) == j + n
    decreases n
  {
    if n > 0 {
      assert s[i] == t[j];
      DigitsShift(s, i + 1, t, j + 1, n - 1);
    }
  }

  lemma IntShift(s: string, i: nat, t: string, j: nat, n: nat)
    requires i <= |s| && n > 0 && i + n == IntEnd(s, i)
    requires Same(s, i, t, j, n)
    requires j + n == |t| || !Digit(t[j + n])
    ensures IntEnd(t, j) == j + n
  {
    var d := if s[i] == '-' then 1 else 0;
    assert s[i] == t[j];
    assert d < n && s[i + d] == t[j + d];
    if s[i + d] != '0' {
      DigitsShift(s, i + d, t, j + d, n - d);
    }
  }

  lemma FracShift(s: string, i: nat, t: string, j: nat, n: nat)
    requires i <= |s| && i + n == FracEnd(s, i)
    requires Same(s, i, t, j, n)
    requires j + n == |t| || !Digit(t[j + n])
    requires n > 0 || j == |t| || t[j] != '.'
    ensures FracEnd(t, j) == j + n
  {
    if n > 0 {
      assert s[i] == t[j] && s[i + 1] == t[j + 1];
      DigitsShift(s, i + 1, t, j + 1, n - 1);
    }
  }

  lemma ExpShift(s: string, i: nat, t: string, j: nat, n: nat)
    requires i <= |s| && i + n == ExpEnd(s, i)
    requires Same(s, i, t, j, n)
    requires j + n == |t| || !Digit(t[j + n])
    requires n > 0 || Stops(t, j)
    ensures ExpEnd(t, j) == j + n
  {
    if n > 0 {
      assert s[i] == t[j] && s[i + 1] == t[j + 1];
      var d := if s[i + 1] == '+' || s[i + 1] == '-' then 2 else 1;
      assert s[i + d] == t[j + d];
      DigitsShift(s, i + d, t, j + d, n - d);
    }
  }

  /** A number token is recognised wherever it stands, as long as nothing that could extend it follows. */
  lemma NumberShift(s: string, i: nat, t: string, j: nat, n: nat)
    requires i <= |s| && n > 0 && i + n == NumberEnd(s, i)
    requires Same(s, i, t, j, n)
    requires Stops(t, j + n)
    ensures NumberEnd(t, j) == j + n
  {
    hide IntEnd, FracEnd, ExpEnd;
    var a := IntEnd(s, i);
    var b := FracEnd(s, a);
    var c := i + n;
    var a', b' := a - i + j, b - i + j;
    NumberParts(s, i);
    SubSame(s, i, t, j, n, 0, a - i);
    SubSame(s, i, t, j, n, a - i, b - a);
    SubSame(s, i, t, j, n, b - i, c - b);
    assert a < c ==> s[a] == t[a'];
    assert b < c ==> s[b] == t[b'];
    IntShift(s, i, t, j, a - i);
    FracShift(s, a, t, a', b - a);
    ExpShift(s, b, t, b', c - b);
  }

  /** What stands where a number token's parts meet. */
  lemma NumberParts(s: string, i: nat)
    requires i <= |s| && NumberEnd(s, i) > i
    ensures var a := IntEnd(s, i);
            var b := FracEnd(s, a);
            && NumberEnd(s, i) == ExpEnd(s, b) && i < a <= b <= ExpEnd(s, b)
            && (b > a ==> s[a] == '.') && (ExpEnd(s, b) > b ==> s[b] == 'e' || s[b] == 'E')
  {
  }

  lemma SubSame(s: string, i: nat, t: string, j: nat, n: nat, d: nat, m: nat)
    requires Same(s, i, t, j, n) && d + m <= n
    ensures Same(s, i + d, t, j + d, m)
  {
  }

  function Pow10(n: nat): (p: int)
    ensures p > 0
  {
    if n == 0 then 1 else 10 * Pow10(n - 1)
  }

  function DigitsValue(s: string, i: nat, e: nat): nat
    requires i <= e <= |s| && forall k | i <= k < e :: Digit(s[k])
    decreases e - i
  {
    if i == e then 0 else
      assert Digit(s[e - 1]);
      10 * DigitsValue(s, i, e - 1) + (s[e - 1] as int - '0' as int)
  }

  datatype Exponent = NoExponent | Raised(power: nat) | Lowered(power: nat)

  /** A number from its sign, its digits before and after the point, and its exponent. */
  function Assemble(negative: bool, whole: nat, fraction: nat, places: nat, exponent: Exponent): real {
    var size := whole as real + fraction as real / Pow10(places) as real;
    var signed := if negative then -size else size;
    match exponent
    case NoExponent => signed
    case Raised(n) => signed * Pow10(n) as real
    case Lowered(n) => signed / Pow10(n) as real
  }

  /** The exponent written from `b` on. */
  function ExponentAt(t: string, b: nat): Exponent
    requires b < |t| && b < ExpEnd(t, b) == |t|
  {
    var signed := t[b + 1] == '+' || t[b + 1] == '-';
    var n := DigitsValue(t, if signed then b + 2 else b + 1, |t|);
    if t[b + 1] == '-' then Lowered(n) else Raised(n)
  }

  /** The decimal value a number token denotes. */
  function NumValue(t: NumberToken): real {
    var negative := t[0] == '-';
    var a := IntEnd(t, 0);
    var b := FracEnd(t, a);
    Assemble(negative, DigitsValue(t, if negative then 1 else 0, a), if b == a then 0 else DigitsValue(t, a + 1, b),
             if b == a then 0 else b - a - 1, if b == |t| then NoExponent else ExponentAt(t, b))
  }

  function BoolValue(b: bool): real {
    if b then 1.0 else 0.0
  }

  /** Python's `==`: booleans are the numbers 0 and 1, and 1 equals 1.0. */
  predicate PyEq(a: Json, b: Json) {
    match a
    case Null => b.Null?
    case Bool(x) => (b.Bool? && x == b.b) || (b.Num? && BoolValue(x) == NumValue(b.token))
    case Num(x) => (b.Bool? && NumValue(x) == BoolValue(b.b)) || (b.Num? && NumValue(x) == NumValue(b.token))
    case Str(x) => b.Str? && x == b.s
    case Arr(x) => b.Arr? && |x| == |b.items| && forall i | 0 <= i < |x| :: PyEq(x[i], b.items[i])
    case Obj(m) => b.Obj? && m.Keys == b.members.Keys && forall k | k in m :: PyEq(m[k], b.members[k])
  }

  lemma {:induction false} PyEqReflexive(a: Json)
    ensures PyEq(a, a)
  {
    match a
    case Arr(x) => forall i | 0 <= i < |x| ensures PyEq(x[i], x[i]) { PyEqReflexive(x[i]); }
    case Obj(m) => forall k | k in m ensures PyEq(m[k], m[k]) { PyEqReflexive(m[k]); }
    case _ =>
  }
}
