/**
 How far Python's `==` on parsed JSON is from equality of JSON values: it takes booleans for
 the numbers 0 and 1.
 */
module LooseEquality {
  import opened Json

  /** The same JSON value: same type everywhere, numbers with the same value. */
  predicate SameJson(a: Json, b: Json) {
    match a
    case Null => b.Null?
    case Bool(x) => b.Bool? && x == b.b
    case Num(x) => b.Num? && NumValue(x) == NumValue(b.token)
    case Str(x) => b.Str? && x == b.s
    case Arr(x) => b.Arr? && |x| == |b.items| && forall i | 0 <= i < |x| :: SameJson(x[i], b.items[i])
    case Obj(m) => b.Obj? && m.Keys == b.members.Keys && forall k | k in m :: SameJson(m[k], b.members[k])
  }

  /** Neither a boolean nor the number 0 or 1 occurs anywhere inside. */
  predicate Unmistakable(a: Json) {
    match a
    case Bool(_) => false
    case Num(x) => NumValue(x) != 0.0 && NumValue(x) != 1.0
    case Arr(x) => forall i | 0 <= i < |x| :: Unmistakable(x[i])
    case Obj(m) => forall k | k in m :: Unmistakable(m[k])
    case _ => true
  }

  /** The same JSON value always compares equal. */
  lemma {:induction false} SameIsEqual(a: Json, b: Json)
    requires SameJson(a, b)
    ensures PyEq(a, b)
  {
    match a
    case Arr(x) => forall i | 0 <= i < |x| ensures PyEq(x[i], b.items[i]) { SameIsEqual(x[i], b.items[i]); }
    case Obj(m) => forall k | k in m ensures PyEq(m[k], b.members[k]) { SameIsEqual(m[k], b.members[k]); }
    case _ =>
  }

  /** Proposed and approved may be compared either way round. */
  lemma {:induction false} EqualBothWays(a: Json, b: Json)
    requires PyEq(a, b)
    ensures PyEq(b, a)
  {
    match a
    case Arr(x) => forall i | 0 <= i < |x| ensures PyEq(b.items[i], x[i]) { EqualBothWays(x[i], b.items[i]); }
    case Obj(m) => forall k | k in m ensures PyEq(b.members[k], m[k]) { EqualBothWays(m[k], b.members[k]); }
    case _ =>
  }

  lemma {:induction false} UnmistakableIsSame(a: Json, b: Json)
    requires Unmistakable(a) && PyEq(a, b)
    ensures SameJson(a, b)
  {
    match a
    case Arr(x) =>
      forall i | 0 <= i < |x| ensures SameJson(x[i], b.items[i]) { UnmistakableIsSame(x[i], b.items[i]); }
    case Obj(m) =>
      forall k | k in m ensures SameJson(m[k], b.members[k]) { UnmistakableIsSame(m[k], b.members[k]); }
    case _ =>
  }

  lemma DigitIsNumber(d: char)
    requires Digit(d)
    ensures IntEnd([d], 0) == FracEnd([d], 1) == ExpEnd([d], 1) == 1 && IsNumber([d])
  {
    var t := [d];
    assert t[0] == d && DigitsEnd(t, 1) == 1;
    if d != '0' { assert IntEnd(t, 0) == DigitsEnd(t, 0) == 1; }
  }

  lemma DigitValue(d: char)
    requires Digit(d)
    ensures IsNumber([d]) && NumValue([d]) == (d as int - '0' as int) as real
  {
    hide IntEnd, FracEnd, ExpEnd, IsNumber, Pow10;
    DigitIsNumber(d);
    var t := [d];
    assert DigitsValue(t, 0, 0) == 0;
    assert DigitsValue(t, 0, 1) == d as int - '0' as int;
  }

  lemma OneAndZero()
    ensures IsNumber("0") && NumValue("0") == 0.0
    ensures IsNumber("1") && NumValue("1") == 1.0
  {
    hide IsNumber, NumValue;
    assert "0" == ['0'] && "1" == ['1'];
    DigitValue('0');
    DigitValue('1');
  }

  lemma MistakenScalar(a: Json) returns (b: Json)
    requires !Unmistakable(a) && (a.Bool? || a.Num?)
    ensures PyEq(a, b) && !SameJson(a, b)
  {
    hide NumValue;
    OneAndZero();
    if a.Bool? {
      b := Num(if a.b then "1" else "0");
    } else {
      b := Bool(NumValue(a.token) == 1.0);
    }
  }

  /** A different JSON value of the same kind of container that Python takes for the same. */
  lemma {:induction false} Mistaken(a: Json) returns (b: Json)
    requires !Unmistakable(a)
    ensures PyEq(a, b) && !SameJson(a, b)
    ensures a.Obj? ==> b.Obj? && b.members.Keys == a.members.Keys
  {
    hide NumValue;
    match a {
      case Arr(x) =>
        var i :| 0 <= i < |x| && !Unmistakable(x[i]);
        var y := Mistaken(x[i]);
        b := Arr(x[i := y]);
        forall j | 0 <= j < |x| ensures PyEq(x[j], b.items[j]) { PyEqReflexive(x[j]); }
        assert !SameJson(x[i], b.items[i]);
      case Obj(m) =>
        var k :| k in m && !Unmistakable(m[k]);
        var y := Mistaken(m[k]);
        b := Obj(m[k := y]);
        forall j | j in m ensures PyEq(m[j], b.members[j]) { PyEqReflexive(m[j]); }
        assert !SameJson(m[k], b.members[k]);
      case _ => b := MistakenScalar(a);
    }
  }

  /** Python's `==` never confuses a value with another exactly when it has no boolean, 0 or 1 in it. */
  lemma NeverMistaken(a: Json)
    ensures (forall b | PyEq(a, b) :: SameJson(a, b)) <==> Unmistakable(a)
  {
    if Unmistakable(a) {
      forall b | PyEq(a, b) ensures SameJson(a, b) { UnmistakableIsSame(a, b); }
    } else {
      var b := Mistaken(a);
    }
  }
}
