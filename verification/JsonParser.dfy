/**
 The parser the worker and the API read JSON with (`json.loads`): RFC 8259 grammar,
 control characters refused inside strings, the last of two equal keys wins, and
 nothing but white space may follow the value.
 */
module JsonParser {
  import opened Wrappers
  import opened Json

  predicate Blank(c: char) {
    c == ' ' || c == '\t' || c == '\n' || c == '\r'
  }

  function SkipBlank(s: string, i: nat): (e: nat)
    requires i <= |s|
    ensures i <= e <= |s|
    ensures forall k | i <= k < e :: Blank(s[k])
    ensures e < |s| ==> !Blank(s[e])
    decreases |s| - i
  {
    if i < |s| && Blank(s[i]) then SkipBlank(s, i + 1) else i
  }

  predicate At(s: string, i: nat, t: string) {
    i + |t| <= |s| && s[i..i + |t|] == t
  }

  lemma AtHead(s: string, i: nat, t: string)
    requires t != ""
    ensures At(s, i, t) ==> i + |t| <= |s| && s[i] == t[0]
  {
    if At(s, i, t) {
      assert s[i..i + |t|][0] == s[i];
    }
  }

  function HexValue(c: char): (r: Option<nat>)
    ensures r.Some? ==> r.value < 16
  {
    if '0' <= c <= '9' then Some(c as int - '0' as int)
    else if 'a' <= c <= 'f' then Some(c as int - 'a' as int + 10)
    else if 'A' <= c <= 'F' then Some(c as int - 'A' as int + 10)
    else None
  }

  function Hex4(s: string, i: nat): (r: Option<nat>)
    ensures r.Some? ==> i + 4 <= |s| && r.value < 0x10000
  {
    if i + 4 > |s| then None else
    var a :- HexValue(s[i]);
    var b :- HexValue(s[i + 1]);
    var c :- HexValue(s[i + 2]);
    var d :- HexValue(s[i + 3]);
    Some(((a * 16 + b) * 16 + c) * 16 + d)
  }

  /** The character of a `\u` escape; characters beyond 0xFFFF are written as a surrogate pair. */
  function ParseUnicode(s: string, i: nat): (r: Option<(char, nat)>)
    ensures r.Some? ==> i < r.value.1 <= |s|
  {
    var h :- Hex4(s, i);
    if 0xD800 <= h < 0xDC00 then
      if !At(s, i + 4, "\\u") then None else
      var l :- Hex4(s, i + 6);
      if 0xDC00 <= l < 0xE000
      then Some((((h - 0xD800) * 0x400 + (l - 0xDC00) + 0x10000) as char, i + 10))
      else None
    else if 0xDC00 <= h < 0xE000 then None
    else Some((h as char, i + 4))
  }

  /** The escape whose backslash stands before `i`. */
  function ParseEscape(s: string, i: nat): (r: Option<(char, nat)>)
    ensures r.Some? ==> i < r.value.1 <= |s|
  {
    if i >= |s| then None
    else if s[i] == '"' then Some(('"', i + 1))
    else if s[i] == '\\' then Some(('\\', i + 1))
    else if s[i] == '/' then Some(('/', i + 1))
    else if s[i] == 'b' then Some((8 as char, i + 1))
    else if s[i] == 'f' then Some((12 as char, i + 1))
    else if s[i] == 'n' then Some(('\n', i + 1))
    else if s[i] == 'r' then Some(('\r', i + 1))
    else if s[i] == 't' then Some(('\t', i + 1))
    else if s[i] == 'u' then ParseUnicode(s, i + 1)
    else None
  }

  /** One character of a string body, escaped or plain. */
  function ParseChar(s: string, i: nat): (r: Option<(char, nat)>)
    ensures r.Some? ==> i < r.value.1 <= |s|
  {
    if i >= |s| || s[i] as int < 0x20 then None
    else if s[i] == '\\' then ParseEscape(s, i + 1)
    else Some((s[i], i + 1))
  }

  /** The string whose opening quote stands before `i`. */
  function ParseString(s: string, i: nat): (r: Option<(string, nat)>)
    ensures r.Some? ==> i < r.value.1 <= |s|
    decreases |s| - i
  {
    if i < |s| && s[i] == '"' then Some(("", i + 1)) else
    var (c, n) :- ParseChar(s, i);
    var (rest, e) :- ParseString(s, n);
    Some(([c] + rest, e))
  }

  /** A literal or a number. */
  function ParseScalar(s: string, i: nat): (r: Option<(Json, nat)>)
    requires i <= |s|
    ensures r.Some? ==> i < r.value.1 <= |s|
  {
    if At(s, i, "null") then Some((Null, i + 4))
    else if At(s, i, "true") then Some((Bool(true), i + 4))
    else if At(s, i, "false") then Some((Bool(false), i + 5))
    else
      var e := NumberEnd(s, i);
      if e == i then None
      else
        NumberShift(s, i, s[i..e], 0, e - i);
        Some((Num(s[i..e]), e))
  }

  function ParseValue(s: string, i: nat): (r: Option<(Json, nat)>)
    requires i <= |s|
    ensures r.Some? ==> i < r.value.1 <= |s|
    decreases |s| - i, 2
  {
    if i == |s| then None
    else if s[i] == '"' then
      var (t, e) :- ParseString(s, i + 1);
      Some((Str(t), e))
    else if s[i] == '{' then
      var k := SkipBlank(s, i + 1);
      if k < |s| && s[k] == '}' then Some((Obj(map[]), k + 1)) else ParseMembers(s, k, map[])
    else if s[i] == '[' then
      var k := SkipBlank(s, i + 1);
      if k < |s| && s[k] == ']' then Some((Arr([]), k + 1)) else ParseElements(s, k, [])
    else ParseScalar(s, i)
  }

  /** One `"key": value` pair from `i` on, and where the next separator stands. */
  function ParseMember(s: string, i: nat): (r: Option<(string, Json, nat)>)
    requires i <= |s|
    ensures r.Some? ==> i < r.value.2 <= |s|
    decreases |s| - i, 0
  {
    if i == |s| || s[i] != '"' then None else
    var (key, a) :- ParseString(s, i + 1);
    var colon := SkipBlank(s, a);
    if colon == |s| || s[colon] != ':' then None else
    var (v, b) :- ParseValue(s, SkipBlank(s, colon + 1));
    Some((key, v, SkipBlank(s, b)))
  }

  /** Members from `i` on, up to the closing brace; `acc` holds those already read. */
  function ParseMembers(s: string, i: nat, acc: Dict): (r: Option<(Json, nat)>)
    requires i <= |s|
    ensures r.Some? ==> r.value.0.Obj? && i < r.value.1 <= |s|
    decreases |s| - i, 1
  {
    var (key, v, e) :- ParseMember(s, i);
    if e == |s| then None
    else if s[e] == '}' then Some((Obj(acc[key := v]), e + 1))
    else if s[e] == ',' then ParseMembers(s, SkipBlank(s, e + 1), acc[key := v])
    else None
  }

  function ParseElements(s: string, i: nat, acc: seq<Json>): (r: Option<(Json, nat)>)
    requires i <= |s|
    ensures r.Some? ==> r.value.0.Arr? && i < r.value.1 <= |s|
    decreases |s| - i, 3
  {
    var (v, b) :- ParseValue(s, i);
    var e := SkipBlank(s, b);
    if e == |s| then None
    else if s[e] == ']' then Some((Arr(acc + [v]), e + 1))
    else if s[e] == ',' then ParseElements(s, SkipBlank(s, e + 1), acc + [v])
    else None
  }

  function Loads(s: string): (r: Option<Json>) {
    var (v, e) :- ParseValue(s, SkipBlank(s, 0));
    if SkipBlank(s, e) == |s| then Some(v) else None
  }

  // ---- A value depends only on its own characters ----

  // ---- Escapes, section 7 of RFC 8259 ----

  /** The two-character escapes there are; any other is refused. */
  lemma EscapesRead(s: string, i: nat)
    requires i + 1 < |s| && s[i] == '\\' && s[i + 1] != 'u'
    ensures var escapes := map['"' := 0x22, '\\' := 0x5C, '/' := 0x2F, 'b' := 0x08, 'f' := 0x0C,
                               'n' := 0x0A, 'r' := 0x0D, 't' := 0x09];
            ParseChar(s, i) == if s[i + 1] in escapes then Some((escapes[s[i + 1]] as char, i + 2)) else None
  {
  }

  /** Four digits name a character below 0x10000, unless they are one half of a surrogate pair. */
  lemma UnicodeRead(s: string, i: nat)
    requires i + 6 <= |s| && s[i] == '\\' && s[i + 1] == 'u' && Hex4(s, i + 2).Some?
    requires Hex4(s, i + 2).value < 0xD800 || Hex4(s, i + 2).value >= 0xE000
    ensures ParseChar(s, i) == Some((Hex4(s, i + 2).value as char, i + 6))
  {
    hide Hex4;
  }

  /** Control characters must be escaped; any other character but a backslash stands for itself. */
  lemma PlainRead(s: string, i: nat)
    requires i < |s| && s[i] != '\\'
    ensures ParseChar(s, i) == if s[i] < ' ' then None else Some((s[i], i + 1))
  {
  }

  /** `s` and `t` hold the same first `m` characters. */
  predicate Agree(s: string, t: string, m: nat) {
    m <= |s| && m <= |t| && forall k | 0 <= k < m :: s[k] == t[k]
  }

  lemma {:induction false} BlankLocal(s: string, t: string, i: nat, m: nat)
    requires Agree(s, t, m) && i <= |s| && SkipBlank(s, i) < m
    ensures SkipBlank(t, i) == SkipBlank(s, i)
    decreases |s| - i
  {
    assert s[i] == t[i];
    if Blank(s[i]) {
      BlankLocal(s, t, i + 1, m);
    }
  }

  lemma Hex4Local(s: string, t: string, i: nat, m: nat)
    requires Agree(s, t, m) && i + 4 <= m
    ensures Hex4(t, i) == Hex4(s, i)
  {
    hide HexValue;
    assert s[i] == t[i] && s[i + 1] == t[i + 1] && s[i + 2] == t[i + 2] && s[i + 3] == t[i + 3];
  }

  lemma UnicodeLocal(s: string, t: string, i: nat, m: nat)
    requires Agree(s, t, m) && ParseUnicode(s, i).Some? && ParseUnicode(s, i).value.1 <= m
    ensures ParseUnicode(t, i) == ParseUnicode(s, i)
  {
    hide Hex4;
    var n := ParseUnicode(s, i).value.1;
    assert i + 4 <= n by { UnicodeLength(s, i); }
    Hex4Local(s, t, i, m);
    if i + 4 < n {
      UnicodeLength(s, i);
      Hex4Local(s, t, i + 6, m);
      assert s[i + 4..i + 6] == t[i + 4..i + 6];
    }
  }

  lemma UnicodeLength(s: string, i: nat)
    requires ParseUnicode(s, i).Some?
    ensures var n := ParseUnicode(s, i).value.1;
            n == i + 4 || (n == i + 10 && At(s, i + 4, "\\u"))
  {
    hide HexValue;
  }

  lemma CharLocal(s: string, t: string, i: nat, m: nat)
    requires Agree(s, t, m) && ParseChar(s, i).Some? && ParseChar(s, i).value.1 <= m
    ensures ParseChar(t, i) == ParseChar(s, i)
  {
    hide ParseUnicode;
    assert s[i] == t[i];
    if s[i] == '\\' {
      assert s[i + 1] == t[i + 1];
      if s[i + 1] == 'u' { UnicodeLocal(s, t, i + 2, m); }
    }
  }

  lemma {:induction false} StringLocal(s: string, t: string, i: nat, m: nat)
    requires Agree(s, t, m) && ParseString(s, i).Some? && ParseString(s, i).value.1 <= m
    ensures ParseString(t, i) == ParseString(s, i)
    decreases |s| - i
  {
    assert s[i] == t[i];
    if s[i] != '"' {
      CharLocal(s, t, i, m);
      StringLocal(s, t, ParseChar(s, i).value.1, m);
    }
  }

  lemma {:induction false} ValueLocal(s: string, t: string, i: nat, m: nat)
    requires Agree(s, t, m) && i <= |s| && i <= |t|
    requires ParseValue(s, i).Some?
    requires var (v, n) := ParseValue(s, i).value; n <= m && (v.Num? ==> n < m && Stops(s, n))
    ensures ParseValue(t, i) == ParseValue(s, i)
    decreases |s| - i, 2
  {
    var (v, n) := ParseValue(s, i).value;
    assert s[i] == t[i];
    if s[i] == '"' {
      StringLocal(s, t, i + 1, m);
    } else if s[i] == '{' {
      BlankLocal(s, t, i + 1, m);
      var k := SkipBlank(s, i + 1);
      assert s[k] == t[k];
      if s[k] != '}' { MembersLocal(s, t, k, map[], m); }
    } else if s[i] == '[' {
      BlankLocal(s, t, i + 1, m);
      var k := SkipBlank(s, i + 1);
      assert s[k] == t[k];
      if s[k] != ']' { ElementsLocal(s, t, k, [], m); }
    } else {
      ScalarLocal(s, t, i, m);
    }
  }

  lemma ScalarLocal(s: string, t: string, i: nat, m: nat)
    requires Agree(s, t, m) && i <= |s| && i <= |t| && ParseScalar(s, i).Some?
    requires var (v, n) := ParseScalar(s, i).value; n <= m && (v.Num? ==> n < m && Stops(s, n))
    ensures ParseScalar(t, i) == ParseScalar(s, i)
  {
    hide NumberEnd;
    var (v, n) := ParseScalar(s, i).value;
    AtHead(t, i, "null");
    AtHead(t, i, "true");
    AtHead(t, i, "false");
    assert s[i..n] == t[i..n];
    if v.Num? {
      NumberStart(s, i);
      assert s[n] == t[n];
      assert NumberEnd(t, i) == n by { NumberShift(s, i, t, i, n - i); }
    } else if v.Null? {
      assert At(t, i, "null");
    } else if v.b {
      assert At(t, i, "true");
    } else {
      assert At(t, i, "false");
    }
    assert s[i] == t[i];
  }

  lemma NumberStart(s: string, i: nat)
    requires i <= |s| && NumberEnd(s, i) > i
    ensures s[i] == '-' || Digit(s[i])
  {
  }

  lemma {:induction false} MemberLocal(s: string, t: string, i: nat, m: nat)
    requires Agree(s, t, m) && i <= |s| && i <= |t|
    requires ParseMember(s, i).Some?
    requires var e := ParseMember(s, i).value.2; e < m && (s[e] == ',' || s[e] == '}')
    ensures ParseMember(t, i) == ParseMember(s, i)
    decreases |s| - i, 0
  {
    hide ParseValue, SkipBlank, ParseString;
    assert s[i] == t[i];
    var (key, a) := ParseString(s, i + 1).value;
    var colon := SkipBlank(s, a);
    var w := SkipBlank(s, colon + 1);
    var (v, b) := ParseValue(s, w).value;
    assert ParseString(t, i + 1) == Some((key, a)) by { StringLocal(s, t, i + 1, m); }
    assert SkipBlank(t, a) == colon && t[colon] == ':' by {
      BlankLocal(s, t, a, m);
      assert s[colon] == t[colon];
    }
    assert SkipBlank(t, colon + 1) == w by { BlankLocal(s, t, colon + 1, m); }
    assert ParseValue(t, w) == Some((v, b)) by { ValueLocal(s, t, w, m); }
    assert SkipBlank(t, b) == SkipBlank(s, b) by { BlankLocal(s, t, b, m); }
  }

  lemma MembersStep(s: string, i: nat, acc: Dict, key: string, v: Json, e: nat)
    requires i <= |s| && ParseMember(s, i) == Some((key, v, e)) && e <= |s|
    ensures ParseMembers(s, i, acc)
         == if e == |s| then None
            else if s[e] == '}' then Some((Obj(acc[key := v]), e + 1))
            else if s[e] == ',' then ParseMembers(s, SkipBlank(s, e + 1), acc[key := v])
            else None
  {
    hide ParseMember, SkipBlank;
  }

  lemma {:induction false} MembersLocal(s: string, t: string, i: nat, acc: Dict, m: nat)
    requires Agree(s, t, m) && i <= |s| && i <= |t|
    requires ParseMembers(s, i, acc).Some? && ParseMembers(s, i, acc).value.1 <= m
    ensures ParseMembers(t, i, acc) == ParseMembers(s, i, acc)
    decreases |s| - i, 1
  {
    hide ParseValue, SkipBlank, ParseString, ParseMember, ParseMembers;
    MembersHead(s, i, acc);
    var (key, v, e) := ParseMember(s, i).value;
    MembersStep(s, i, acc, key, v, e);
    MemberLocal(s, t, i, m);
    MembersStep(t, i, acc, key, v, e);
    assert s[e] == t[e];
    if s[e] == ',' {
      BlankLocal(s, t, e + 1, m);
      MembersLocal(s, t, SkipBlank(s, e + 1), acc[key := v], m);
    }
  }

  lemma MembersHead(s: string, i: nat, acc: Dict)
    requires i <= |s| && ParseMembers(s, i, acc).Some?
    ensures ParseMember(s, i).Some?
    ensures var e := ParseMember(s, i).value.2;
            i < e < |s| && e < ParseMembers(s, i, acc).value.1 && (s[e] == ',' || s[e] == '}')
  {
    hide ParseMember;
  }

  lemma ElementsStep(s: string, i: nat, acc: seq<Json>, v: Json, b: nat)
    requires i <= |s| && ParseValue(s, i) == Some((v, b)) && b <= |s|
    ensures var e := SkipBlank(s, b);
            ParseElements(s, i, acc)
            == if e == |s| then None
               else if s[e] == ']' then Some((Arr(acc + [v]), e + 1))
               else if s[e] == ',' then ParseElements(s, SkipBlank(s, e + 1), acc + [v])
               else None
  {
    hide ParseValue, SkipBlank;
  }

  lemma {:induction false} ElementsLocal(s: string, t: string, i: nat, acc: seq<Json>, m: nat)
    requires Agree(s, t, m) && i <= |s| && i <= |t|
    requires ParseElements(s, i, acc).Some? && ParseElements(s, i, acc).value.1 <= m
    ensures ParseElements(t, i, acc) == ParseElements(s, i, acc)
    decreases |s| - i, 3
  {
    hide ParseValue, SkipBlank, ParseElements;
    ElementsHead(s, i, acc);
    var (v, b) := ParseValue(s, i).value;
    ElementsStep(s, i, acc, v, b);
    var e := SkipBlank(s, b);
    ValueLocal(s, t, i, m);
    BlankLocal(s, t, b, m);
    ElementsStep(t, i, acc, v, b);
    assert s[e] == t[e];
    if s[e] == ',' {
      BlankLocal(s, t, e + 1, m);
      ElementsLocal(s, t, SkipBlank(s, e + 1), acc + [v], m);
    }
  }

  lemma ElementsHead(s: string, i: nat, acc: seq<Json>)
    requires i <= |s| && ParseElements(s, i, acc).Some?
    ensures ParseValue(s, i).Some?
    ensures var (v, b) := ParseValue(s, i).value;
            i < b <= |s| && SkipBlank(s, b) < |s| && SkipBlank(s, b) < ParseElements(s, i, acc).value.1
            && Stops(s, b)
  {
    hide ParseValue;
  }

  /** The text of exactly one JSON object, with no white space around it. */
  predicate ObjectText(o: string) {
    o != "" && o[0] == '{' && o[|o| - 1] == '}' && Loads(o).Some?
  }

  lemma ObjectTextValue(o: string)
    requires ObjectText(o)
    ensures ParseValue(o, 0).Some? && ParseValue(o, 0).value.1 == |o|
    ensures Loads(o) == Some(ParseValue(o, 0).value.0) && Loads(o).value.Obj?
  {
    assert SkipBlank(o, 0) == 0;
    var e := ParseValue(o, 0).value.1;
    assert !Blank(o[|o| - 1]);
  }

  /**
   Prefix-freeness: when an object text is followed by anything but white space, the
   whole is not JSON.
   */
  lemma ExtraDataRejected(o: string, rest: string)
    requires ObjectText(o)
    requires exists k | 0 <= k < |rest| :: !Blank(rest[k])
    ensures Loads(o + rest) == None
  {
    ObjectTextValue(o);
    var t := o + rest;
    ValueLocal(o, t, 0, |o|);
    assert SkipBlank(t, 0) == 0;
    var k :| 0 <= k < |rest| && !Blank(rest[k]);
    assert t[|o| + k] == rest[k];
  }
}
