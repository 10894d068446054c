/**
 The canonical text of a JSON value: `json.dumps` with sorted keys, the separators `,`
 and `:`, and everything outside printable ASCII escaped. Parsing it gives the value back.
 */
module JsonPrinter {
  import opened Wrappers
  import opened Json
  import opened JsonParser

  // ---- Key order: by code point, a proper prefix first ----

  predicate KeyLe(a: string, b: string) {
    a == "" || (b != "" && (a[0] < b[0] || (a[0] == b[0] && KeyLe(a[1..], b[1..]))))
  }

  lemma {:induction false} KeyLeTotal(a: string, b: string)
    ensures KeyLe(a, b) || KeyLe(b, a)
  {
    if a != "" && b != "" && a[0] == b[0] { KeyLeTotal(a[1..], b[1..]); }
  }

  lemma {:induction false} KeyLeAntisymmetric(a: string, b: string)
    requires KeyLe(a, b) && KeyLe(b, a)
    ensures a == b
  {
    if a != "" {
      KeyLeAntisymmetric(a[1..], b[1..]);
      assert a == [a[0]] + a[1..] && b == [b[0]] + b[1..];
    }
  }

  lemma {:induction false} KeyLeTransitive(a: string, b: string, c: string)
    requires KeyLe(a, b) && KeyLe(b, c)
    ensures KeyLe(a, c)
  {
    if a != "" && a[0] == b[0] && b[0] == c[0] { KeyLeTransitive(a[1..], b[1..], c[1..]); }
  }

  predicate IsLeast(k: string, keys: set<string>) {
    k in keys && forall x | x in keys :: KeyLe(k, x)
  }

  lemma {:induction false} LeastExists(keys: set<string>) returns (k: string)
    requires keys != {}
    ensures IsLeast(k, keys)
    decreases |keys|
  {
    k :| k in keys;
    KeyLeTotal(k, k);
    var others := keys - {k};
    if others != {} {
      var m := LeastExists(others);
      KeyLeTotal(k, m);
      if KeyLe(k, m) {
        forall x | x in keys ensures KeyLe(k, x) {
          if x != k { KeyLeTransitive(k, m, x); }
        }
      } else {
        k := m;
      }
    }
  }

  function LeastKey(keys: set<string>): (k: string)
    requires keys != {}
    ensures k in keys && forall x | x in keys :: KeyLe(k, x)
  {
    assert exists k :: k in keys && IsLeast(k, keys) by {
      var k := LeastExists(keys);
    }
    assert forall k, l | IsLeast(k, keys) && IsLeast(l, keys) :: k == l by {
      forall k, l | IsLeast(k, keys) && IsLeast(l, keys) ensures k == l { KeyLeAntisymmetric(k, l); }
    }
    var k :| k in keys && IsLeast(k, keys);
    k
  }

  function SortedKeys(keys: set<string>): (r: seq<string>)
    ensures forall k :: k in r <==> k in keys
    ensures forall i, j | 0 <= i < j < |r| :: r[i] != r[j] && KeyLe(r[i], r[j])
    decreases |keys|
  {
    if keys == {} then []
    else
      var k := LeastKey(keys);
      [k] + SortedKeys(keys - {k})
  }

  // ---- Text ----

  function HexDigit(d: nat): (c: char)
    requires d < 16
    ensures HexValue(c) == Some(d)
  {
    if d < 10 then '0' + d as char else 'a' + (d - 10) as char
  }

  /** Four digits, split off from the right. */
  function Hex(n: nat): (r: string)
    requires n < 0x10000
    ensures |r| == 4
  {
    var (a, b) := (n / 16, n / 16 / 16);
    [HexDigit(b / 16), HexDigit(b % 16), HexDigit(a % 16), HexDigit(n % 16)]
  }

  function Escape(c: char): (r: string)
    ensures r != ""
  {
    if c == '"' then "\\\""
    else if c == '\\' then "\\\\"
    else if c == 8 as char then "\\b"
    else if c == 12 as char then "\\f"
    else if c == '\n' then "\\n"
    else if c == '\r' then "\\r"
    else if c == '\t' then "\\t"
    else if ' ' <= c <= '~' then [c]
    else
      var n := c as int;
      if n < 0x10000 then "\\u" + Hex(n)
      else "\\u" + Hex(0xD800 + (n - 0x10000) / 0x400) + "\\u" + Hex(0xDC00 + (n - 0x10000) % 0x400)
  }

  function EscapeAll(s: string): string {
    if s == "" then "" else Escape(s[0]) + EscapeAll(s[1..])
  }

  function Quote(s: string): string {
    "\"" + EscapeAll(s) + "\""
  }

  function Canonical(j: Json): (r: string)
    ensures j.Num? ==> r == j.token
    decreases j, 1, 0
  {
    match j
    case Null => "null"
    case Bool(b) => if b then "true" else "false"
    case Num(t) => t
    case Str(s) => Quote(s)
    case Arr(_) => "[" + PrintElements(j, 0) + "]"
    case Obj(m) => "{" + PrintMembers(j, SortedKeys(m.Keys)) + "}"
  }

  function PrintElements(j: Json, i: nat): string
    requires j.Arr? && i <= |j.items|
    decreases j, 0, |j.items| - i
  {
    if i == |j.items| then ""
    else Canonical(j.items[i]) + (if i + 1 == |j.items| then "" else "," + PrintElements(j, i + 1))
  }

  function PrintMember(j: Json, k: string): string
    requires j.Obj? && k in j.members
    decreases j, 0, 0
  {
    Quote(k) + ":" + Canonical(j.members[k])
  }

  function PrintMembers(j: Json, keys: seq<string>): string
    requires j.Obj? && forall k | k in keys :: k in j.members
    decreases j, 0, 1 + |keys|
  {
    if keys == [] then ""
    else PrintMember(j, keys[0]) + (if |keys| == 1 then "" else "," + PrintMembers(j, keys[1..]))
  }

  // ---- Round trip ----

  lemma AtConcat(s: string, i: nat, a: string, b: string)
    ensures At(s, i, a + b) <==> At(s, i, a) && At(s, i + |a|, b)
  {
    if i + |a| + |b| <= |s| {
      assert s[i..i + |a + b|] == s[i..i + |a|] + s[i + |a|..i + |a| + |b|];
      if At(s, i, a + b) {
        assert s[i..i + |a|] == (a + b)[..|a|];
        assert s[i + |a|..i + |a| + |b|] == (a + b)[|a|..];
      }
    }
  }

  lemma LastDigit(n: nat)
    ensures n == n / 16 * 16 + n % 16
  {
  }

  lemma HexRoundTrip(n: nat, s: string, i: nat)
    requires n < 0x10000 && At(s, i, Hex(n))
    ensures Hex4(s, i) == Some(n)
  {
    hide HexValue, HexDigit;
    var h, a, b := Hex(n), n / 16, n / 16 / 16;
    assert s[i] == s[i..i + 4][0] == h[0] == HexDigit(b / 16);
    assert s[i + 1] == s[i..i + 4][1] == h[1] == HexDigit(b % 16);
    assert s[i + 2] == s[i..i + 4][2] == h[2] == HexDigit(a % 16);
    assert s[i + 3] == s[i..i + 4][3] == h[3] == HexDigit(n % 16);
    LastDigit(n);
    LastDigit(a);
    LastDigit(b);
  }

  /** An escaped character is read back as that character. */
  lemma EscapeRoundTrip(c: char, s: string, i: nat)
    requires At(s, i, Escape(c))
    ensures i < |s| && s[i] != '"'
    ensures ParseChar(s, i) == Some((c, i + |Escape(c)|))
  {
    hide Hex4, Hex;
    var e := Escape(c);
    AtHead(s, i, e);
    var n := c as int;
    if e == [c] {
    } else if |e| == 2 {
      assert s[i + 1] == s[i..i + 2][1] == e[1];
    } else if n < 0x10000 {
      AtConcat(s, i, "\\u", Hex(n));
      assert s[i..i + 2] == "\\u";
      assert s[i + 1] == s[i..i + 2][1] == 'u';
      HexRoundTrip(n, s, i + 2);
    } else {
      var high, low := 0xD800 + (n - 0x10000) / 0x400, 0xDC00 + (n - 0x10000) % 0x400;
      assert e == "\\u" + (Hex(high) + ("\\u" + Hex(low)));
      AtConcat(s, i, "\\u", Hex(high) + ("\\u" + Hex(low)));
      AtConcat(s, i + 2, Hex(high), "\\u" + Hex(low));
      AtConcat(s, i + 6, "\\u", Hex(low));
      assert s[i + 1] == s[i..i + 2][1] == 'u';
      HexRoundTrip(high, s, i + 2);
      HexRoundTrip(low, s, i + 8);
    }
  }

  lemma {:induction false} StringRoundTrip(t: string, s: string, i: nat)
    requires At(s, i, EscapeAll(t) + "\"")
    ensures ParseString(s, i) == Some((t, i + |EscapeAll(t)| + 1))
    decreases |t|
  {
    hide At, Escape, ParseChar;
    if t == "" {
      assert EscapeAll(t) + "\"" == "\"";
      AtHead(s, i, "\"");
    } else {
      var e, rest := Escape(t[0]), EscapeAll(t[1..]) + "\"";
      assert EscapeAll(t) + "\"" == e + rest;
      AtConcat(s, i, e, rest);
      EscapeRoundTrip(t[0], s, i);
      StringRoundTrip(t[1..], s, i + |e|);
      assert t == [t[0]] + t[1..];
    }
  }

  lemma NoBlank(s: string, i: nat)
    requires i < |s| && !Blank(s[i])
    ensures SkipBlank(s, i) == i
  {
  }

  /** The first character of a value's text is neither white space nor a closing bracket. */
  lemma CanonicalHead(j: Json)
    ensures var r := Canonical(j); r != "" && !Blank(r[0]) && r[0] != '}' && r[0] != ']'
  {
    if j.Num? { NumberStart(j.token, 0); }
  }

  lemma ScalarRoundTrip(j: Json, s: string, i: nat)
    requires j.Null? || j.Bool? || j.Num?
    requires At(s, i, Canonical(j))
    requires j.Num? ==> Stops(s, i + |Canonical(j)|)
    ensures ParseScalar(s, i) == Some((j, i + |Canonical(j)|))
    ensures s[i] != '"' && s[i] != '{' && s[i] != '['
  {
    hide NumberEnd;
    var r := Canonical(j);
    CanonicalHead(j);
    AtHead(s, i, r);
    AtHead(s, i, "null");
    AtHead(s, i, "true");
    AtHead(s, i, "false");
    if j.Num? {
      NumberStart(r, 0);
      assert forall k | 0 <= k < |r| :: r[k] == s[i..i + |r|][k] == s[i + k];
      NumberShift(r, 0, s, i, |r|);
    }
  }

  /** Parsing a canonical text, wherever it stands, gives the value back. */
  lemma {:induction false} ValueRoundTrip(j: Json, s: string, i: nat)
    requires At(s, i, Canonical(j))
    requires j.Num? ==> Stops(s, i + |Canonical(j)|)
    ensures ParseValue(s, i) == Some((j, i + |Canonical(j)|))
    decreases j, 1, 0
  {
    hide At, ParseScalar, ParseElements, ParseMembers, PrintElements, PrintMembers, SortedKeys, EscapeAll,
      ParseString, SkipBlank;
    var r := Canonical(j);
    CanonicalHead(j);
    AtHead(s, i, r);
    match j
    case Str(t) =>
      AtConcat(s, i, "\"", EscapeAll(t) + "\"");
      assert r == "\"" + (EscapeAll(t) + "\"");
      StringRoundTrip(t, s, i + 1);
    case Arr(_) =>
      var inner := PrintElements(j, 0);
      assert r == "[" + (inner + "]");
      AtConcat(s, i, "[", inner + "]");
      ArrayRoundTrip(j, s, i + 1);
    case Obj(m) =>
      var inner := PrintMembers(j, SortedKeys(m.Keys));
      assert r == "{" + (inner + "}");
      AtConcat(s, i, "{", inner + "}");
      ObjectRoundTrip(j, s, i + 1);
    case _ => ScalarRoundTrip(j, s, i);
  }

  lemma {:induction false} ArrayRoundTrip(j: Json, s: string, i: nat)
    requires j.Arr? && At(s, i, PrintElements(j, 0) + "]")
    ensures SkipBlank(s, i) == i && i < |s|
    ensures if j.items == [] then s[i] == ']' && |PrintElements(j, 0)| == 0
            else s[i] != ']' && ParseElements(s, i, []) == Some((j, i + |PrintElements(j, 0)| + 1))
    decreases j, 0, |j.items| + 1
  {
    hide At, ParseElements, SkipBlank, Canonical;
    var inner := PrintElements(j, 0);
    if j.items == [] {
      assert inner + "]" == "]";
      AtHead(s, i, "]");
      NoBlank(s, i);
    } else {
      PrintElementsStep(j, 0);
      CanonicalHead(j.items[0]);
      AtHead(s, i, inner + "]");
      NoBlank(s, i);
      ElementsRoundTrip(j, 0, s, i, []);
    }
  }

  function AfterElement(j: Json, n: nat): string
    requires j.Arr? && n < |j.items|
  {
    if n + 1 == |j.items| then "]" else "," + (PrintElements(j, n + 1) + "]")
  }

  lemma PrintElementsStep(j: Json, n: nat)
    requires j.Arr? && n < |j.items|
    ensures PrintElements(j, n) + "]" == Canonical(j.items[n]) + AfterElement(j, n)
    ensures PrintElements(j, n) != "" && PrintElements(j, n)[0] == Canonical(j.items[n])[0]
  {
    hide Canonical;
    CanonicalHead(j.items[n]);
  }

  lemma ParseElementsStep(s: string, i: nat, acc: seq<Json>, v: Json, e: nat)
    requires i <= |s| && ParseValue(s, i) == Some((v, e)) && e < |s|
    ensures s[e] == ']' ==> ParseElements(s, i, acc) == Some((Arr(acc + [v]), e + 1))
    ensures s[e] == ',' ==> ParseElements(s, i, acc) == ParseElements(s, SkipBlank(s, e + 1), acc + [v])
  {
    hide ParseValue;
  }

  lemma {:induction false} ElementsRoundTrip(j: Json, n: nat, s: string, i: nat, acc: seq<Json>)
    requires j.Arr? && n < |j.items| && acc == j.items[..n]
    requires At(s, i, PrintElements(j, n) + "]")
    ensures ParseElements(s, i, acc) == Some((j, i + |PrintElements(j, n)| + 1))
    decreases j, 0, |j.items| - n
  {
    hide At, ParseValue, ParseElements, PrintElements, Canonical, SkipBlank;
    var v, rest := Canonical(j.items[n]), AfterElement(j, n);
    PrintElementsStep(j, n);
    AtConcat(s, i, v, rest);
    var e := i + |v|;
    AtHead(s, e, rest);
    ValueRoundTrip(j.items[n], s, i);
    ParseElementsStep(s, i, acc, j.items[n], e);
    var read := acc + [j.items[n]];
    assert read == j.items[..n + 1];
    assert |PrintElements(j, n)| + 1 == |v| + |rest|;
    if n + 1 < |j.items| {
      var next := PrintElements(j, n + 1) + "]";
      AtConcat(s, e, ",", next);
      PrintElementsStep(j, n + 1);
      CanonicalHead(j.items[n + 1]);
      AtHead(s, e + 1, next);
      NoBlank(s, e + 1);
      ElementsRoundTrip(j, n + 1, s, e + 1, read);
    } else {
      assert read == j.items;
    }
  }

  lemma {:induction false} ObjectRoundTrip(j: Json, s: string, i: nat)
    requires j.Obj?
    requires At(s, i, PrintMembers(j, SortedKeys(j.members.Keys)) + "}")
    ensures SkipBlank(s, i) == i && i < |s|
    ensures var inner := PrintMembers(j, SortedKeys(j.members.Keys));
            if j.members == map[] then s[i] == '}' && inner == ""
            else s[i] != '}' && ParseMembers(s, i, map[]) == Some((j, i + |inner| + 1))
    decreases j, 0, |j.members| + 2
  {
    hide At, ParseMembers, PrintMembers, SkipBlank, SortedKeys;
    var keys := SortedKeys(j.members.Keys);
    SortedKeysLength(j.members.Keys);
    if j.members == map[] {
      assert PrintMembers(j, keys) + "}" == "}" by { NoMembers(j); }
      AtHead(s, i, "}");
      NoBlank(s, i);
    } else {
      PrintMembersStep(j, keys);
      AtHead(s, i, PrintMembers(j, keys) + "}");
      NoBlank(s, i);
      MembersRoundTrip(j, keys, s, i, map[]);
    }
  }

  lemma NoMembers(j: Json)
    requires j.Obj? && j.members == map[]
    ensures PrintMembers(j, SortedKeys(j.members.Keys)) == ""
  {
    assert j.members.Keys == {};
  }

  lemma {:induction false} SortedKeysLength(keys: set<string>)
    ensures |SortedKeys(keys)| == |keys|
    decreases |keys|
  {
    if keys != {} { SortedKeysLength(keys - {LeastKey(keys)}); }
  }

  /** Where the parts of a member's text stand. */
  lemma MemberLayout(j: Json, k: string, s: string, i: nat)
    requires j.Obj? && k in j.members && At(s, i, PrintMember(j, k))
    ensures var c := i + 1 + |EscapeAll(k)| + 1;
            && i < |s| && s[i] == '"' && At(s, i + 1, EscapeAll(k) + "\"")
            && c < |s| && s[c] == ':' && SkipBlank(s, c) == c
            && At(s, c + 1, Canonical(j.members[k])) && SkipBlank(s, c + 1) == c + 1
            && c + 1 + |Canonical(j.members[k])| == i + |PrintMember(j, k)|
  {
    hide At, Canonical, SkipBlank, EscapeAll;
    var v := Canonical(j.members[k]);
    var body := EscapeAll(k) + "\"";
    assert PrintMember(j, k) == "\"" + (body + (":" + v));
    AtConcat(s, i, "\"", body + (":" + v));
    AtHead(s, i, "\"");
    AtConcat(s, i + 1, body, ":" + v);
    var c := i + 1 + |body|;
    AtConcat(s, c, ":", v);
    AtHead(s, c, ":");
    NoBlank(s, c);
    CanonicalHead(j.members[k]);
    AtHead(s, c + 1, v);
    NoBlank(s, c + 1);
  }

  lemma {:induction false} MemberRoundTrip(j: Json, k: string, s: string, i: nat)
    requires j.Obj? && k in j.members
    requires At(s, i, PrintMember(j, k))
    requires var e := i + |PrintMember(j, k)|; e < |s| && (s[e] == ',' || s[e] == '}')
    ensures ParseMember(s, i) == Some((k, j.members[k], i + |PrintMember(j, k)|))
    decreases j, 0, 0
  {
    hide At, ParseValue, Canonical, SkipBlank, ParseString, EscapeAll, PrintMember;
    MemberLayout(j, k, s, i);
    StringRoundTrip(k, s, i + 1);
    var c := i + 1 + |EscapeAll(k)| + 1;
    ValueRoundTrip(j.members[k], s, c + 1);
    NoBlank(s, i + |PrintMember(j, k)|);
  }

  function AfterMember(j: Json, keys: seq<string>): string
    requires j.Obj? && keys != [] && forall k | k in keys :: k in j.members
  {
    if |keys| == 1 then "}" else "," + (PrintMembers(j, keys[1..]) + "}")
  }

  lemma PrintMembersStep(j: Json, keys: seq<string>)
    requires j.Obj? && keys != [] && forall k | k in keys :: k in j.members
    ensures PrintMembers(j, keys) + "}" == PrintMember(j, keys[0]) + AfterMember(j, keys)
    ensures PrintMembers(j, keys) != "" && PrintMembers(j, keys)[0] == '"'
  {
  }

  lemma ParseMembersStep(s: string, i: nat, acc: Dict, key: string, v: Json, e: nat)
    requires i <= |s| && ParseMember(s, i) == Some((key, v, e)) && e < |s|
    ensures s[e] == '}' ==> ParseMembers(s, i, acc) == Some((Obj(acc[key := v]), e + 1))
    ensures s[e] == ',' ==> ParseMembers(s, i, acc) == ParseMembers(s, SkipBlank(s, e + 1), acc[key := v])
  {
    hide ParseMember;
  }

  /** Where the first member's text stands, and what follows it. */
  lemma MembersLayout(j: Json, keys: seq<string>, s: string, i: nat)
    requires j.Obj? && keys != [] && forall k | k in keys :: k in j.members
    requires At(s, i, PrintMembers(j, keys) + "}")
    ensures var m := PrintMember(j, keys[0]);
            var e := i + |m|;
            && At(s, i, m) && e < |s|
            && if |keys| == 1 then s[e] == '}' && |PrintMembers(j, keys)| == |m|
               else
                 && s[e] == ',' && SkipBlank(s, e + 1) == e + 1 && At(s, e + 1, PrintMembers(j, keys[1..]) + "}")
                 && |PrintMembers(j, keys)| == |m| + 1 + |PrintMembers(j, keys[1..])|
  {
    hide At, PrintMembers, SkipBlank, PrintMember;
    var m, rest := PrintMember(j, keys[0]), AfterMember(j, keys);
    PrintMembersStep(j, keys);
    AtConcat(s, i, m, rest);
    AtHead(s, i + |m|, rest);
    assert |PrintMembers(j, keys)| + 1 == |m| + |rest|;
    if |keys| > 1 {
      NextMember(j, keys, s, i + |m|);
    }
  }

  /** Between one member's text and the next. */
  lemma NextMember(j: Json, keys: seq<string>, s: string, e: nat)
    requires j.Obj? && |keys| > 1 && forall k | k in keys :: k in j.members
    requires At(s, e, AfterMember(j, keys))
    ensures At(s, e + 1, PrintMembers(j, keys[1..]) + "}") && e < |s| && s[e] == ',' && SkipBlank(s, e + 1) == e + 1
  {
    hide At, PrintMembers, SkipBlank, PrintMember;
    var next := PrintMembers(j, keys[1..]) + "}";
    AtHead(s, e, "," + next);
    AtConcat(s, e, ",", next);
    PrintMembersStep(j, keys[1..]);
    AtHead(s, e + 1, next);
    NoBlank(s, e + 1);
  }

  /** `acc` holds members of the object, and `keys` are keys of it, the missing ones among them. */
  predicate Covers(j: Json, keys: seq<string>, acc: Dict)
    requires j.Obj?
  {
    && (forall k | k in acc :: k in j.members && acc[k] == j.members[k])
    && (forall k | k in j.members :: k in acc || k in keys)
  }

  lemma CoversStep(j: Json, keys: seq<string>, acc: Dict)
    requires j.Obj? && keys != [] && Covers(j, keys, acc) && forall k | k in keys :: k in j.members
    ensures keys[0] in j.members && forall k | k in keys[1..] :: k in j.members
    ensures var read := acc[keys[0] := j.members[keys[0]]];
            Covers(j, keys[1..], read) && (|keys| == 1 ==> read == j.members)
  {
    assert keys == [keys[0]] + keys[1..];
  }

  lemma {:induction false} MembersRoundTrip(j: Json, keys: seq<string>, s: string, i: nat, acc: Dict)
    requires j.Obj? && keys != [] && |keys| <= |j.members|
    requires Covers(j, keys, acc) && forall k | k in keys :: k in j.members
    requires At(s, i, PrintMembers(j, keys) + "}")
    ensures ParseMembers(s, i, acc) == Some((j, i + |PrintMembers(j, keys)| + 1))
    decreases j, 0, 1 + |keys|
  {
    hide At, ParseMember, ParseMembers, PrintMember, PrintMembers, SkipBlank, Covers, Canonical, AfterMember;
    CoversStep(j, keys, acc);
    MembersLayout(j, keys, s, i);
    var k := keys[0];
    var e := i + |PrintMember(j, k)|;
    MemberRoundTrip(j, k, s, i);
    ParseMembersStep(s, i, acc, k, j.members[k], e);
    if |keys| > 1 {
      MembersRoundTrip(j, keys[1..], s, e + 1, acc[k := j.members[k]]);
    }
  }

  lemma LoadsCanonical(j: Json)
    ensures Loads(Canonical(j)) == Some(j)
  {
    var r := Canonical(j);
    CanonicalHead(j);
    NoBlank(r, 0);
    assert r[0..|r|] == r;
    ValueRoundTrip(j, r, 0);
  }

  /** Blanks, tabs and line ends around a text do not matter. */
  lemma BlanksAround(j: Json, before: string, after: string)
    requires forall k | 0 <= k < |before| :: before[k] in " \t\n\r"
    requires forall k | 0 <= k < |after| :: after[k] in " \t\n\r"
    ensures Loads(before + Canonical(j) + after) == Some(j)
  {
    hide ParseValue, Canonical, SkipBlank;
    var c, i := Canonical(j), |before|;
    var s := before + c + after;
    var e := i + |c|;
    CanonicalHead(j);
    assert s[i..e] == c;
    assert s[i] == c[0];
    assert forall k | e <= k < |s| :: s[k] == after[k - e];
    BlankRun(s, 0, i);
    BlankRun(s, e, |s|);
    ValueRoundTrip(j, s, i);
  }

  lemma BlankRun(s: string, i: nat, e: nat)
    requires i <= e <= |s| && (forall k | i <= k < e :: s[k] in " \t\n\r") && (e < |s| ==> !Blank(s[e]))
    ensures SkipBlank(s, i) == e
  {
  }

  /** Equal canonical texts come from equal values; equality is up to key order. */
  lemma CanonicalInjective(a: Json, b: Json)
    requires Canonical(a) == Canonical(b)
    ensures a == b
  {
    LoadsCanonical(a);
    LoadsCanonical(b);
  }
}
