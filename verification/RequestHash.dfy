/**
 What `/execute` hashes to recognise a repeated request: the action id, a colon and the
 canonical payload. The string determines both, whatever characters the id holds.
 */
module RequestHash {
  import opened Json
  import opened JsonPrinter

  /** The string `_request_hash` digests. */
  function HashInput(actionId: string, payload: Dict): string {
    actionId + ":" + Canonical(Obj(payload))
  }

  // ---- A scanner that tracks nesting and string state over canonical text ----

  datatype Scan = Outside(depth: int) | Inside(depth: int) | Escaped(depth: int) | Broken

  function Next(st: Scan, c: char): Scan {
    match st
    case Outside(d) =>
      if c == '"' then Inside(d)
      else if c == '{' || c == '[' then Outside(d + 1)
      else if c == '}' || c == ']' then Outside(d - 1)
      else if c == '\\' then Broken
      else st
    case Inside(d) =>
      if c == '"' then Outside(d) else if c == '\\' then Escaped(d) else st
    case Escaped(d) => Inside(d)
    case Broken => Broken
  }

  function Run(st: Scan, s: string): Scan
    decreases |s|
  {
    if s == "" then st else Run(Next(st, s[0]), s[1..])
  }

  lemma {:induction false} RunConcat(st: Scan, a: string, b: string)
    ensures Run(st, a + b) == Run(Run(st, a), b)
    decreases |a|
  {
    if a == "" {
      assert a + b == b;
    } else {
      assert (a + b)[1..] == a[1..] + b;
      RunConcat(Next(st, a[0]), a[1..], b);
    }
  }

  lemma {:induction false} RunBroken(s: string)
    ensures Run(Broken, s) == Broken
  {
    if s != "" { RunBroken(s[1..]); }
  }

  /** Neither the scan of `s` nor any of its prefixes breaks or falls below depth `d`. */
  predicate Stays(st: Scan, s: string, d: int)
    decreases |s|
  {
    !st.Broken? && st.depth >= d && (s == "" || Stays(Next(st, s[0]), s[1..], d))
  }

  lemma {:induction false} StaysConcat(st: Scan, a: string, b: string, d: int)
    ensures Stays(st, a + b, d) <==> Stays(st, a, d) && Stays(Run(st, a), b, d)
    decreases |a|
  {
    if a == "" {
      assert a + b == b;
    } else {
      assert (a + b)[1..] == a[1..] + b;
      StaysConcat(Next(st, a[0]), a[1..], b, d);
    }
  }

  /** Reading `s` outside strings at depth `d` returns to `d` and never goes below it. */
  predicate Balanced(s: string, d: int) {
    Run(Outside(d), s) == Outside(d) && Stays(Outside(d), s, d)
  }

  lemma BalancedConcat(a: string, b: string, d: int)
    requires Balanced(a, d) && Balanced(b, d)
    ensures Balanced(a + b, d)
  {
    RunConcat(Outside(d), a, b);
    StaysConcat(Outside(d), a, b, d);
  }

  lemma {:induction false} StaysLower(st: Scan, s: string, d: int, e: int)
    requires Stays(st, s, d) && e <= d
    ensures Stays(st, s, e)
    decreases |s|
  {
    if s != "" { StaysLower(Next(st, s[0]), s[1..], d, e); }
  }

  lemma {:induction false} PlainBalanced(s: string, d: int)
    requires forall k | 0 <= k < |s| :: s[k] !in "\"\\{}[]"
    ensures Balanced(s, d)
  {
    if s != "" {
      assert s[0] !in "\"\\{}[]";
      PlainBalanced(s[1..], d);
    }
  }

  // ---- Strings ----

  /** Reading `s` inside a string at depth `d` stays inside that string. */
  predicate StringSafe(s: string, d: int) {
    Run(Inside(d), s) == Inside(d) && Stays(Inside(d), s, d)
  }

  lemma StringSafeConcat(a: string, b: string, d: int)
    requires StringSafe(a, d) && StringSafe(b, d)
    ensures StringSafe(a + b, d)
  {
    RunConcat(Inside(d), a, b);
    StaysConcat(Inside(d), a, b, d);
  }

  lemma {:induction false} PlainSafe(s: string, d: int)
    requires forall k | 0 <= k < |s| :: s[k] != '"' && s[k] != '\\'
    ensures StringSafe(s, d)
  {
    if s != "" { PlainSafe(s[1..], d); }
  }

  lemma EscapePairSafe(c: char, d: int)
    ensures StringSafe(['\\', c], d)
  {
    var s := ['\\', c];
    assert s[1..] == [c] && s[1..][1..] == "";
    assert Run(Inside(d), s) == Run(Escaped(d), [c]) == Run(Inside(d), "");
  }

  lemma HexSafe(n: nat, d: int)
    requires n < 0x10000
    ensures StringSafe("\\u" + Hex(n), d)
  {
    EscapePairSafe('u', d);
    PlainSafe(Hex(n), d);
    assert "\\u" == ['\\', 'u'];
    StringSafeConcat("\\u", Hex(n), d);
  }

  lemma EscapeSafe(c: char, d: int)
    ensures StringSafe(Escape(c), d)
  {
    hide StringSafe, Hex;
    var e, n := Escape(c), c as int;
    if e == [c] {
      PlainSafe(e, d);
    } else if |e| == 2 {
      EscapePairSafe(e[1], d);
      assert e == ['\\', e[1]];
    } else if n < 0x10000 {
      HexSafe(n, d);
    } else {
      var high, low := 0xD800 + (n - 0x10000) / 0x400, 0xDC00 + (n - 0x10000) % 0x400;
      HexSafe(high, d);
      HexSafe(low, d);
      StringSafeConcat("\\u" + Hex(high), "\\u" + Hex(low), d);
      assert e == ("\\u" + Hex(high)) + ("\\u" + Hex(low));
    }
  }

  lemma {:induction false} EscapeAllSafe(s: string, d: int)
    ensures StringSafe(EscapeAll(s), d)
  {
    hide StringSafe, Escape;
    if s == "" {
      PlainSafe("", d);
    } else {
      EscapeSafe(s[0], d);
      EscapeAllSafe(s[1..], d);
      StringSafeConcat(Escape(s[0]), EscapeAll(s[1..]), d);
    }
  }

  lemma QuoteBalanced(s: string, d: int)
    ensures Balanced(Quote(s), d)
  {
    hide EscapeAll;
    var e := EscapeAll(s);
    EscapeAllSafe(s, d);
    RunConcat(Inside(d), e, "\"");
    StaysConcat(Inside(d), e, "\"", d);
    assert "\""[1..] == "";
    assert Quote(s) == "\"" + (e + "\"");
    assert Quote(s)[1..] == e + "\"";
  }

  // ---- Values ----

  /** Brackets around a body that is balanced one level deeper. */
  lemma Bracketed(open: char, body: string, close: char, d: int)
    requires (open == '{' && close == '}') || (open == '[' && close == ']')
    requires Balanced(body, d + 1)
    ensures Balanced([open] + body + [close], d)
    ensures Stays(Outside(d + 1), body, d + 1) && Next(Outside(d), open) == Outside(d + 1)
  {
    var s := [open] + body + [close];
    assert s == [open] + (body + [close]);
    assert s[1..] == body + [close];
    RunConcat(Outside(d + 1), body, [close]);
    StaysConcat(Outside(d + 1), body, [close], d);
    StaysLower(Outside(d + 1), body, d + 1, d);
    assert [close][1..] == "";
  }

  lemma NumberBalanced(t: NumberToken, d: int)
    ensures Balanced(t, d)
  {
    NumberChars(t);
    PlainBalanced(t, d);
  }

  lemma NumberChars(t: NumberToken)
    ensures forall k | 0 <= k < |t| :: NumberChar(t[k])
  {
    var a := IntEnd(t, 0);
    var b := FracEnd(t, a);
    assert ExpEnd(t, b) == |t|;
  }

  lemma {:induction false} CanonicalBalanced(j: Json, d: int)
    ensures Balanced(Canonical(j), d)
    decreases j, 1, 0
  {
    hide Balanced, Quote, PrintElements, PrintMembers, SortedKeys;
    match j
    case Null => PlainBalanced("null", d);
    case Bool(b) => PlainBalanced(if b then "true" else "false", d);
    case Num(t) => NumberBalanced(t, d);
    case Str(s) => QuoteBalanced(s, d);
    case Arr(_) =>
      ElementsBalanced(j, 0, d + 1);
      Bracketed('[', PrintElements(j, 0), ']', d);
    case Obj(m) =>
      MembersBalanced(j, SortedKeys(m.Keys), d + 1);
      Bracketed('{', PrintMembers(j, SortedKeys(m.Keys)), '}', d);
  }

  lemma {:induction false} ElementsBalanced(j: Json, i: nat, d: int)
    requires j.Arr? && i <= |j.items|
    ensures Balanced(PrintElements(j, i), d)
    decreases j, 0, |j.items| - i
  {
    hide Balanced, Canonical;
    if i == |j.items| {
      PlainBalanced("", d);
    } else {
      var v := Canonical(j.items[i]);
      CanonicalBalanced(j.items[i], d);
      PlainBalanced(",", d);
      PlainBalanced("", d);
      if i + 1 == |j.items| {
        BalancedConcat(v, "", d);
      } else {
        ElementsBalanced(j, i + 1, d);
        BalancedConcat(",", PrintElements(j, i + 1), d);
        BalancedConcat(v, "," + PrintElements(j, i + 1), d);
      }
    }
  }

  lemma {:induction false} MembersBalanced(j: Json, keys: seq<string>, d: int)
    requires j.Obj? && forall k | k in keys :: k in j.members
    ensures Balanced(PrintMembers(j, keys), d)
    decreases j, 0, 1 + |keys|
  {
    hide Balanced, Canonical, Quote;
    if keys == [] {
      PlainBalanced("", d);
    } else {
      var q, v := Quote(keys[0]), Canonical(j.members[keys[0]]);
      QuoteBalanced(keys[0], d);
      PlainBalanced(":", d);
      CanonicalBalanced(j.members[keys[0]], d);
      BalancedConcat(q, ":", d);
      BalancedConcat(q + ":", v, d);
      PlainBalanced(",", d);
      PlainBalanced("", d);
      var m := PrintMember(j, keys[0]);
      assert m == q + ":" + v;
      if |keys| == 1 {
        BalancedConcat(m, "", d);
      } else {
        MembersBalanced(j, keys[1..], d);
        BalancedConcat(",", PrintMembers(j, keys[1..]), d);
        BalancedConcat(m, "," + PrintMembers(j, keys[1..]), d);
      }
    }
  }

  /** Strictly inside an object's text the scan is at depth one or more. */
  lemma ProperPrefixDeep(payload: Dict, x: string, y: string)
    requires Canonical(Obj(payload)) == x + y && x != "" && y != ""
    ensures var st := Run(Outside(0), x); !st.Broken? && st.depth >= 1
  {
    var j := Obj(payload);
    hide PrintMembers, SortedKeys;
    var body := PrintMembers(j, SortedKeys(payload.Keys));
    var r := Canonical(j);
    assert r == "{" + body + "}";
    MembersBalanced(j, SortedKeys(payload.Keys), 1);
    Bracketed('{', body, '}', 0);
    assert x[0] == r[0] == '{';
    var z, w := x[1..], y[..|y| - 1];
    assert x[1..] + y == r[1..] == body + "}";
    assert body == z + w by {
      assert body == (body + "}")[..|body|] == (z + y)[..|body|];
    }
    StaysConcat(Outside(1), z, w, 1);
    assert Stays(Run(Outside(1), z), w, 1);
  }

  // ---- The string determines the request ----

  /** One scan is outside strings exactly where the other is inside one. */
  predicate Complementary(a: Scan, b: Scan) {
    (a.Outside? && b.Inside?) || (a.Inside? && b.Outside?)
  }

  /** Scans that start on opposite sides of a quote stay so, or one of them breaks on a backslash. */
  lemma {:induction false} ComplementaryRun(a: Scan, b: Scan, s: string)
    requires Complementary(a, b)
    ensures Run(a, s).Broken? || Run(b, s).Broken? || Complementary(Run(a, s), Run(b, s))
    decreases |s|
  {
    if s != "" {
      if s[0] == '\\' {
        RunBroken(s[1..]);
      } else {
        ComplementaryRun(Next(a, s[0]), Next(b, s[0]), s[1..]);
      }
    }
  }

  /**
   Suffix-freeness: an object's canonical text that follows a colon is never the end of a
   longer object's canonical text.
   */
  lemma NoProperSuffix(p: Dict, q: Dict, x: string)
    ensures Canonical(Obj(q)) != x + ":" + Canonical(Obj(p))
  {
    hide Canonical;
    var head, tail := x + ":", Canonical(Obj(p));
    if Canonical(Obj(q)) == head + tail {
      CanonicalHead(Obj(p));
      ProperPrefixDeep(q, head, tail);
      RunConcat(Outside(0), x, ":");
      assert ":"[1..] == "";
      var st := Run(Outside(0), head);
      assert st == Next(Run(Outside(0), x), ':');
      RunConcat(Outside(0), head, tail);
      CanonicalBalanced(Obj(q), 0);
      CanonicalBalanced(Obj(p), st.depth);
      if st.Inside? {
        ComplementaryRun(Outside(st.depth), st, tail);
      }
    }
  }

  /** Two requests hash the same string only when they are the same request, up to key order. */
  lemma HashInputInjective(a: string, p: Dict, b: string, q: Dict)
    requires HashInput(a, p) == HashInput(b, q)
    ensures a == b && p == q
  {
    hide Canonical;
    var c, d := Canonical(Obj(p)), Canonical(Obj(q));
    var s := HashInput(a, p);
    assert s == a + (":" + c) && s == b + (":" + d);
    if |a| < |b| {
      LongerId(a, c, b, d);
      NoProperSuffix(q, p, b[|a| + 1..]);
    } else if |b| < |a| {
      LongerId(b, d, a, c);
      NoProperSuffix(p, q, a[|b| + 1..]);
    } else {
      assert s[..|a|] == a && s[..|b|] == b;
      assert s[|a| + 1..] == c && s[|b| + 1..] == d;
      CanonicalInjective(Obj(p), Obj(q));
    }
  }

  lemma LongerId(a: string, c: string, b: string, d: string)
    requires a + ":" + c == b + ":" + d && |a| < |b|
    ensures c == b[|a| + 1..] + ":" + d
  {
    var s := a + ":" + c;
    assert s[|a| + 1..] == c;
    assert s == b + (":" + d);
    assert (b + (":" + d))[|a| + 1..] == b[|a| + 1..] + (":" + d);
  }
}
