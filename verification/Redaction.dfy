/**
 The log redactor: every registered secret is replaced in turn, in whatever order the
 set yields them, by a fixed marker.
 */
module Redaction {
  import opened Wrappers

  const MARKER := "[REDACTED]"
  const MIN_SECRET_LENGTH := 6

  predicate OccursAt(text: string, s: string, i: nat) {
    i + |s| <= |text| && text[i..i + |s|] == s
  }

  predicate Contains(text: string, s: string) {
    exists i | 0 <= i <= |text| :: OccursAt(text, s, i)
  }

  /** `str.replace`: leftmost occurrences, not overlapping. */
  function Replace(text: string, piece: string, mark: string): string
    requires piece != ""
    decreases |text|
  {
    if text == "" then ""
    else if OccursAt(text, piece, 0) then mark + Replace(text[|piece|..], piece, mark)
    else [text[0]] + Replace(text[1..], piece, mark)
  }

  lemma ReplaceSkips(text: string, piece: string, mark: string)
    requires text != "" && piece != "" && !OccursAt(text, piece, 0)
    ensures Replace(text, piece, mark) == [text[0]] + Replace(text[1..], piece, mark)
  {
  }

  lemma ReplaceHead(text: string, piece: string, mark: string)
    requires piece != "" && OccursAt(text, piece, 0)
    ensures Replace(text, piece, mark) == mark + Replace(text[|piece|..], piece, mark)
  {
  }

  /** The text up to the first occurrence stays, and the rest is treated alike. */
  lemma {:induction false} ReplaceFirst(text: string, piece: string, mark: string, i: nat)
    requires piece != "" && OccursAt(text, piece, i) && forall j | 0 <= j < i :: !OccursAt(text, piece, j)
    ensures i + |piece| <= |text|
    ensures Replace(text, piece, mark) == text[..i] + (mark + Replace(text[i + |piece|..], piece, mark))
    decreases i
  {
    hide Replace;
    if i == 0 {
      ReplaceHead(text, piece, mark);
      var r := mark + Replace(text[|piece|..], piece, mark);
      assert text[..0] + r == r;
    } else {
      var rest, tail := text[1..], mark + Replace(text[i + |piece|..], piece, mark);
      OccursShift(text, piece);
      assert OccursAt(rest, piece, i - 1);
      ReplaceSkips(text, piece, mark);
      ReplaceFirst(rest, piece, mark, i - 1);
      assert rest[i - 1 + |piece|..] == text[i + |piece|..];
      PutBack(text, i, tail);
    }
  }

  lemma PutBack(text: string, i: nat, tail: string)
    requires 0 < i <= |text|
    ensures [text[0]] + (text[1..][..i - 1] + tail) == text[..i] + tail
  {
    assert text[..i] == [text[0]] + text[1..][..i - 1];
  }

  lemma OccursShift(text: string, piece: string)
    requires text != ""
    ensures forall j: nat :: OccursAt(text[1..], piece, j) <==> OccursAt(text, piece, j + 1)
  {
    forall j: nat ensures OccursAt(text[1..], piece, j) <==> OccursAt(text, piece, j + 1) {
      if j + |piece| <= |text| - 1 {
        assert text[1..][j..j + |piece|] == text[j + 1..j + 1 + |piece|];
      }
    }
  }

  /** A text without the piece stays as it is. */
  lemma {:induction false} ReplaceNothing(text: string, piece: string, mark: string)
    requires piece != "" && !Contains(text, piece)
    ensures Replace(text, piece, mark) == text
    decreases |text|
  {
    if text != "" {
      OccursShift(text, piece);
      assert !OccursAt(text, piece, 0);
      ReplaceNothing(text[1..], piece, mark);
    }
  }

  /** One turn of the redaction loop. */
  function RedactOne(text: string, secret: string): string
    requires secret != ""
  {
    if Contains(text, secret) then Replace(text, secret, MARKER) else text
  }

  /** The loop for one iteration order. */
  function RedactInOrder(text: string, order: seq<string>): string
    requires "" !in order
    decreases |order|
  {
    if order == [] then text else RedactInOrder(RedactOne(text, order[0]), order[1..])
  }

  /** A non-empty end of the marker begins `s`. */
  predicate BeginsInMarker(s: string, k: nat) {
    1 <= k < |MARKER| && k < |s| && MARKER[|MARKER| - k..] == s[..k]
  }

  /** A non-empty beginning of the marker ends `s`. */
  predicate EndsInMarker(s: string, k: nat) {
    1 <= k < |MARKER| && k < |s| && MARKER[..k] == s[|s| - k..]
  }

  /** Whether `s` can share characters with a marker in some text. */
  predicate Touches(s: string) {
    Contains(MARKER, s) || Contains(s, MARKER)
    || (exists k | 1 <= k < |MARKER| :: BeginsInMarker(s, k) || EndsInMarker(s, k))
  }

  predicate Separate(s: string) {
    s != "" && !Touches(s)
  }

  lemma OccursEnds(text: string, s: string, i: nat)
    requires s != "" && OccursAt(text, s, i)
    ensures text[i] == s[0] && text[i + |s| - 1] == s[|s| - 1]
  {
    assert s[0] == text[i..i + |s|][0];
    assert s[|s| - 1] == text[i..i + |s|][|s| - 1];
  }

  lemma InsideBrackets(a: char, word: string, b: char, s: string, i: nat)
    requires s != "" && OccursAt([a] + word + [b], s, i) && i > 0 && i + |s| < |word| + 2
    ensures Contains(word, s)
  {
    var text := [a] + word + [b];
    assert word[i - 1..i - 1 + |s|] == text[i..i + |s|];
    assert OccursAt(word, s, i - 1);
  }

  /** A piece of the marker holds one of its brackets or is a piece of its word. */
  lemma PieceOfMarker(s: string)
    requires s != "" && Contains(MARKER, s)
    ensures '[' in s || ']' in s || Contains("REDACTED", s)
  {
    hide OccursAt;
    assert MARKER == ['['] + "REDACTED" + [']'];
    BracketOrInside('[', "REDACTED", ']', s);
  }

  lemma BracketOrInside(a: char, word: string, b: char, s: string)
    requires s != "" && Contains([a] + word + [b], s)
    ensures a in s || b in s || Contains(word, s)
  {
    var text := [a] + word + [b];
    var i :| 0 <= i <= |text| && OccursAt(text, s, i);
    OccursEnds(text, s, i);
    if i > 0 && i + |s| < |text| {
      InsideBrackets(a, word, b, s, i);
    }
  }

  /** An easy check: only a secret with a bracket or a piece of the marker's word touches it. */
  lemma TouchingSecrets(s: string)
    requires s != "" && Touches(s)
    ensures '[' in s || ']' in s || Contains("REDACTED", s)
  {
    if Contains(MARKER, s) {
      PieceOfMarker(s);
    } else if Contains(s, MARKER) {
      var i :| 0 <= i <= |s| && OccursAt(s, MARKER, i);
      OccursEnds(s, MARKER, i);
    } else {
      var k :| 1 <= k < |MARKER| && (BeginsInMarker(s, k) || EndsInMarker(s, k));
      if BeginsInMarker(s, k) {
        assert s[k - 1] == s[..k][k - 1] == MARKER[|MARKER| - k..][k - 1] == ']';
      } else {
        assert s[|s| - k] == s[|s| - k..][0] == MARKER[..k][0] == '[';
      }
    }
  }

  // ---- One replacement ----

  lemma ContainsShift(text: string, x: string, d: nat)
    requires d <= |text| && Contains(text[d..], x)
    ensures Contains(text, x)
  {
    var i :| 0 <= i <= |text[d..]| && OccursAt(text[d..], x, i);
    assert text[d..][i..i + |x|] == text[d + i..d + i + |x|];
    assert OccursAt(text, x, d + i);
  }

  /** What overlaps a marker at the front of a text touches it. */
  lemma OverlapTouches(rest: string, x: string, i: nat)
    requires x != "" && OccursAt(MARKER + rest, x, i) && i < |MARKER|
    ensures Touches(x)
  {
    var r := MARKER + rest;
    if i + |x| <= |MARKER| {
      assert MARKER[i..i + |x|] == r[i..i + |x|];
      assert OccursAt(MARKER, x, i);
    } else if i == 0 {
      assert x[..|MARKER|] == r[..|MARKER|];
      assert OccursAt(x, MARKER, 0);
    } else {
      assert MARKER[i..] == r[i..|MARKER|] == x[..|MARKER| - i];
      assert BeginsInMarker(x, |MARKER| - i);
    }
  }

  /** So does what runs into such a marker. */
  lemma ContinuationTouches(rest: string, x: string, k: nat)
    requires 1 <= k < |x| && x[k..] <= MARKER + rest
    ensures Touches(x)
  {
    var y, r := x[k..], MARKER + rest;
    if |y| < |MARKER| {
      assert y == r[..|y|] == MARKER[..|y|];
      assert y == x[|x| - |y|..];
      assert EndsInMarker(x, |y|);
    } else {
      assert x[k..k + |MARKER|] == y[..|MARKER|] == r[..|MARKER|] == MARKER;
      assert OccursAt(x, MARKER, k);
    }
  }

  /** What continues a separate secret after a replacement was there before it. */
  lemma {:induction false} ContinuesUnreplaced(text: string, piece: string, x: string, k: nat)
    requires piece != "" && Separate(x) && 1 <= k <= |x|
    requires x[k..] <= Replace(text, piece, MARKER)
    ensures x[k..] <= text
    decreases |text|
  {
    hide Touches, Contains;
    var y := x[k..];
    if y != "" && text != "" {
      if OccursAt(text, piece, 0) {
        ContinuationTouches(Replace(text[|piece|..], piece, MARKER), x, k);
      } else {
        assert y[1..] == x[k + 1..];
        ContinuesUnreplaced(text[1..], piece, x, k + 1);
        assert y == [text[0]] + y[1..];
        assert text == [text[0]] + text[1..];
      }
    }
  }

  /** Where the replaced text starts with the piece, an occurrence lies in what follows the marker. */
  lemma BeyondMarker(tail: string, x: string, i: nat)
    requires Separate(x) && OccursAt(MARKER + tail, x, i)
    ensures i >= |MARKER| && OccursAt(tail, x, i - |MARKER|)
  {
    hide Touches;
    var r := MARKER + tail;
    if i < |MARKER| {
      OverlapTouches(tail, x, i);
    } else {
      assert r[i..i + |x|] == tail[i - |MARKER|..i - |MARKER| + |x|];
    }
  }

  /** A replacement never creates a separate secret, and leaves none of the one it replaces. */
  lemma {:induction false} OccurrenceWasThere(text: string, piece: string, x: string, i: nat)
    requires piece != "" && Separate(x) && OccursAt(Replace(text, piece, MARKER), x, i)
    ensures Contains(text, x) && x != piece
    decreases |text|
  {
    hide Separate, Contains;
    var r := Replace(text, piece, MARKER);
    SeparateNonEmpty(x);
    if text != "" {
      if OccursAt(text, piece, 0) {
        BeyondMarker(Replace(text[|piece|..], piece, MARKER), x, i);
        OccurrenceWasThere(text[|piece|..], piece, x, i - |MARKER|);
        ContainsShift(text, x, |piece|);
      } else if i > 0 {
        assert r[1..][i - 1..i - 1 + |x|] == r[i..i + |x|];
        OccurrenceWasThere(text[1..], piece, x, i - 1);
        ContainsShift(text, x, 1);
      } else {
        AtUnreplacedHead(text, piece, x);
      }
    }
  }

  lemma SeparateNonEmpty(x: string)
    requires Separate(x)
    ensures x != ""
  {
  }

  lemma AtUnreplacedHead(text: string, piece: string, x: string)
    requires piece != "" && text != "" && !OccursAt(text, piece, 0)
    requires Separate(x) && OccursAt(Replace(text, piece, MARKER), x, 0)
    ensures Contains(text, x) && x != piece
  {
    hide Touches;
    var r := Replace(text, piece, MARKER);
    assert r == [text[0]] + Replace(text[1..], piece, MARKER);
    assert x[1..] == r[1..|x|] == r[1..][..|x| - 1];
    ContinuesUnreplaced(text[1..], piece, x, 1);
    assert x == [text[0]] + x[1..];
    assert text[..|x|] == [text[0]] + text[1..][..|x| - 1];
    assert OccursAt(text, x, 0);
  }

  // ---- The whole loop ----

  /** A separate secret that survives redaction was in the text and is not registered. */
  lemma {:induction false} SurvivorUnregistered(text: string, order: seq<string>, x: string)
    requires "" !in order && Separate(x) && Contains(RedactInOrder(text, order), x)
    ensures Contains(text, x) && x !in order
    decreases |order|
  {
    if order != [] {
      var next := RedactOne(text, order[0]);
      SurvivorUnregistered(next, order[1..], x);
      if Contains(text, order[0]) {
        var i :| 0 <= i <= |next| && OccursAt(next, x, i);
        OccurrenceWasThere(text, order[0], x, i);
      }
      assert order == [order[0]] + order[1..];
    }
  }

  /**
   Redaction is complete in every order: no registered secret that is separate from the
   marker is left, whatever the other secrets are.
   */
  lemma RedactionComplete(text: string, order: seq<string>)
    requires "" !in order
    ensures forall x | x in order && Separate(x) :: !Contains(RedactInOrder(text, order), x)
  {
    forall x | x in order && Separate(x) ensures !Contains(RedactInOrder(text, order), x) {
      if Contains(RedactInOrder(text, order), x) { SurvivorUnregistered(text, order, x); }
    }
  }

  lemma {:induction false} SecretFreeUnchanged(text: string, order: seq<string>)
    requires "" !in order && forall x | x in order :: !Contains(text, x)
    ensures RedactInOrder(text, order) == text
    decreases |order|
  {
    if order != [] {
      assert order[0] in order;
      SecretFreeUnchanged(text, order[1..]);
    }
  }

  /** What a second redaction leaves alone: it is the marker or cannot share characters with it. */
  predicate Harmless(s: string) {
    Separate(s) || s == MARKER
  }

  lemma {:induction false} MarkerForMarker(text: string)
    ensures Replace(text, MARKER, MARKER) == text
    decreases |text|
  {
    if text != "" {
      if OccursAt(text, MARKER, 0) {
        assert text == MARKER + text[|MARKER|..];
        MarkerForMarker(text[|MARKER|..]);
      } else {
        MarkerForMarker(text[1..]);
        assert text == [text[0]] + text[1..];
      }
    }
  }

  lemma {:induction false} NothingToRedact(text: string, order: seq<string>)
    requires "" !in order && forall x | x in order :: x == MARKER || !Contains(text, x)
    ensures RedactInOrder(text, order) == text
    decreases |order|
  {
    if order != [] {
      assert order[0] in order;
      MarkerForMarker(text);
      NothingToRedact(text, order[1..]);
    }
  }

  /** Redacting again, in any order, changes nothing. */
  lemma RedactionIdempotent(text: string, first: seq<string>, second: seq<string>)
    requires "" !in first && forall x | x in first :: Harmless(x)
    requires forall x | x in second :: x in first
    ensures RedactInOrder(RedactInOrder(text, first), second) == RedactInOrder(text, first)
  {
    hide Separate, RedactInOrder, Contains;
    RedactionComplete(text, first);
    NothingToRedact(RedactInOrder(text, first), second);
  }

  // ---- Where the condition is needed ----

  function Repeated(c: char, n: nat): string {
    seq(n, _ => c)
  }

  lemma {:induction false} ShorterUnchanged(text: string, piece: string)
    requires |text| < |piece|
    ensures Replace(text, piece, MARKER) == text
  {
    if text != "" { ShorterUnchanged(text[1..], piece); }
  }

  lemma {:induction false} RunAtHead(b: string, c: char, n: nat)
    requires n > |b|
    ensures Replace(Repeated(c, n) + b, Repeated(c, n), MARKER) == MARKER + b
  {
    var t := Repeated(c, n);
    var text := t + b;
    assert text[0..n] == t && text[n..] == b;
    assert OccursAt(text, t, 0);
    ShorterUnchanged(b, t);
  }

  lemma {:induction false} RunReplaced(a: string, b: string, c: char, n: nat)
    requires n > |a| && n > |b| && (a != "" ==> a[|a| - 1] != c)
    ensures Replace(a + (Repeated(c, n) + b), Repeated(c, n), MARKER) == a + (MARKER + b)
    decreases |a|
  {
    hide OccursAt, Repeated, Replace;
    var t := Repeated(c, n);
    if a == "" {
      assert a + (t + b) == t + b && a + (MARKER + b) == MARKER + b;
      RunAtHead(b, c, n);
    } else {
      var text := a + (t + b);
      RunNotAtHead(a, t + b, c, n);
      ReplaceSkips(text, t, MARKER);
      assert text[1..] == a[1..] + (t + b);
      RunReplaced(a[1..], b, c, n);
      assert [text[0]] + (a[1..] + (MARKER + b)) == a + (MARKER + b);
    }
  }

  lemma RunNotAtHead(a: string, rest: string, c: char, n: nat)
    requires n > |a| > 0 && a[|a| - 1] != c
    ensures !OccursAt(a + rest, Repeated(c, n), 0)
    ensures |Repeated(c, n)| == n
  {
    var text := a + rest;
    if n <= |text| {
      assert text[0..n][|a| - 1] == a[|a| - 1] != Repeated(c, n)[|a| - 1];
    }
  }

  lemma RunKeepsApart(s: string, a: string, b: string, c: char, n: nat)
    requires |a| < |s| && |b| < |s| < n && s[0] != c && s[|s| - 1] != c
    ensures !Contains(a + (Repeated(c, n) + b), s)
  {
    var text := a + (Repeated(c, n) + b);
    forall i | 0 <= i <= |text| ensures !OccursAt(text, s, i) {
      if OccursAt(text, s, i) { OccursEnds(text, s, i); }
    }
  }

  /** Some letter that is none of the ends of these strings. */
  function OtherLetter(s: string, a: string): (c: char)
    requires s != ""
    ensures c != s[0] && c != s[|s| - 1] && (a != "" ==> c != a[|a| - 1]) && 'w' <= c <= 'z'
  {
    var free := (x: char) => x != s[0] && x != s[|s| - 1] && (a != "" ==> x != a[|a| - 1]);
    if free('w') then 'w' else if free('x') then 'x' else if free('y') then 'y' else 'z'
  }

  lemma SpillsOver(s: string, k: nat)
    requires BeginsInMarker(s, k)
    ensures Contains("" + MARKER + s[k..], s)
  {
    var r := "" + MARKER + s[k..];
    var at := |MARKER| - k;
    assert r[at..at + |s|] == MARKER[at..] + s[k..];
    assert s[..k] + s[k..] == s;
    assert OccursAt(r, s, at);
  }

  lemma SpillsBefore(s: string, k: nat)
    requires EndsInMarker(s, k)
    ensures Contains(s[..|s| - k] + MARKER + "", s)
  {
    var r := s[..|s| - k] + MARKER + "";
    assert r[0..|s|] == s[..|s| - k] + MARKER[..k];
    assert s[..|s| - k] + s[|s| - k..] == s;
    assert OccursAt(r, s, 0);
  }

  /** Where a secret that touches the marker shares characters with it. */
  lemma Around(s: string) returns (a: string, b: string)
    requires s != "" && Touches(s)
    ensures |a| < |s| && |b| < |s| && Contains(a + MARKER + b, s)
  {
    if Contains(MARKER, s) {
      a, b := "", "";
      assert "" + MARKER + "" == MARKER;
    } else if Contains(s, MARKER) {
      var i :| 0 <= i <= |s| && OccursAt(s, MARKER, i);
      a, b := s[..i], s[i + |MARKER|..];
      assert a + MARKER + b == s;
      assert OccursAt(s, s, 0);
    } else {
      var k :| 1 <= k < |MARKER| && (BeginsInMarker(s, k) || EndsInMarker(s, k));
      if BeginsInMarker(s, k) {
        a, b := "", s[k..];
        SpillsOver(s, k);
      } else {
        a, b := s[..|s| - k], "";
        SpillsBefore(s, k);
      }
    }
  }

  lemma LettersSeparate(c: char, n: nat)
    requires 'w' <= c <= 'z' && n > 0
    ensures Separate(Repeated(c, n))
  {
    hide Touches;
    var s := Repeated(c, n);
    forall i | 0 <= i <= |"REDACTED"| ensures !OccursAt("REDACTED", s, i) {
      if OccursAt("REDACTED", s, i) { OccursEnds("REDACTED", s, i); }
    }
    if Touches(s) { TouchingSecrets(s); }
  }

  lemma TwoTurns(text: string, s: string, other: string)
    requires s != "" && other != "" && !Contains(text, s)
    ensures RedactInOrder(text, [s, other]) == RedactOne(text, other)
  {
    var r := RedactOne(text, other);
    assert [s, other][1..] == [other] && [other][1..] == [];
    assert RedactInOrder(r, []) == r;
    assert RedactInOrder(text, [other]) == r;
  }

  /** Next to one other secret, a secret that touches the marker can be created by redaction. */
  lemma RedactionCreates(s: string) returns (text: string, other: string)
    requires s != "" && Touches(s)
    ensures |other| >= MIN_SECRET_LENGTH && other != s && Separate(other)
    ensures !Contains(text, s) && Contains(RedactInOrder(text, [s, other]), s)
  {
    hide Touches, Replace, RedactInOrder;
    var a, b := Around(s);
    var c, n := OtherLetter(s, a), |s| + MIN_SECRET_LENGTH;
    other := Repeated(c, n);
    text := a + (other + b);
    RunKeepsApart(s, a, b, c, n);
    RunReplaced(a, b, c, n);
    assert text[|a|..|a| + n] == other;
    assert OccursAt(text, other, |a|);
    assert a + (MARKER + b) == a + MARKER + b;
    TwoTurns(text, s, other);
    LettersSeparate(c, n);
  }

  /** No redacted text ever holds `s`, whichever other secrets there are and in whatever order. */
  ghost predicate AlwaysRemoved(s: string) {
    forall text, order | "" !in order && s in order :: !Contains(RedactInOrder(text, order), s)
  }

  /** A secret is always removed exactly when it cannot share characters with the marker. */
  lemma RemovedExactlyWhenSeparate(s: string)
    requires s != ""
    ensures AlwaysRemoved(s) <==> Separate(s)
  {
    if Separate(s) {
      forall text, order | "" !in order && s in order ensures !Contains(RedactInOrder(text, order), s) {
        RedactionComplete(text, order);
      }
    } else {
      var text, other := RedactionCreates(s);
      assert s in [s, other];
    }
  }

  lemma {:induction false} ReplacedLength(text: string, piece: string)
    requires piece != ""
    ensures |piece| <= |MARKER| ==> |Replace(text, piece, MARKER)| >= |text|
    ensures |piece| >= |MARKER| ==> |Replace(text, piece, MARKER)| <= |text|
    decreases |text|
  {
    if text != "" {
      ReplacedLength(if OccursAt(text, piece, 0) then text[|piece|..] else text[1..], piece);
    }
  }

  /** Replacing anything but the marker changes the text. */
  lemma {:induction false} ReplacementShows(text: string, piece: string, i: nat)
    requires piece != "" && piece != MARKER && OccursAt(text, piece, i)
    ensures Replace(text, piece, MARKER) != text
    decreases |text|
  {
    var r := Replace(text, piece, MARKER);
    if OccursAt(text, piece, 0) {
      ReplacedLength(text[|piece|..], piece);
      if |piece| == |MARKER| {
        assert r[..|MARKER|] == MARKER && text[..|piece|] == piece;
      }
    } else {
      assert text[1..][i - 1..i - 1 + |piece|] == text[i..i + |piece|];
      ReplacementShows(text[1..], piece, i - 1);
      assert r[1..] == Replace(text[1..], piece, MARKER);
    }
  }

  /** With one secret, a second pass changes the text exactly when the first one left or made an occurrence. */
  lemma SecondPass(text: string, s: string)
    requires s != ""
    ensures var r := RedactOne(text, s);
            RedactOne(r, s) == r <==> s == MARKER || !Contains(r, s)
  {
    hide Replace;
    var r := RedactOne(text, s);
    if s == MARKER {
      MarkerForMarker(r);
    } else if Contains(r, s) {
      var i :| 0 <= i <= |r| && OccursAt(r, s, i);
      ReplacementShows(r, s, i);
    }
  }

  /** Secrets of which only `s` may touch the marker. */
  predicate HarmlessBut(s: string, order: seq<string>) {
    "" !in order && s in order && forall x | x in order :: x == s || Harmless(x)
  }

  /** Redaction with `s` and harmless secrets is idempotent, in all orders. */
  ghost predicate KeepsIdempotent(s: string) {
    forall text, first, second | HarmlessBut(s, first) && (forall x | x in second :: x in first) ::
      RedactInOrder(RedactInOrder(text, first), second) == RedactInOrder(text, first)
  }

  /** Redaction stays idempotent with a secret exactly when that is the marker or separate from it. */
  lemma IdempotentExactlyWhenHarmless(s: string)
    requires s != ""
    ensures KeepsIdempotent(s) <==> Harmless(s)
  {
    hide RedactInOrder, Touches;
    if Harmless(s) {
      forall text, first, second | HarmlessBut(s, first) && (forall x | x in second :: x in first)
        ensures RedactInOrder(RedactInOrder(text, first), second) == RedactInOrder(text, first)
      {
        RedactionIdempotent(text, first, second);
      }
    } else {
      var text, other := SecondPassDiffers(s);
      assert s in [s, other];
    }
  }

  lemma SecondPassDiffers(s: string) returns (text: string, other: string)
    requires s != "" && !Harmless(s)
    ensures other != "" && Harmless(other)
    ensures var r := RedactInOrder(text, [s, other]); RedactInOrder(r, [s, other]) != r
  {
    hide Touches, Replace, RedactInOrder, Contains;
    text, other := RedactionCreates(s);
    var r := RedactInOrder(text, [s, other]);
    assert other in [s, other];
    RedactionComplete(text, [s, other]);
    Unchained(r, s, other);
    RedactsAgain(r, s, other);
  }

  lemma Unchained(r: string, s: string, other: string)
    requires s != "" && Separate(other) && !Contains(r, other)
    ensures !Contains(RedactOne(r, s), other)
  {
    hide Separate, Replace;
    var m := RedactOne(r, s);
    if Contains(m, other) {
      var i :| 0 <= i <= |m| && OccursAt(m, other, i);
      OccurrenceWasThere(r, s, other, i);
    }
  }

  lemma RedactsAgain(r: string, s: string, other: string)
    requires s != "" && s != MARKER && other != "" && Contains(r, s) && !Contains(RedactOne(r, s), other)
    ensures RedactInOrder(r, [s, other]) != r
  {
    hide Replace;
    var i :| 0 <= i <= |r| && OccursAt(r, s, i);
    ReplacementShows(r, s, i);
    var m := RedactOne(r, s);
    assert [s, other][1..] == [other] && [other][1..] == [];
    assert RedactInOrder(m, [other]) == RedactInOrder(m, []) == m;
  }

  // ---- The registry ----

  ghost predicate Enumerates(order: seq<string>, secrets: set<string>) {
    (forall x :: x in order <==> x in secrets) && (forall i, j | 0 <= i < j < |order| :: order[i] != order[j])
  }

  class SecretRegistry {
    var secrets: set<string>

    predicate Valid()
      reads this
    {
      forall s | s in secrets :: |s| >= MIN_SECRET_LENGTH
    }

    constructor ()
      ensures Valid() && secrets == {}
    {
      secrets := {};
    }

    /** Missing and short values are not registered. */
    method Register(value: Option<string>)
      requires Valid()
      modifies this
      ensures Valid()
      ensures secrets == old(secrets) + (if value.Some? && |value.value| >= 6 then {value.value} else {})
    {
      if value.Some? && |value.value| >= MIN_SECRET_LENGTH {
        secrets := secrets + {value.value};
      }
    }

    /** Some order of the set decides the result; every separate secret is gone in any of them. */
    method Redact(text: string) returns (r: string)
      requires Valid()
      ensures exists order :: "" !in order && Enumerates(order, secrets) && r == RedactInOrder(text, order)
      ensures forall s | s in secrets && Separate(s) :: !Contains(r, s)
      ensures (forall s | s in secrets :: !Contains(text, s)) ==> r == text
    {
      var left := secrets;
      ghost var order := [];
      r := text;
      while left != {}
        invariant left <= secrets
        invariant "" !in order && Enumerates(order, secrets - left)
        invariant r == RedactInOrder(text, order)
        decreases left
      {
        var secret :| secret in left;
        RedactSnoc(text, order, secret);
        if Contains(r, secret) {
          r := Replace(r, secret, MARKER);
        }
        left := left - {secret};
        order := order + [secret];
      }
      RedactionComplete(text, order);
      if forall s | s in secrets :: !Contains(text, s) {
        SecretFreeUnchanged(text, order);
      }
    }
  }

  lemma {:induction false} RedactSnoc(text: string, order: seq<string>, secret: string)
    requires "" !in order && secret != ""
    ensures RedactInOrder(text, order + [secret]) == RedactOne(RedactInOrder(text, order), secret)
    decreases |order|
  {
    if order == [] {
      assert [secret][1..] == [];
    } else {
      assert (order + [secret])[1..] == order[1..] + [secret];
      RedactSnoc(RedactOne(text, order[0]), order[1..], secret);
    }
  }
}
