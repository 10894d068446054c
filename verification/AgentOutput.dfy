/**
 How the worker reads the agent's final message: fenced JSON blocks in order, then the
 text from the first `{` to the last `}`, tried from the last candidate back.
 */
module AgentOutput {
  import opened Wrappers
  import opened Json
  import opened JsonParser
  import JsonPrinter

  /** White space as the regular expression `\s` and `str.strip` understand it. */
  predicate Space(c: char) {
    var n := c as int;
    0x09 <= n <= 0x0D || 0x1C <= n <= 0x20 || n == 0x85 || n == 0xA0 || n == 0x1680
    || 0x2000 <= n <= 0x200A || n == 0x2028 || n == 0x2029 || n == 0x202F || n == 0x205F || n == 0x3000
  }

  function SkipSpace(s: string): (r: string)
    ensures |r| <= |s| && r == s[|s| - |r|..]
    ensures r != "" ==> !Space(r[0])
  {
    if s != "" && Space(s[0]) then SkipSpace(s[1..]) else s
  }

  function StripEnd(s: string): string {
    if s != "" && Space(s[|s| - 1]) then StripEnd(s[..|s| - 1]) else s
  }

  function Strip(s: string): string {
    StripEnd(SkipSpace(s))
  }

  lemma {:induction false} SkippedIsSpace(s: string)
    ensures AllSpace(s[..|s| - |SkipSpace(s)|])
  {
    if s != "" && Space(s[0]) {
      SkippedIsSpace(s[1..]);
      var n := |s| - |SkipSpace(s)|;
      assert s[..n] == [s[0]] + s[1..][..n - 1];
    }
  }

  lemma {:induction false} EndStripped(s: string)
    ensures var r := StripEnd(s);
            r <= s && AllSpace(s[|r|..]) && (r != "" ==> !Space(r[|r| - 1]))
  {
    if s != "" && Space(s[|s| - 1]) {
      EndStripped(s[..|s| - 1]);
      var r := StripEnd(s);
      assert s[|r|..] == s[..|s| - 1][|r|..] + [s[|s| - 1]];
    }
  }

  /** Stripping takes white space off both ends, all of it, and nothing else. */
  lemma StripTrims(s: string) returns (before: string, after: string)
    ensures s == before + Strip(s) + after && AllSpace(before) && AllSpace(after)
    ensures var r := Strip(s); r != "" ==> !Space(r[0]) && !Space(r[|r| - 1])
  {
    hide SkipSpace, StripEnd, Space, AllSpace;
    var m := SkipSpace(s);
    SkippedIsSpace(s);
    EndStripped(m);
    before, after := s[..|s| - |m|], m[|StripEnd(m)|..];
    Rejoin(s, m, StripEnd(m));
  }

  lemma Rejoin(s: string, m: string, r: string)
    requires |m| <= |s| && m == s[|s| - |m|..] && r <= m
    ensures s == s[..|s| - |m|] + r + m[|r|..]
    ensures r != "" ==> r[0] == m[0]
  {
    assert m == r + m[|r|..];
    assert s == s[..|s| - |m|] + m;
  }

  const FENCE := "```"

  predicate StartsWith(s: string, p: string) {
    |p| <= |s| && s[..|p|] == p
  }

  /** A `}` at `q` that, after white space, a closing fence follows. */
  predicate Closes(s: string, q: nat) {
    q < |s| && s[q] == '}' && StartsWith(SkipSpace(s[q + 1..]), FENCE)
  }

  /** The least closing position from `from` on. */
  function CloseBrace(s: string, from: nat): (r: Option<nat>)
    requires from <= |s|
    ensures r.Some? ==> from <= r.value && Closes(s, r.value)
    decreases |s| - from
  {
    if from == |s| then None else if Closes(s, from) then Some(from) else CloseBrace(s, from + 1)
  }

  datatype Match = Match(group: string, rest: string)

  /** What follows an opening fence at the start of `s`: optional `json`, then white space. */
  function AfterFence(s: string): string
    requires StartsWith(s, FENCE)
  {
    var t := s[3..];
    SkipSpace(if StartsWith(t, "json") then t[4..] else t)
  }

  /** The fenced-block expression matched at the very start of `s`. */
  function MatchHere(s: string): (r: Option<Match>)
    ensures r.Some? ==> |r.value.rest| < |s|
  {
    if !StartsWith(s, FENCE) then None
    else
      var body := AfterFence(s);
      if body == "" || body[0] != '{' then None
      else
        var q :- CloseBrace(body, 1);
        Some(Match(body[..q + 1], SkipSpace(body[q + 1..])[3..]))
  }

  /** The bracketed groups of all matches, leftmost first and not overlapping. */
  function FindAll(s: string): seq<string>
    decreases |s|
  {
    if s == "" then []
    else
      var m := MatchHere(s);
      if m.Some? then [m.value.group] + FindAll(m.value.rest) else FindAll(s[1..])
  }

  function FirstIndex(s: string, c: char): (i: nat)
    ensures i <= |s| && (i < |s| ==> s[i] == c) && forall k | 0 <= k < i :: s[k] != c
  {
    if s == "" || s[0] == c then 0 else 1 + FirstIndex(s[1..], c)
  }

  /** One past the last occurrence of `c`; 0 when there is none. */
  function LastEnd(s: string, c: char): (i: nat)
    ensures i <= |s| && (i > 0 ==> s[i - 1] == c) && forall k | i <= k < |s| :: s[k] != c
  {
    if s == "" then 0 else if s[|s| - 1] == c then |s| else LastEnd(s[..|s| - 1], c)
  }

  /** From the first `{` to the last `}`; empty when they stand the other way round. */
  function BareObject(s: string): string {
    var a, b := FirstIndex(s, '{'), LastEnd(s, '}');
    if a < b then s[a..b] else ""
  }

  function Candidates(s: string): seq<string> {
    FindAll(s) + if FirstIndex(s, '{') < |s| then [BareObject(s)] else []
  }

  /** Schema validation of a parsed dict, as the worker is given it. */
  type Validator<!T> = Dict -> Option<T>

  function Read<T>(validate: Validator<T>, candidate: string): Option<T> {
    var data :- Loads(candidate);
    if data.Obj? then validate(data.members) else None
  }

  /** What the last readable candidate yields. */
  function Select<T>(validate: Validator<T>, candidates: seq<string>): Option<T> {
    if candidates == [] then None
    else
      var last := Read(validate, candidates[|candidates| - 1]);
      if last.Some? then last else Select(validate, candidates[..|candidates| - 1])
  }

  datatype Parsed<+T> = Structured(output: T) | Unstructured(summary: string)

  function Outcome<T>(choice: Option<T>, text: string): Parsed<T> {
    if choice.Some? then Structured(choice.value) else Unstructured(Strip(text))
  }

  function Parse<T>(validate: Validator<T>, text: string): Parsed<T> {
    Outcome(Select(validate, Candidates(text)), text)
  }

  /** The scan of the candidates from the last one back. */
  method ParseAgentOutput<T>(text: string, validate: Validator<T>) returns (r: Parsed<T>)
    ensures r == Parse(validate, text)
    ensures r.Structured? ==>
              exists i :: 0 <= i < |Candidates(text)| && Read(validate, Candidates(text)[i]) == Some(r.output)
                          && forall k | i < k < |Candidates(text)| :: Read(validate, Candidates(text)[k]).None?
    ensures r.Unstructured? ==>
              r.summary == Strip(text) && forall c | c in Candidates(text) :: Read(validate, c).None?
  {
    hide Read, Candidates, Strip;
    var candidates := Candidates(text);
    assert candidates[..|candidates|] == candidates;
    var i := |candidates|;
    while i > 0
      invariant 0 <= i <= |candidates|
      invariant forall k | i <= k < |candidates| :: Read(validate, candidates[k]).None?
      invariant Select(validate, candidates) == Select(validate, candidates[..i])
    {
      i := i - 1;
      assert candidates[..i + 1][..i] == candidates[..i];
      var output := Read(validate, candidates[i]);
      if output.Some? {
        return Structured(output.value);
      }
    }
    return Unstructured(Strip(text));
  }

  // ---- Fenced blocks in prose ----

  datatype Block = Block(prose: string, tagged: bool, before: string, obj: string, after: string)

  predicate Plain(s: string) {
    forall k | 0 <= k < |s| :: s[k] != '{' && s[k] != '}' && s[k] != '`'
  }

  predicate AllSpace(s: string) {
    forall k | 0 <= k < |s| :: Space(s[k])
  }

  predicate NoFence(s: string) {
    forall k | 0 <= k <= |s| :: !StartsWith(s[k..], FENCE)
  }

  predicate ValidBlock(b: Block) {
    Plain(b.prose) && AllSpace(b.before) && AllSpace(b.after) && ObjectText(b.obj) && NoFence(b.obj)
  }

  predicate ValidBlocks(bs: seq<Block>) {
    forall b | b in bs :: ValidBlock(b)
  }

  /** A fenced block followed by `rest`. */
  function Fenced(b: Block, rest: string): string {
    FENCE + ((if b.tagged then "json" else "") + (b.before + (b.obj + (b.after + (FENCE + rest)))))
  }

  /** Prose and fenced blocks in turn, then closing prose. */
  function Render(bs: seq<Block>, tail: string): string {
    if bs == [] then tail else bs[0].prose + Fenced(bs[0], Render(bs[1..], tail))
  }

  function Objects(bs: seq<Block>): (r: seq<string>)
    ensures |r| == |bs| && forall i | 0 <= i < |bs| :: r[i] == bs[i].obj
  {
    if bs == [] then [] else [bs[0].obj] + Objects(bs[1..])
  }

  lemma {:induction false} SkipSpaces(a: string, b: string)
    requires AllSpace(a) && (b == "" || !Space(b[0]))
    ensures SkipSpace(a + b) == b
    decreases |a|
  {
    if a == "" {
      assert a + b == b;
    } else {
      assert (a + b)[1..] == a[1..] + b;
      SkipSpaces(a[1..], b);
    }
  }

  lemma FenceStarts(rest: string)
    ensures StartsWith(FENCE + rest, FENCE) && (FENCE + rest)[3..] == rest && !Space((FENCE + rest)[0])
  {
  }

  lemma FenceChars(s: string)
    ensures StartsWith(s, FENCE) ==> s[0] == '`' && s[1] == '`' && s[2] == '`'
  {
    if StartsWith(s, FENCE) {
      assert forall k | 0 <= k < 3 :: s[..3][k] == s[k];
    }
  }

  /** The object's last brace closes the group. */
  lemma LastBraceCloses(obj: string, after: string, rest: string)
    requires ObjectText(obj) && AllSpace(after)
    ensures Closes(obj + (after + (FENCE + rest)), |obj| - 1)
  {
    var tail := after + (FENCE + rest);
    FenceStarts(rest);
    SkipSpaces(after, FENCE + rest);
    assert (obj + tail)[|obj|..] == tail;
  }

  /** No earlier brace of a fence-free object does. */
  lemma InnerBraceOpen(obj: string, tail: string, q: nat)
    requires ObjectText(obj) && NoFence(obj) && q + 1 < |obj|
    ensures !Closes(obj + tail, q)
  {
    hide ObjectText, SkipSpace, NoFence, StartsWith;
    var body := obj + tail;
    var last := |obj| - 1;
    assert body[last] == '}' by { LastChar(obj); }
    SkipSpaceReach(body, q + 1, last);
    var r := SkipSpace(body[q + 1..]);
    var at := |body| - |r|;
    assert r == body[at..];
    if StartsWith(r, FENCE) {
      FenceInside(obj, tail, at);
      NoFenceAt(obj, at);
    }
  }

  /** A fence that starts inside an object lies inside it: the object ends with a brace. */
  lemma FenceInside(obj: string, tail: string, at: nat)
    requires at < |obj| && obj[|obj| - 1] == '}'
    requires StartsWith((obj + tail)[at..], FENCE)
    ensures StartsWith(obj[at..], FENCE)
  {
    var r := (obj + tail)[at..];
    FenceChars(r);
    assert forall k | 0 <= k < |r| :: r[k] == (obj + tail)[at + k];
    assert at + 3 <= |obj|;
    assert obj[at..][..3] == r[..3];
  }

  lemma NoFenceAt(s: string, at: nat)
    requires NoFence(s) && at <= |s|
    ensures !StartsWith(s[at..], FENCE)
  {
  }

  lemma LastChar(obj: string)
    requires ObjectText(obj)
    ensures obj != "" && obj[0] == '{' && obj[|obj| - 1] == '}' && |obj| > 1
  {
  }

  /** Skipping white space stops at the first character that is none. */
  lemma {:induction false} SkipSpaceReach(s: string, i: nat, k: nat)
    requires i <= k < |s| && !Space(s[k])
    ensures SkipSpace(s[i..]) != "" && i <= |s| - |SkipSpace(s[i..])| <= k
    decreases k - i
  {
    if Space(s[i]) {
      assert s[i..][1..] == s[i + 1..];
      SkipSpaceReach(s, i + 1, k);
    }
  }

  lemma {:induction false} CloseBraceAt(s: string, from: nat, q: nat)
    requires from <= q < |s| && Closes(s, q)
    requires forall k | from <= k < q :: !Closes(s, k)
    ensures CloseBrace(s, from) == Some(q)
    decreases q - from
  {
    hide Closes;
    if from < q { CloseBraceAt(s, from + 1, q); }
  }

  /** A group stands between its opening fence and the closing one. */
  lemma GroupMatch(obj: string, after: string, rest: string)
    requires ObjectText(obj) && NoFence(obj) && AllSpace(after)
    ensures CloseBrace(obj + (after + (FENCE + rest)), 1) == Some(|obj| - 1)
  {
    hide ObjectText, NoFence, Closes, CloseBrace;
    var body := obj + (after + (FENCE + rest));
    LastChar(obj);
    LastBraceCloses(obj, after, rest);
    forall k | 0 <= k < |obj| - 1 ensures !Closes(body, k) {
      InnerBraceOpen(obj, after + (FENCE + rest), k);
    }
    CloseBraceAt(body, 1, |obj| - 1);
  }

  lemma TagSkipped(b: Block, rest: string)
    requires ValidBlock(b)
    ensures var s := Fenced(b, rest);
            StartsWith(s, FENCE) && AfterFence(s) == b.obj + (b.after + (FENCE + rest))
  {
    hide ObjectText, NoFence, SkipSpace, Space;
    LastChar(b.obj);
    var body := b.obj + (b.after + (FENCE + rest));
    var t := (if b.tagged then "json" else "") + (b.before + body);
    FenceStarts(t);
    BraceIsNoSpace(b.before, body);
    SkipSpaces(b.before, body);
    if b.tagged {
      assert t[..4] == "json" && t[4..] == b.before + body;
    } else {
      assert t == b.before + body;
      TagChar(t);
    }
  }

  lemma TagChar(t: string)
    ensures StartsWith(t, "json") ==> t[0] == 'j'
  {
    if StartsWith(t, "json") {
      assert t[..4][0] == t[0];
    }
  }

  lemma BraceIsNoSpace(before: string, body: string)
    requires AllSpace(before) && body != "" && body[0] == '{'
    ensures !Space(body[0]) && (before + body)[0] != 'j'
  {
  }

  /** A fenced block is matched as a whole and its group is exactly the object. */
  lemma BlockMatch(b: Block, rest: string)
    requires ValidBlock(b)
    ensures MatchHere(Fenced(b, rest)) == Some(Match(b.obj, rest))
  {
    hide Fenced, ObjectText, NoFence, AllSpace, AfterFence, CloseBrace, SkipSpace, StartsWith;
    var tail := b.after + (FENCE + rest);
    var body := b.obj + tail;
    LastChar(b.obj);
    TagSkipped(b, rest);
    GroupMatch(b.obj, b.after, rest);
    assert body[..|b.obj|] == b.obj && body[|b.obj|..] == tail;
    FenceStarts(rest);
    SkipSpaces(b.after, FENCE + rest);
  }

  lemma {:induction false} ProseSkipped(prose: string, rest: string)
    requires Plain(prose)
    ensures FindAll(prose + rest) == FindAll(rest)
    decreases |prose|
  {
    if prose == "" {
      assert prose + rest == rest;
    } else {
      assert (prose + rest)[1..] == prose[1..] + rest;
      FenceChars(prose + rest);
      ProseSkipped(prose[1..], rest);
    }
  }

  /** The matches in a rendered message are its objects, in order. */
  lemma {:induction false} FencedObjects(bs: seq<Block>, tail: string)
    requires ValidBlocks(bs) && Plain(tail)
    ensures FindAll(Render(bs, tail)) == Objects(bs)
  {
    hide MatchHere, ValidBlock;
    if bs == [] {
      ProseSkipped(tail, "");
      assert tail + "" == tail;
    } else {
      var rest := Render(bs[1..], tail);
      assert ValidBlock(bs[0]);
      PlainProse(bs[0]);
      ProseSkipped(bs[0].prose, Fenced(bs[0], rest));
      BlockMatch(bs[0], rest);
      FencedObjects(bs[1..], tail);
    }
  }

  lemma PlainProse(b: Block)
    requires ValidBlock(b)
    ensures Plain(b.prose) && ObjectText(b.obj) && AllSpace(b.before) && AllSpace(b.after)
  {
  }

  // ---- The text from the first opening brace to the last closing one ----

  predicate Without(s: string, c: char) {
    forall k | 0 <= k < |s| :: s[k] != c
  }

  /** The bare candidate of a text with one `{` frontier and one `}` frontier. */
  lemma BareBetween(before: string, middle: string, after: string)
    requires Without(before, '{') && Without(after, '}')
    requires middle != "" && middle[0] == '{' && middle[|middle| - 1] == '}'
    ensures var s := before + middle + after;
            FirstIndex(s, '{') == |before| && BareObject(s) == middle
  {
    var s := before + middle + after;
    var a, b := FirstIndex(s, '{'), LastEnd(s, '}');
    var p, q := |before|, |before| + |middle|;
    assert s[p] == '{' && s[q - 1] == '}';
    assert forall k | 0 <= k < p :: s[k] == before[k];
    assert forall k | q <= k < |s| :: s[k] == after[k - q];
    assert a == p && b == q;
    assert s[p..q] == middle;
  }

  /** All of a rendered message up to its last object, without what precedes the first one. */
  function Span(bs: seq<Block>): string
    requires bs != []
  {
    bs[0].obj + if |bs| == 1 then "" else bs[0].after + (FENCE + (Lead(bs[1]) + Span(bs[1..])))
  }

  /** What stands before a block's object. */
  function Lead(b: Block): string {
    b.prose + (FENCE + ((if b.tagged then "json" else "") + b.before))
  }

  function Trail(b: Block, tail: string): string {
    b.after + (FENCE + tail)
  }

  lemma RenderLead(b: Block, rest: string)
    ensures b.prose + Fenced(b, rest) == Lead(b) + (b.obj + (b.after + (FENCE + rest)))
  {
  }

  lemma {:induction false} RenderSpan(bs: seq<Block>, tail: string)
    requires bs != []
    ensures Render(bs, tail) == Lead(bs[0]) + Span(bs) + Trail(bs[|bs| - 1], tail)
  {
    hide Fenced, Lead;
    var b, rest := bs[0], Render(bs[1..], tail);
    RenderLead(b, rest);
    assert Render(bs, tail) == Lead(b) + (b.obj + (b.after + (FENCE + rest)));
    if |bs| == 1 {
      assert rest == tail;
    } else {
      RenderSpan(bs[1..], tail);
      assert bs[1..][|bs| - 2] == bs[|bs| - 1];
      assert FENCE + rest == (FENCE + (Lead(bs[1]) + Span(bs[1..]))) + Trail(bs[|bs| - 1], tail);
    }
  }

  lemma {:induction false} SpanEnds(bs: seq<Block>)
    requires bs != [] && ValidBlocks(bs)
    ensures Span(bs) != "" && Span(bs)[0] == '{' && Span(bs)[|Span(bs)| - 1] == '}'
  {
    hide ObjectText, NoFence, Lead;
    assert ValidBlock(bs[0]);
    LastChar(bs[0].obj);
    if |bs| > 1 { SpanEnds(bs[1..]); }
  }

  lemma LeadTrailPlain(b: Block, tail: string)
    requires ValidBlock(b) && Plain(tail)
    ensures Without(Lead(b), '{') && Without(Trail(b, tail), '}')
  {
    hide ObjectText, NoFence;
    assert forall k | 0 <= k < |b.before| :: b.before[k] != '{';
    assert forall k | 0 <= k < |b.after| :: b.after[k] != '}';
  }

  /** The text from the first `{` to the last `}` of a rendered message is its span. */
  lemma RenderBare(bs: seq<Block>, tail: string)
    requires bs != [] && ValidBlocks(bs) && Plain(tail)
    ensures BareObject(Render(bs, tail)) == Span(bs)
    ensures Candidates(Render(bs, tail)) == Objects(bs) + [Span(bs)]
  {
    hide Render, FindAll, BareObject, Span, Lead, Trail, ValidBlock;
    assert ValidBlock(bs[0]) && ValidBlock(bs[|bs| - 1]);
    FencedObjects(bs, tail);
    RenderSpan(bs, tail);
    SpanEnds(bs);
    LeadTrailPlain(bs[0], tail);
    LeadTrailPlain(bs[|bs| - 1], tail);
    BareBetween(Lead(bs[0]), Span(bs), Trail(bs[|bs| - 1], tail));
  }

  lemma {:induction false} SpanNotJson(bs: seq<Block>)
    requires |bs| >= 2 && ValidBlocks(bs)
    ensures Loads(Span(bs)) == None
  {
    hide Loads, NoFence;
    var b := bs[0];
    assert ValidBlock(b);
    var rest := b.after + (FENCE + (Lead(bs[1]) + Span(bs[1..])));
    assert rest[|b.after|] == '`';
    ExtraDataRejected(b.obj, rest);
  }

  /** With two or more fenced objects, the text from the first `{` to the last `}` is not JSON. */
  lemma SpanNeverParses(bs: seq<Block>, tail: string)
    requires |bs| >= 2 && ValidBlocks(bs) && Plain(tail)
    ensures Loads(BareObject(Render(bs, tail))) == None
  {
    hide Loads, Render, BareObject, Span, Candidates;
    RenderBare(bs, tail);
    SpanNotJson(bs);
  }

  lemma SelectLast<T>(validate: Validator<T>, cs: seq<string>, c: string)
    ensures Select(validate, cs + [c])
         == if Read(validate, c).Some? then Read(validate, c) else Select(validate, cs)
  {
    hide Read;
    assert (cs + [c])[..|cs|] == cs;
  }

  /** The bare candidate of a rendered message decides nothing that its objects do not. */
  lemma SpanAddsNothing<T>(bs: seq<Block>, tail: string, validate: Validator<T>)
    requires bs != [] && ValidBlocks(bs) && Plain(tail)
    ensures Select(validate, Candidates(Render(bs, tail))) == Select(validate, Objects(bs))
  {
    hide Render, Candidates, Span, ValidBlock, Read, Select, Objects;
    RenderBare(bs, tail);
    SelectLast(validate, Objects(bs), Span(bs));
    if |bs| == 1 {
      SingleSpan(bs);
      SelectLast(validate, [], bs[0].obj);
      assert [] + [bs[0].obj] == [bs[0].obj];
    } else {
      SpanUnread(bs, validate);
    }
  }

  /**
   Whatever the prose around them, a message with fenced objects yields the last object
   that validates, and degrades to its stripped text when none does.
   */
  lemma LastValidBlockWins<T>(bs: seq<Block>, tail: string, validate: Validator<T>)
    requires ValidBlocks(bs) && Plain(tail)
    ensures Parse(validate, Render(bs, tail)) == Outcome(Select(validate, Objects(bs)), Render(bs, tail))
  {
    hide Render, Candidates, Select, Outcome, ValidBlocks;
    if bs == [] {
      ProseOnly(tail);
    } else {
      SpanAddsNothing(bs, tail, validate);
    }
  }

  lemma ProseOnly(tail: string)
    requires Plain(tail)
    ensures Candidates(Render([], tail)) == Objects([])
  {
    hide FindAll, Objects;
    FencedObjects([], tail);
  }

  lemma SingleSpan(bs: seq<Block>)
    requires |bs| == 1
    ensures Span(bs) == bs[0].obj && Objects(bs) == [bs[0].obj]
  {
  }

  lemma {:induction false} SpanUnread<T>(bs: seq<Block>, validate: Validator<T>)
    requires |bs| >= 2 && ValidBlocks(bs)
    ensures Read(validate, Span(bs)) == None
  {
    hide Loads, Span;
    SpanNotJson(bs);
  }

  /**
   A single object with no `{` before it and no `}` after it is recovered exactly, even
   when its strings hold fences that break the fenced-block expression.
   */
  lemma SingleObjectRecovered<T>(before: string, obj: string, after: string, m: Dict, validate: Validator<T>)
    requires ObjectText(obj) && Loads(obj) == Some(Obj(m))
    requires Without(before, '{') && Without(after, '}')
    requires validate(m).Some?
    ensures Parse(validate, before + obj + after) == Structured(validate(m).value)
  {
    hide FindAll, BareObject, Loads, FirstIndex;
    LastChar(obj);
    var s := before + obj + after;
    BareBetween(before, obj, after);
    var cs := Candidates(s);
    assert cs[|cs| - 1] == obj;
    assert Read(validate, obj) == validate(m);
  }

  /** A message that is just a printed dict gives that dict to validation. */
  lemma PrintedObjectRecovered<T>(m: Dict, validate: Validator<T>)
    requires validate(m).Some?
    ensures Parse(validate, JsonPrinter.Canonical(Obj(m))) == Structured(validate(m).value)
  {
    hide Parse, Loads, ObjectText, JsonPrinter.Canonical;
    var text := JsonPrinter.Canonical(Obj(m));
    PrintedObject(m);
    assert "" + text + "" == text;
    SingleObjectRecovered("", text, "", m, validate);
  }

  lemma PrintedObject(m: Dict)
    ensures var text := JsonPrinter.Canonical(Obj(m)); ObjectText(text) && Loads(text) == Some(Obj(m))
  {
    hide Loads;
    var text := JsonPrinter.Canonical(Obj(m));
    JsonPrinter.LoadsCanonical(Obj(m));
    assert text[0] == '{' && text[|text| - 1] == '}';
  }
}
