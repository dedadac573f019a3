/** JavaScript text: a string is a sequence of 16-bit code units. */
module JsText {
  type CodeUnit = c: int | 0 <= c < 0x1_0000
  type Text = seq<CodeUnit>

  const NEWLINE: CodeUnit := 10
  const DOUBLE_QUOTE: CodeUnit := 34
  const DOLLAR: CodeUnit := 36
  const SINGLE_QUOTE: CodeUnit := 39
  const SLASH: CodeUnit := 47
  const UNDERSCORE: CodeUnit := 95
  const BACKTICK: CodeUnit := 96

  /** The code units of an ASCII literal. */
  function Ascii(s: string): (t: Text)
    ensures |t| == |s|
  {
    seq(|s|, i requires 0 <= i < |s| => if s[i] < 128 as char then s[i] as int else 0)
  }

  /** First index of `c` at or after `from`, or -1. */
  function IndexOf(s: Text, c: CodeUnit, from: nat): (i: int)
    ensures i < 0 ==> forall k :: from <= k < |s| ==> s[k] != c
    ensures i >= 0 ==> from <= i < |s| && s[i] == c && forall k :: from <= k < i ==> s[k] != c
    decreases |s| - from
  {
    if from >= |s| then -1 else if s[from] == c then from else IndexOf(s, c, from + 1)
  }
}

/** Syntax colouring of one code line into text nodes and token spans. */
module Highlight {
  import opened JsText

  datatype Token = Comment | Str | Number | Keyword
  datatype Node = TextNode(text: Text) | Span(token: Token, text: Text)

  const KEYWORDS: seq<Text> := [
    Ascii("function"), Ascii("return"), Ascii("var"), Ascii("let"), Ascii("const"), Ascii("if"), Ascii("else"),
    Ascii("for"), Ascii("while"), Ascii("new"), Ascii("class"), Ascii("import"), Ascii("export")
  ]

  predicate IsDigit(c: CodeUnit) {
    48 <= c <= 57
  }

  predicate IsQuote(c: CodeUnit) {
    c == DOUBLE_QUOTE || c == SINGLE_QUOTE
  }

  predicate IsIdent(c: CodeUnit) {
    97 <= c <= 122 || 65 <= c <= 90 || c == UNDERSCORE || c == DOLLAR || IsDigit(c)
  }

  /** The classes of code units, as characters. */
  lemma ClassesAre(c: char)
    requires c < 128 as char
    ensures IsDigit(c as int) <==> '0' <= c <= '9'
    ensures IsQuote(c as int) <==> c == '"' || c == '\''
    ensures IsIdent(c as int) <==> 'a' <= c <= 'z' || 'A' <= c <= 'Z' || '0' <= c <= '9' || c == '_' || c == '$'
    ensures c as int == SLASH <==> c == '/'
  {}

  predicate CommentAt(line: Text, i: nat) {
    i + 1 < |line| && line[i] == SLASH && line[i + 1] == SLASH
  }

  /** End of the maximal run of units satisfying `p` that starts at `i`. */
  function RunEnd(line: Text, i: nat, p: CodeUnit -> bool): (j: nat)
    requires i <= |line|
    ensures i <= j <= |line| && (forall k :: i <= k < j ==> p(line[k])) && (j < |line| ==> !p(line[j]))
    decreases |line| - i
  {
    if i < |line| && p(line[i]) then RunEnd(line, i + 1, p) else i
  }

  // ---------------------------------------------------------------- the lexer as a function

  /** What starts at `i`: a token, or a stretch of plain text, and where it ends. */
  datatype Piece = Tok(token: Token, end: nat) | Plain(end: nat)

  function PieceAt(line: Text, i: nat): (p: Piece)
    requires i < |line|
    ensures i < p.end <= |line|
  {
    var c := line[i];
    if CommentAt(line, i) then Tok(Comment, |line|)
    else if IsQuote(c) then
      var close := IndexOf(line, c, i + 1);
      Tok(Str, if close < 0 then |line| else close + 1)
    else if IsDigit(c) then Tok(Number, RunEnd(line, i, IsDigit))
    else if IsIdent(c) then
      var k := RunEnd(line, i, IsIdent);
      if line[i..k] in KEYWORDS then Tok(Keyword, k) else Plain(k)
    else Plain(i + 1)
  }

  function Flushed(plain: Text): seq<Node> {
    if plain == [] then [] else [TextNode(plain)]
  }

  /** Nodes for `plain` (collected, not yet emitted) followed by the line from `i` on. */
  function Lex(line: Text, i: nat, plain: Text): seq<Node>
    requires i <= |line|
    decreases |line| - i
  {
    if i == |line| then Flushed(plain) else
      var p := PieceAt(line, i);
      if p.Plain? then Lex(line, p.end, plain + line[i..p.end])
      else Flushed(plain) + [Span(p.token, line[i..p.end])] + Lex(line, p.end, [])
  }

  lemma LexEnd(line: Text)
    ensures forall plain :: Lex(line, |line|, plain) == Flushed(plain)
  {}

  /** One turn of the lexer, behind nodes `done` that are already out. */
  lemma LexStep(line: Text, i: nat, plain: Text, done: seq<Node>)
    requires i < |line|
    ensures var p := PieceAt(line, i);
      done + Lex(line, i, plain) ==
      (if p.Plain? then done + Lex(line, p.end, plain + line[i..p.end])
      else done + (Flushed(plain) + [Span(p.token, line[i..p.end])]) + Lex(line, p.end, []))
  {
    hide KEYWORDS;
  }

  function Nodes(line: Text): seq<Node> {
    Lex(line, 0, [])
  }

  // ---------------------------------------------------------------- the lexer as the page runs it

  method ScanRun(line: Text, i: nat, p: CodeUnit -> bool) returns (j: nat)
    requires i <= |line|
    ensures j == RunEnd(line, i, p)
  {
    j := i;
    while j < |line| && p(line[j])
      invariant i <= j <= |line| && RunEnd(line, j, p) == RunEnd(line, i, p)
    {
      j := j + 1;
    }
  }

  class Element {
    var children: seq<Node>

    constructor ()
      ensures children == []
    {
      children := [];
    }

    /** Emit the plain text collected so far, if there is any. */
    method Flush(plain: Text)
      modifies this
      ensures children == old(children) + Flushed(plain)
    {
      if |plain| > 0 {
        children := children + [TextNode(plain)];
      }
    }

    /** Emit the collected plain text, then one token. */
    method Emit(plain: Text, token: Token, text: Text)
      modifies this
      ensures children == old(children) + (Flushed(plain) + [Span(token, text)])
    {
      Flush(plain);
      children := children + [Span(token, text)];
    }

    method Highlight(line: Text)
      modifies this
      ensures children == old(children) + Nodes(line)
    {
      hide Lex, KEYWORDS;
      LexEnd(line);
      var i := 0;
      var plain: Text := [];
      while i < |line|
        invariant i <= |line|
        invariant children + Lex(line, i, plain) == old(children) + Nodes(line)
      {
        LexStep(line, i, plain, children);
        var code := line[i];
        if code == SLASH && i + 1 < |line| && line[i + 1] == SLASH {
          Emit(plain, Comment, line[i..]);
          assert line[i..] == line[i..|line|];
          return;
        }
        if code == DOUBLE_QUOTE || code == SINGLE_QUOTE {
          var end := IndexOf(line, code, i + 1);
          if end < 0 {
            end := |line| - 1;
          }
          Emit(plain, Str, line[i..end + 1]);
          i, plain := end + 1, [];
          continue;
        }
        if 48 <= code <= 57 {
          var j := ScanRun(line, i, IsDigit);
          Emit(plain, Number, line[i..j]);
          i, plain := j, [];
          continue;
        }
        if IsIdent(code) {
          var k := ScanRun(line, i, IsIdent);
          var word := line[i..k];
          if word in KEYWORDS {
            Emit(plain, Keyword, word);
            plain := [];
          } else {
            plain := plain + word;
          }
          i := k;
          continue;
        }
        assert [code] == line[i..i + 1];
        plain := plain + [code];
        i := i + 1;
      }
      Flush(plain);
    }
  }

  // ---------------------------------------------------------------- what the nodes are

  /** `textContent` of a node list. */
  function TextContent(nodes: seq<Node>): Text {
    if nodes == [] then [] else nodes[0].text + TextContent(nodes[1..])
  }

  lemma Associative(x: Text, y: Text, z: Text)
    ensures x + y + z == x + (y + z)
  {}

  lemma {:induction false} TextContentConcat(a: seq<Node>, b: seq<Node>)
    ensures TextContent(a + b) == TextContent(a) + TextContent(b)
  {
    if a == [] {
      assert a + b == b;
    } else {
      TextContentConcat(a[1..], b);
      assert (a + b)[1..] == a[1..] + b;
      Associative(a[0].text, TextContent(a[1..]), TextContent(b));
    }
  }

  /** Colouring loses no character: the nodes spell the line. */
  lemma {:induction false} LexKeepsText(line: Text, i: nat, plain: Text)
    requires i <= |line|
    ensures TextContent(Lex(line, i, plain)) == plain + line[i..]
    decreases |line| - i
  {
    hide TextContent;
    if i < |line| {
      var p := PieceAt(line, i);
      var cut := line[i..p.end];
      assert plain + cut + line[p.end..] == plain + line[i..];
      if p.Plain? {
        LexKeepsText(line, p.end, plain + cut);
      } else {
        LexKeepsText(line, p.end, []);
        TextOfEmitted(plain, Span(p.token, cut), Lex(line, p.end, []));
      }
    } else {
      TextOfFlushed(plain);
    }
  }

  lemma TextOfFlushed(plain: Text)
    ensures TextContent(Flushed(plain)) == plain
  {}

  lemma TextOfEmitted(plain: Text, span: Node, rest: seq<Node>)
    ensures TextContent(Flushed(plain) + [span] + rest) == plain + span.text + TextContent(rest)
  {
    TextContentConcat(Flushed(plain) + [span], rest);
    TextContentConcat(Flushed(plain), [span]);
    assert TextContent([span]) == span.text;
  }

  lemma Lossless(line: Text)
    ensures TextContent(Nodes(line)) == line
  {
    LexKeepsText(line, 0, []);
  }

  /** `t[i..j]` is a whole word: a maximal identifier run. */
  predicate WordAt(t: Text, i: nat, j: nat) {
    i < j <= |t| && (forall k :: i <= k < j ==> IsIdent(t[k])) &&
    (i > 0 ==> !IsIdent(t[i - 1])) && (j < |t| ==> !IsIdent(t[j]))
  }

  /** Nothing is left in plain text that should have been coloured: no quote, no comment opener,
      no word that starts with a digit, no keyword. */
  ghost predicate PlainText(t: Text) {
    t != [] &&
    (forall k :: 0 <= k < |t| ==> !IsQuote(t[k])) &&
    (forall k: nat :: k + 1 < |t| ==> !CommentAt(t, k)) &&
    (forall k :: 0 <= k < |t| && IsDigit(t[k]) ==> k > 0 && IsIdent(t[k - 1])) &&
    (forall i: nat, j: nat :: WordAt(t, i, j) ==> t[i..j] !in KEYWORDS)
  }

  ghost predicate WellFormed(n: Node, last: bool) {
    match n
    case TextNode(t) => PlainText(t)
    case Span(Comment, t) => last && CommentAt(t, 0)
    case Span(Str, t) =>
      t != [] && IsQuote(t[0]) && (forall k :: 1 <= k < |t| - 1 ==> t[k] != t[0]) &&
      (last || (|t| >= 2 && t[|t| - 1] == t[0]))
    case Span(Number, t) => t != [] && forall k :: 0 <= k < |t| ==> IsDigit(t[k])
    case Span(Keyword, t) => t in KEYWORDS
  }

  /** Two neighbours: never two texts, and a number or keyword stops only where its run stops. */
  predicate Adjacent(m: Node, n: Node) {
    n.text != [] &&
    match m
    case TextNode(_) => n.Span?
    case Span(Number, _) => !IsDigit(n.text[0])
    case Span(Keyword, _) => !IsIdent(n.text[0])
    case _ => true
  }

  ghost predicate Normal(nodes: seq<Node>) {
    (forall k :: 0 <= k < |nodes| ==> WellFormed(nodes[k], k == |nodes| - 1)) &&
    (forall k :: 0 < k < |nodes| ==> Adjacent(nodes[k - 1], nodes[k]))
  }

  /** `line[a..b]` is a whole word of `line[from..to]`. */
  predicate WordIn(line: Text, from: nat, to: nat, a: nat, b: nat)
    requires from <= to <= |line|
  {
    from <= a < b <= to && (forall k :: a <= k < b ==> IsIdent(line[k])) &&
    (a > from ==> !IsIdent(line[a - 1])) && (b < to ==> !IsIdent(line[b]))
  }

  /** The text collected from `from` to `to` is fit to be a text node, and does not end within a token. */
  ghost predicate Collected(line: Text, from: nat, to: nat)
    requires from <= to <= |line|
  {
    (forall k :: from <= k < to ==> !IsQuote(line[k]) && !CommentAt(line, k)) &&
    (forall k :: from <= k < to && IsDigit(line[k]) ==> k > from && IsIdent(line[k - 1])) &&
    (forall a: nat, b: nat :: WordIn(line, from, to, a, b) ==> line[a..b] !in KEYWORDS) &&
    (from < to < |line| ==> !(IsIdent(line[to - 1]) && IsIdent(line[to])))
  }

  lemma CollectedIsPlain(line: Text, from: nat, to: nat)
    requires from < to <= |line| && Collected(line, from, to)
    ensures PlainText(line[from..to])
  {
    hide KEYWORDS;
    var t := line[from..to];
    forall k: nat | k + 1 < |t| ensures !CommentAt(t, k) {
      assert !CommentAt(line, from + k);
    }
    forall a: nat, b: nat | WordAt(t, a, b) ensures t[a..b] !in KEYWORDS {
      assert forall k :: from + a <= k < from + b ==> line[k] == t[k - from];
      assert WordIn(line, from, to, from + a, from + b);
      assert t[a..b] == line[from + a..from + b];
    }
  }

  lemma KeywordsAreWords(t: Text)
    requires t in KEYWORDS
    ensures t != []
  {}

  lemma CollectedGrows(line: Text, from: nat, i: nat)
    requires from <= i < |line| && Collected(line, from, i) && PieceAt(line, i).Plain?
    ensures Collected(line, from, PieceAt(line, i).end)
  {
    hide KEYWORDS;
    var end := PieceAt(line, i).end;
    forall a: nat, b: nat | WordIn(line, from, end, a, b) ensures line[a..b] !in KEYWORDS {
      if IsIdent(line[i]) && b > i {
        WordEndsWith(line, from, i, end, a, b);
      } else {
        assert b <= i;
        assert WordIn(line, from, i, a, b);
      }
    }
  }

  lemma WordEndsWith(line: Text, from: nat, i: nat, end: nat, a: nat, b: nat)
    requires from <= i < b <= end <= |line| && WordIn(line, from, end, a, b)
    requires forall k :: i <= k < end ==> IsIdent(line[k])
    requires from < i ==> !IsIdent(line[i - 1])
    ensures a == i && b == end
  {}

  lemma {:induction false} LexIsNormal(line: Text, from: nat, i: nat)
    requires from <= i <= |line| && Collected(line, from, i)
    ensures Normal(Lex(line, i, line[from..i]))
    decreases |line| - i
  {
    hide *;
    var plain := line[from..i];
    if plain != [] { CollectedIsPlain(line, from, i); }
    if i == |line| {
      LexEnd(line);
      NormalEnd(plain);
    } else {
      var p := PieceAt(line, i);
      var cut := line[i..p.end];
      LexStep(line, i, plain, []);
      assert [] + Lex(line, i, plain) == Lex(line, i, plain);
      if p.Plain? {
        CollectedGrows(line, from, i);
        LexIsNormal(line, from, p.end);
        assert plain + cut == line[from..p.end];
        assert [] + Lex(line, p.end, plain + cut) == Lex(line, p.end, plain + cut);
      } else {
        var span, rest := Span(p.token, cut), Lex(line, p.end, []);
        NothingCollected(line, p.end);
        LexIsNormal(line, p.end, p.end);
        assert line[p.end..p.end] == [];
        LexKeepsText(line, p.end, []);
        SpanIsWellFormed(line, i);
        NormalCons(span, rest, line[p.end..]);
        NormalFlush(plain, [span] + rest);
        FlushedThen(plain, span, rest);
      }
    }
  }

  lemma FlushedThen(plain: Text, span: Node, rest: seq<Node>)
    ensures [] + (Flushed(plain) + [span]) + rest == Flushed(plain) + ([span] + rest)
  {}

  lemma NothingCollected(line: Text, i: nat)
    requires i <= |line|
    ensures Collected(line, i, i)
  {}

  lemma NormalCons(span: Node, rest: seq<Node>, text: Text)
    requires Normal(rest) && TextContent(rest) == text && span.Span? && WellFormed(span, text == [])
    requires text != [] && span.token.Number? ==> !IsDigit(text[0])
    requires text != [] && span.token.Keyword? ==> !IsIdent(text[0])
    ensures Normal([span] + rest)
  {
    var nodes := [span] + rest;
    if rest != [] {
      assert WellFormed(rest[0], |rest| == 1);
      if rest[0].Span? && rest[0].token.Keyword? { KeywordsAreWords(rest[0].text); }
      FirstUnit(rest);
      assert Adjacent(span, rest[0]);
    }
    forall k | 0 <= k < |nodes| ensures WellFormed(nodes[k], k == |nodes| - 1) {
      if k > 0 { assert WellFormed(rest[k - 1], k - 1 == |rest| - 1); }
    }
    forall k | 0 < k < |nodes| ensures Adjacent(nodes[k - 1], nodes[k]) {
      if k > 1 { assert Adjacent(rest[k - 2], rest[k - 1]); }
    }
  }

  lemma NormalEnd(plain: Text)
    requires plain != [] ==> PlainText(plain)
    ensures Normal(Flushed(plain))
  {}

  lemma NormalFlush(plain: Text, nodes: seq<Node>)
    requires plain != [] ==> PlainText(plain)
    requires Normal(nodes) && nodes != [] && nodes[0].Span? && nodes[0].text != []
    ensures Normal(Flushed(plain) + nodes)
  {
    if plain == [] {
      assert Flushed(plain) + nodes == nodes;
    } else {
      var all := [TextNode(plain)] + nodes;
      forall k | 0 <= k < |all| ensures WellFormed(all[k], k == |all| - 1) {
        if k > 0 { assert WellFormed(nodes[k - 1], k - 1 == |nodes| - 1); }
      }
      forall k | 0 < k < |all| ensures Adjacent(all[k - 1], all[k]) {
        if k > 1 { assert Adjacent(nodes[k - 2], nodes[k - 1]); }
      }
    }
  }

  lemma SpanIsWellFormed(line: Text, i: nat)
    requires i < |line| && PieceAt(line, i).Tok?
    ensures var p := PieceAt(line, i);
      WellFormed(Span(p.token, line[i..p.end]), p.end == |line|) && line[i..p.end] != [] &&
      (p.end < |line| ==> (p.token.Number? ==> !IsDigit(line[p.end])) && (p.token.Keyword? ==> !IsIdent(line[p.end])))
  {}

  lemma FirstUnit(nodes: seq<Node>)
    requires nodes != [] && nodes[0].text != []
    ensures TextContent(nodes) != [] && TextContent(nodes)[0] == nodes[0].text[0]
  {}

  /** Every node is well formed, no text node is empty, and no two text nodes are adjacent. */
  lemma NodesAreNormal(line: Text)
    ensures Normal(Nodes(line))
  {
    NothingCollected(line, 0);
    LexIsNormal(line, 0, 0);
    assert line[0..0] == [];
  }
}
