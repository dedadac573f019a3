/** Streaming a markdown reply into the page, token by token.

    A reply child is a block: a highlighted code line, a rendered markdown line, or the open
    paragraph of the append strategy. What a block shows is a function of its kind and its text. */
module MdStream {
  import opened Common
  import opened JsText
  import opened Dom

  datatype Kind = CodeLine | Markdown | Paragraph
  datatype Shown = Shown(kind: Kind, text: Text)

  // ---------------------------------------------------------------- what a source should show

  /** Lines ended by a newline, and the text after the last newline. */
  function Finished(s: Text): seq<Text> {
    if s == [] then [] else
      var n := |s| - 1;
      if s[n] == NEWLINE then Finished(s[..n]) + [Open(s[..n])] else Finished(s[..n])
  }

  function Open(s: Text): Text {
    if s == [] then [] else
      var n := |s| - 1;
      if s[n] == NEWLINE then [] else Open(s[..n]) + [s[n]]
  }

  predicate IsFence(line: Text) {
    |line| >= 3 && line[..3] == [BACKTICK, BACKTICK, BACKTICK]
  }

  /** Fence state after `lines`: every fence line flips it. */
  function InCode(lines: seq<Text>): bool {
    if lines == [] then false else
      var n := |lines| - 1;
      if IsFence(lines[n]) then !InCode(lines[..n]) else InCode(lines[..n])
  }

  /** One block per finished line, under the fence state that includes the line itself. */
  function Blocks(lines: seq<Text>): (r: seq<Shown>)
    ensures |r| == |lines|
  {
    if lines == [] then [] else
      var n := |lines| - 1;
      Blocks(lines[..n]) +
      [Shown(if InCode(lines) && !IsFence(lines[n]) then CodeLine else Markdown, lines[n])]
  }

  function AppendReply(s: Text): seq<Shown> {
    Blocks(Finished(s)) + if Open(s) == [] then [] else [Shown(Paragraph, Open(s))]
  }

  function Concat(tokens: seq<Text>): Text {
    if tokens == [] then [] else Concat(tokens[..|tokens| - 1]) + tokens[|tokens| - 1]
  }

  lemma UnitExtends(s: Text, c: CodeUnit)
    ensures Finished(s + [c]) == if c == NEWLINE then Finished(s) + [Open(s)] else Finished(s)
    ensures Open(s + [c]) == if c == NEWLINE then [] else Open(s) + [c]
  {
    assert (s + [c])[..|s|] == s;
  }

  lemma {:induction false} PlainExtends(s: Text, t: Text)
    requires NEWLINE !in t
    ensures Finished(s + t) == Finished(s) && Open(s + t) == Open(s) + t
  {
    hide Open, Finished;
    if t == [] {
      assert s + t == s;
    } else {
      var n := |t| - 1;
      PlainExtends(s, t[..n]);
      UnitExtends(s + t[..n], t[n]);
      assert s + t[..n] + [t[n]] == s + t;
      assert Open(s) + t[..n] + [t[n]] == Open(s) + t;
    }
  }

  lemma {:induction false} OpenIsSuffix(s: Text)
    ensures |Open(s)| <= |s| && s[|s| - |Open(s)|..] == Open(s)
  {
    if s != [] && s[|s| - 1] != NEWLINE {
      var n := |s| - 1;
      OpenIsSuffix(s[..n]);
      assert s[|s| - |Open(s)|..n] == s[..n][n - |Open(s[..n])|..];
    }
  }

  // ---------------------------------------------------------------- String.prototype.split

  function Split(t: Text): (r: seq<Text>)
    ensures r != [] && forall i :: 0 <= i < |r| ==> NEWLINE !in r[i]
  {
    if t == [] then [[]] else
      var n := |t| - 1;
      var r := Split(t[..n]);
      if t[n] == NEWLINE then r + [[]] else r[..|r| - 1] + [r[|r| - 1] + [t[n]]]
  }

  /** The finished lines and the open text are what splitting at newlines gives. */
  lemma {:induction false} SplitIsLines(s: Text)
    ensures Split(s) == Finished(s) + [Open(s)]
  {
    if s != [] {
      SplitIsLines(s[..|s| - 1]);
    }
  }

  function Join(parts: seq<Text>): Text
    requires parts != []
  {
    var n := |parts| - 1;
    if n == 0 then parts[0] else Join(parts[..n]) + [NEWLINE] + parts[n]
  }

  lemma {:induction false} JoinOfSplit(t: Text)
    ensures Join(Split(t)) == t
  {
    if t != [] {
      var n := |t| - 1;
      var r := Split(t[..n]);
      var m := |r| - 1;
      JoinOfSplit(t[..n]);
      if t[n] == NEWLINE {
        assert (r + [[]])[..m + 1] == r;
        assert t[..n] + [NEWLINE] + [] == t;
      } else {
        var r' := r[..m] + [r[m] + [t[n]]];
        assert r'[..m] == r[..m];
        assert m > 0 ==> Join(r[..m]) + [NEWLINE] + (r[m] + [t[n]]) == Join(r) + [t[n]];
        assert t[..n] + [t[n]] == t;
      }
    }
  }

  lemma JoinSnoc(parts: seq<Text>, p: nat)
    requires 0 < p < |parts|
    ensures Join(parts[..p + 1]) == Join(parts[..p]) + [NEWLINE] + parts[p]
  {
    assert parts[..p + 1][..p] == parts[..p];
  }

  lemma {:induction false} JoinPrefix(parts: seq<Text>, p: nat)
    requires 0 < p <= |parts|
    ensures Join(parts[..p]) <= Join(parts)
    decreases |parts| - p
  {
    hide Join;
    if p < |parts| {
      JoinSnoc(parts, p);
      JoinPrefix(parts, p + 1);
    } else {
      assert parts[..p] == parts;
    }
  }

  // ---------------------------------------------------------------- what a reply shows, line by line

  /** A fence is a line that begins with three backticks. */
  lemma FenceIs(line: Text)
    ensures IsFence(line) <==> Ascii("```") <= line
  {
    var ticks := Ascii("```");
    assert ticks == [96, 96, 96];
    if |line| >= 3 { assert line[..3] == [line[0], line[1], line[2]]; }
  }

  function Fences(lines: seq<Text>): nat {
    if lines == [] then 0 else Fences(lines[1..]) + if Ascii("```") <= lines[0] then 1 else 0
  }

  lemma {:induction false} FencesSnoc(lines: seq<Text>, line: Text)
    ensures Fences(lines + [line]) == Fences(lines) + if Ascii("```") <= line then 1 else 0
  {
    if lines == [] {
      assert [] + [line] == [line] && [line][1..] == [];
    } else {
      FencesSnoc(lines[1..], line);
      assert (lines + [line])[1..] == lines[1..] + [line];
    }
  }

  /** The text is code behind an odd number of fences. */
  lemma {:induction false} InCodeIsOdd(lines: seq<Text>)
    ensures InCode(lines) <==> Fences(lines) % 2 == 1
  {
    if lines != [] {
      var n := |lines| - 1;
      InCodeIsOdd(lines[..n]);
      FenceIs(lines[n]);
      FencesSnoc(lines[..n], lines[n]);
      assert lines == lines[..n] + [lines[n]];
    }
  }

  /** A finished line is a code line if it is no fence and an odd number of fences stands before it. */
  lemma {:induction false} BlockAt(lines: seq<Text>, k: nat)
    requires k < |lines|
    ensures Blocks(lines)[k] ==
      Shown(if !(Ascii("```") <= lines[k]) && Fences(lines[..k]) % 2 == 1 then CodeLine else Markdown, lines[k])
  {
    var n := |lines| - 1;
    if k < n {
      BlockAt(lines[..n], k);
      assert lines[..n][..k] == lines[..k];
    } else {
      FenceIs(lines[n]);
      InCodeIsOdd(lines[..n]);
    }
  }

  /** The reply to a source: its lines ended by a newline, each in its kind, and the rest as a paragraph. */
  lemma ReplyAt(s: Text, k: nat)
    requires k < |AppendReply(s)|
    ensures var parts := Split(s);
      |AppendReply(s)| == |parts| - (if parts[|parts| - 1] == [] then 1 else 0) &&
      AppendReply(s)[k] ==
        if k == |parts| - 1 then Shown(Paragraph, parts[k])
        else Shown(if !(Ascii("```") <= parts[k]) && Fences(parts[..k]) % 2 == 1 then CodeLine else Markdown, parts[k])
  {
    hide Blocks, Split, Finished, Open, Fences;
    SplitIsLines(s);
    var lines := Finished(s);
    if k < |lines| {
      BlockAt(lines, k);
      assert (lines + [Open(s)])[..k] == lines[..k];
    }
  }

  // ---------------------------------------------------------------- the page

  /** One element in the reply. A paragraph's text is the data of its text node. */
  class Block {
    var kind: Kind
    var text: Text

    constructor (kind: Kind, text: Text)
      ensures this.kind == kind && this.text == text
    {
      this.kind, this.text := kind, text;
    }
  }

  ghost predicate Shows(reply: seq<Block>, shown: seq<Shown>)
    reads reply
  {
    |reply| == |shown| &&
    forall i :: 0 <= i < |reply| ==> reply[i].kind == shown[i].kind && reply[i].text == shown[i].text
  }

  lemma BlocksSnoc(lines: seq<Text>, line: Text)
    ensures InCode(lines + [line]) == if IsFence(line) then !InCode(lines) else InCode(lines)
    ensures Blocks(lines + [line]) == Blocks(lines) +
      [Shown(if InCode(lines + [line]) && !IsFence(line) then CodeLine else Markdown, line)]
  {
    assert (lines + [line])[..|lines|] == lines;
  }

  lemma ShowsSnoc(reply: seq<Block>, shown: seq<Shown>, b: Block)
    requires Shows(reply, shown)
    ensures Shows(reply + [b], shown + [Shown(b.kind, b.text)])
  {}

  /** The reply under either strategy. */
  class Page {
    var source: Text
    var blockStart: nat
    var tailBlock: Block?
    var inCode: bool
    var reply: seq<Block>
    /** The part of the source the page is up to date with, and the blocks of its finished lines. */
    ghost var seen: Text
    ghost var lines: seq<Block>

    constructor ()
      ensures AppendValid() && RerenderValid([]) && source == seen == [] && reply == []
    {
      source, blockStart, tailBlock, inCode, reply := [], 0, null, false, [];
      seen, lines := [], [];
    }

    /** The line blocks show `done`, and the fence state is the one after it. */
    ghost predicate LinesShow(done: seq<Text>)
      reads this, reply, lines, tailBlock
    {
      Layout() && Shows(lines, Blocks(done)) && inCode == InCode(done)
    }

    ghost predicate AppendValid()
      reads this, reply, lines, tailBlock
    {
      blockStart + |Open(seen)| == |seen| && LinesShow(Finished(seen)) &&
      (tailBlock == null <==> Open(seen) == []) &&
      (tailBlock != null ==> tailBlock.kind == Paragraph && tailBlock.text == Open(seen))
    }

    /** The reply is the line blocks, then the open paragraph if there is one. */
    ghost predicate Layout()
      reads this
    {
      Distinct(reply) &&
      if tailBlock == null then reply == lines
      else |reply| == |lines| + 1 && reply[..|lines|] == lines && reply[|lines|] == tailBlock
    }

    ghost predicate RerenderValid(tokens: seq<Text>)
      reads this, reply, lines, tailBlock
    {
      source == Concat(tokens) && blockStart + |Open(source)| == |source| && LinesShow(Frozen(tokens)) &&
      (tailBlock == null <==> tokens == []) &&
      (tailBlock != null ==> tailBlock.kind == (if inCode then CodeLine else Markdown) && tailBlock.text == Open(source))
    }

    lemma AppendShows()
      requires AppendValid()
      ensures Shows(reply, AppendReply(seen))
    {}

    lemma RerenderShows(tokens: seq<Text>)
      requires RerenderValid(tokens)
      ensures Shows(reply, if tokens == [] then [] else RerenderReply(Frozen(tokens), Open(Concat(tokens))))
    {}

    method RemoveTail()
      requires Layout()
      modifies this`reply, this`tailBlock
      ensures reply == lines && tailBlock == null && Distinct(lines)
    {
      if tailBlock != null {
        var last: Block := tailBlock;
        RemoveAt(reply, |lines|);
        assert reply[..|lines|] + reply[|lines| + 1..] == lines;
        reply := Remove(reply, last);
      }
      tailBlock := null;
    }

    method PushBlock(b: Block)
      requires Distinct(reply) && b !in reply
      modifies this`reply
      ensures Distinct(reply) && reply == old(reply) + [b]
    {
      reply := AppendChild(reply, b);
    }

    /** Take the open block away and put the rendered line in its place. */
    method CloseLine(line: Text, ghost done: seq<Text>)
      requires LinesShow(done)
      modifies this`inCode, this`reply, this`tailBlock, this`lines
      ensures LinesShow(done + [line]) && tailBlock == null
      ensures forall i :: 0 <= i < |reply| ==> reply[i] in old(reply) || fresh(reply[i])
    {
      hide InCode, Blocks, IsFence, Shows;
      BlocksSnoc(done, line);
      if IsFence(line) {
        inCode := !inCode;
      }
      RemoveTail();
      var holder := new Block(if inCode && !IsFence(line) then CodeLine else Markdown, line);
      PushBlock(holder);
      ShowsSnoc(lines, Blocks(done), holder);
      lines := reply;
    }

    // -------------------------------------------------------------- append strategy

    /** The newline at `off` closes the open line. */
    method FinishLine(off: nat)
      requires AppendValid() && off == |seen| && seen + [NEWLINE] <= source
      modifies this
      ensures AppendValid() && seen == old(seen) + [NEWLINE] && source == old(source)
      ensures forall i :: 0 <= i < |reply| ==> reply[i] in old(reply) || fresh(reply[i])
    {
      hide Open, Finished, InCode, Blocks, Shows;
      OpenIsSuffix(seen);
      UnitExtends(seen, NEWLINE);
      var finished := source[blockStart..off];
      assert finished == Open(seen);
      CloseLine(finished, Finished(seen));
      blockStart := off + 1;
      seen := seen + [NEWLINE];
    }

    /** Text without a newline goes to the open paragraph. */
    method AddPiece(piece: Text)
      requires AppendValid() && NEWLINE !in piece
      modifies this, reply
      ensures AppendValid() && seen == old(seen) + piece && source == old(source)
      ensures forall i :: 0 <= i < |reply| ==> reply[i] in old(reply) || fresh(reply[i])
    {
      hide Open, Finished, InCode, Blocks;
      PlainExtends(seen, piece);
      if |piece| > 0 {
        if tailBlock == null {
          tailBlock := new Block(Paragraph, []);
          PushBlock(tailBlock);
        }
        assert tailBlock !in lines;
        tailBlock.text := tailBlock.text + piece;
      }
      seen := seen + piece;
    }

    method FeedAppending(token: Text)
      requires AppendValid() && seen == source
      modifies this, reply
      ensures AppendValid() && seen == source == old(source) + token
      ensures forall i :: 0 <= i < |reply| ==> reply[i] in old(reply) || fresh(reply[i])
    {
      hide Open, Finished, InCode, Blocks, Split, Join, Distinct, Shows;
      ghost var before := source;
      source := source + token;
      var parts := Split(token);
      JoinOfSplit(token);
      var off := |source| - |token|;
      for p := 0 to |parts|
        invariant source == before + token && off == |seen|
        invariant seen == if p == 0 then before else before + Join(parts[..p])
        invariant AppendValid()
        invariant forall i :: 0 <= i < |reply| ==> reply[i] in old(reply) || fresh(reply[i])
      {
        PartsSoFar(before, parts, p);
        if p > 0 {
          FinishLine(off);
          off := off + 1;
        }
        var piece := parts[p];
        AddPiece(piece);
        off := off + |piece|;
      }
      assert parts[..|parts|] == parts;
    }

    // -------------------------------------------------------------- rerender strategy

    /** Replace the open block by the open text rendered again. */
    method RenderOpen(open: Text)
      requires Layout()
      modifies this`reply, this`tailBlock
      ensures Layout() && tailBlock != null && fresh(tailBlock)
      ensures tailBlock.kind == (if inCode then CodeLine else Markdown) && tailBlock.text == open
      ensures forall i :: 0 <= i < |reply| ==> reply[i] in old(reply) || fresh(reply[i])
    {
      RemoveTail();
      tailBlock := new Block(if inCode then CodeLine else Markdown, open);
      PushBlock(tailBlock);
    }

    method FeedRerendering(token: Text, ghost tokens: seq<Text>)
      requires RerenderValid(tokens)
      modifies this
      ensures RerenderValid(tokens + [token])
      ensures forall i :: 0 <= i < |reply| ==> reply[i] in old(reply) || fresh(reply[i])
    {
      hide Open, Frozen, InCode, Blocks, Concat, Shows, LastIndexOf, Distinct;
      TokenStep(tokens, token);
      LastNewline(source, token);
      source := source + token;
      var nl := LastIndexOf(source, NEWLINE);
      var start := if nl < 0 then 0 else nl + 1;
      if start != blockStart {
        CloseLine(source[blockStart..start - 1], Frozen(tokens));
        blockStart := start;
      }
      RenderOpen(source[blockStart..]);
    }
  }

  /** Where the source stands before and after part `p` of a token split at its newlines. */
  lemma PartsSoFar(before: Text, parts: seq<Text>, p: nat)
    requires p < |parts|
    ensures p == 0 ==> before + Join(parts[..p + 1]) == before + parts[0]
    ensures p > 0 ==> before + Join(parts[..p]) + [NEWLINE] <= before + Join(parts)
    ensures p > 0 ==> before + Join(parts[..p]) + [NEWLINE] + parts[p] == before + Join(parts[..p + 1])
  {
    if p > 0 {
      JoinSnoc(parts, p);
      JoinPrefix(parts, p + 1);
      Between(before, Join(parts[..p]), parts[p], Join(parts));
    }
  }

  lemma Between(before: Text, a: Text, piece: Text, all: Text)
    requires a + [NEWLINE] + piece <= all
    ensures before + a + [NEWLINE] <= before + all
    ensures before + a + [NEWLINE] + piece == before + (a + [NEWLINE] + piece)
  {}

  /** However the source is cut into tokens, the reply shows what the whole source should show. */
  method StreamAppending(tokens: seq<Text>) returns (reply: seq<Block>)
    ensures Shows(reply, AppendReply(Concat(tokens)))
  {
    hide Open, Finished, Blocks, InCode, Shows, Distinct;
    var page := new Page();
    for t := 0 to |tokens|
      invariant fresh(page) && (forall i :: 0 <= i < |page.reply| ==> fresh(page.reply[i]))
      invariant page.source == page.seen == Concat(tokens[..t]) && page.AppendValid()
    {
      page.FeedAppending(tokens[t]);
      assert tokens[..t + 1][..t] == tokens[..t];
    }
    assert tokens[..|tokens|] == tokens;
    page.AppendShows();
    reply := page.reply;
  }

  // ---------------------------------------------------------------- rerender strategy

  function LastIndexOf(s: Text, c: CodeUnit): (i: int)
    ensures -1 <= i < |s| && (i >= 0 ==> s[i] == c) && forall k :: i < k < |s| ==> s[k] != c
  {
    if s == [] then -1 else if s[|s| - 1] == c then |s| - 1 else LastIndexOf(s[..|s| - 1], c)
  }

  function Newlines(s: Text): nat {
    if s == [] then 0 else Newlines(s[..|s| - 1]) + if s[|s| - 1] == NEWLINE then 1 else 0
  }

  /** The blocks of the lines, and the open text in the kind that the fences before it give. */
  lemma RerenderedAt(lines: seq<Text>, open: Text, k: nat)
    requires k <= |lines|
    ensures |RerenderReply(lines, open)| == |lines| + 1
    ensures RerenderReply(lines, open)[k] ==
      if k == |lines| then Shown(if Fences(lines) % 2 == 1 then CodeLine else Markdown, open)
      else Shown(if !(Ascii("```") <= lines[k]) && Fences(lines[..k]) % 2 == 1 then CodeLine else Markdown, lines[k])
  {
    hide Blocks, Fences;
    InCodeIsOdd(lines);
    if k < |lines| { BlockAt(lines, k); }
  }

  /** What the strategy freezes: at each token with a newline, everything since the last freeze
      up to the token's last newline, as one line. */
  function Frozen(tokens: seq<Text>): seq<Text> {
    if tokens == [] then [] else
      var n := |tokens| - 1;
      var nl := LastIndexOf(tokens[n], NEWLINE);
      if nl < 0 then Frozen(tokens[..n])
      else Frozen(tokens[..n]) + [Open(Concat(tokens[..n])) + tokens[n][..nl]]
  }

  /** The open text is rendered again with every token, so it shows even when it is empty. */
  function RerenderReply(lines: seq<Text>, open: Text): seq<Shown> {
    Blocks(lines) + [Shown(if InCode(lines) then CodeLine else Markdown, open)]
  }

  lemma AroundUnit(s: Text, t: Text, i: nat)
    requires i < |t|
    ensures s + t[..i] + [t[i]] + t[i + 1..] == s + t
  {}

  lemma CutAtNewline(s: Text, t: Text, nl: int)
    requires nl == LastIndexOf(t, NEWLINE)
    ensures nl < 0 ==> Open(s + t) == Open(s) + t
    ensures nl >= 0 ==> Open(s + t) == t[nl + 1..]
    ensures nl >= 0 && NEWLINE !in t[..nl] ==> Finished(s + t) == Finished(s) + [Open(s) + t[..nl]]
  {
    hide Open, Finished;
    if nl < 0 {
      PlainExtends(s, t);
    } else {
      var a, b := t[..nl], t[nl + 1..];
      UnitExtends(s + a, NEWLINE);
      PlainExtends(s + a + [NEWLINE], b);
      AroundUnit(s, t, nl);
      assert [] + b == b;
      if NEWLINE !in a { PlainExtends(s, a); }
    }
  }

  lemma {:induction false} NewlinesConcat(s: Text, t: Text)
    ensures Newlines(s + t) == Newlines(s) + Newlines(t)
  {
    if t == [] {
      assert s + t == s;
    } else {
      NewlinesConcat(s, t[..|t| - 1]);
      assert (s + t)[..|s + t| - 1] == s + t[..|t| - 1];
    }
  }

  lemma {:induction false} OneFinishedPerNewline(s: Text)
    ensures |Finished(s)| == Newlines(s)
    ensures Newlines(s) == 0 <==> NEWLINE !in s
  {
    if s != [] {
      OneFinishedPerNewline(s[..|s| - 1]);
      assert s == s[..|s| - 1] + [s[|s| - 1]];
    }
  }

  lemma NewlinesAround(t: Text)
    ensures var nl := LastIndexOf(t, NEWLINE);
      if nl < 0 then Newlines(t) == 0
      else Newlines(t) == Newlines(t[..nl]) + 1 && (NEWLINE !in t[..nl] <==> Newlines(t) <= 1)
  {
    var nl := LastIndexOf(t, NEWLINE);
    if nl < 0 {
      OneFinishedPerNewline(t);
    } else {
      OneFinishedPerNewline(t[nl + 1..]);
      OneFinishedPerNewline(t[..nl]);
      NewlinesConcat(t[..nl] + [NEWLINE], t[nl + 1..]);
      assert t[..nl] + [NEWLINE] + t[nl + 1..] == t && (t[..nl] + [NEWLINE])[..nl] == t[..nl];
    }
  }

  ghost predicate SingleNewlines(tokens: seq<Text>) {
    forall i :: 0 <= i < |tokens| ==> Newlines(tokens[i]) <= 1
  }

  lemma {:induction false} FrozenCount(tokens: seq<Text>)
    ensures |Frozen(tokens)| <= Newlines(Concat(tokens))
    ensures |Frozen(tokens)| == Newlines(Concat(tokens)) ==> SingleNewlines(tokens)
  {
    if tokens != [] {
      var n := |tokens| - 1;
      FrozenCount(tokens[..n]);
      NewlinesConcat(Concat(tokens[..n]), tokens[n]);
      NewlinesAround(tokens[n]);
      assert SingleNewlines(tokens[..n]) && Newlines(tokens[n]) <= 1 ==> SingleNewlines(tokens);
    }
  }

  lemma {:induction false} FrozenAreFinished(tokens: seq<Text>)
    requires SingleNewlines(tokens)
    ensures Frozen(tokens) == Finished(Concat(tokens))
  {
    hide Open, Finished, Newlines;
    if tokens == [] {
      OneFinishedPerNewline([]);
      assert Newlines([]) == 0 by { NewlinesAround([]); }
    } else {
      var n := |tokens| - 1;
      FrozenAreFinished(tokens[..n]);
      NewlinesAround(tokens[n]);
      var nl := LastIndexOf(tokens[n], NEWLINE);
      CutAtNewline(Concat(tokens[..n]), tokens[n], nl);
      if nl < 0 { PlainExtends(Concat(tokens[..n]), tokens[n]); }
    }
  }

  /** How many tokens hold a newline. */
  function Breaks(tokens: seq<Text>): nat {
    if tokens == [] then 0 else Breaks(tokens[..|tokens| - 1]) + if NEWLINE in tokens[|tokens| - 1] then 1 else 0
  }

  lemma JoinOneMore(parts: seq<Text>, last: Text)
    requires parts != []
    ensures Join(parts + [last]) == Join(parts) + [NEWLINE] + last
  {
    assert (parts + [last])[..|parts|] == parts;
  }

  lemma {:induction false} JoinLast(parts: seq<Text>, last: Text, more: Text)
    ensures Join(parts + [last + more]) == Join(parts + [last]) + more
  {
    if parts == [] {
      assert [] + [last + more] == [last + more] && [] + [last] == [last];
    } else {
      JoinOneMore(parts, last + more);
      JoinOneMore(parts, last);
      assert Join(parts) + [NEWLINE] + (last + more) == Join(parts) + [NEWLINE] + last + more;
    }
  }

  /** In any stream the frozen lines and the open text make up the source, and each token with a newline
      freezes one line: all that came since the last freeze, up to its last newline. */
  lemma {:induction false} FrozenIsSource(tokens: seq<Text>)
    ensures Join(Frozen(tokens) + [Open(Concat(tokens))]) == Concat(tokens)
    ensures |Frozen(tokens)| == Breaks(tokens) && NEWLINE !in Open(Concat(tokens))
  {
    if tokens == [] {
      assert Frozen(tokens) + [Open(Concat(tokens))] == [[]];
    } else {
      hide Open, Join, LastIndexOf;
      var n := |tokens| - 1;
      var before, token := Concat(tokens[..n]), tokens[n];
      FrozenIsSource(tokens[..n]);
      var nl, lines, open := LastIndexOf(token, NEWLINE), Frozen(tokens[..n]), Open(before);
      CutAtNewline(before, token, nl);
      OpenIsAfter(before + token);
      if nl < 0 {
        assert NEWLINE !in token;
        JoinLast(lines, open, token);
      } else {
        assert token[nl] == NEWLINE;
        JoinLast(lines, open, token[..nl]);
        JoinOneMore(lines + [open + token[..nl]], token[nl + 1..]);
        AroundUnit(before, token, nl);
      }
    }
  }

  lemma OpenIsAfter(s: Text)
    ensures NEWLINE !in Open(s)
  {
    OpenIsSuffix(s);
    OpenHasNoNewline(s);
    forall k | 0 <= k < |Open(s)| ensures Open(s)[k] != NEWLINE {
      assert Open(s)[k] == s[|s| - |Open(s)|..][k] == s[|s| - |Open(s)| + k];
    }
  }

  /** Both strategies freeze the same lines exactly when no token holds two newlines. */
  lemma RerenderAgreesIff(tokens: seq<Text>)
    ensures Frozen(tokens) == Finished(Concat(tokens)) <==> SingleNewlines(tokens)
  {
    if SingleNewlines(tokens) {
      FrozenAreFinished(tokens);
    } else {
      FrozenCount(tokens);
      OneFinishedPerNewline(Concat(tokens));
    }
  }

  /** Freeze what a token finished, then render the open text again. */
  method StreamRerendering(tokens: seq<Text>) returns (reply: seq<Block>)
    ensures Shows(reply, if tokens == [] then [] else RerenderReply(Frozen(tokens), Open(Concat(tokens))))
  {
    hide Open, Concat, Frozen, Blocks, InCode, Shows, Distinct;
    var page := new Page();
    for t := 0 to |tokens|
      invariant fresh(page) && page.RerenderValid(tokens[..t])
    {
      page.FeedRerendering(tokens[t], tokens[..t]);
      assert tokens[..t] + [tokens[t]] == tokens[..t + 1];
    }
    assert tokens[..|tokens|] == tokens;
    page.RerenderShows(tokens);
    reply := page.reply;
  }

  lemma TokenStep(tokens: seq<Text>, token: Text)
    ensures Concat(tokens + [token]) == Concat(tokens) + token
    ensures var nl := LastIndexOf(token, NEWLINE);
      Frozen(tokens + [token]) ==
      if nl < 0 then Frozen(tokens) else Frozen(tokens) + [Open(Concat(tokens)) + token[..nl]]
  {
    assert (tokens + [token])[..|tokens|] == tokens;
  }

  function OpenAt(s: Text): (i: nat)
    ensures i <= |s| && i == |s| - |Open(s)|
  {
    OpenHasNoNewline(s);
    |s| - |Open(s)|
  }

  lemma NoNewline(before: Text, token: Text)
    requires LastIndexOf(token, NEWLINE) < 0
    ensures OpenAt(before + token) == OpenAt(before)
  {
    hide Open, LastIndexOf;
    CutAtNewline(before, token, LastIndexOf(token, NEWLINE));
  }

  lemma SomeNewline(before: Text, token: Text)
    requires LastIndexOf(token, NEWLINE) >= 0
    ensures var tl := LastIndexOf(token, NEWLINE);
      OpenAt(before + token) == |before| + tl + 1 &&
      (before + token)[OpenAt(before)..|before| + tl] == Open(before) + token[..tl]
  {
    hide Open, LastIndexOf;
    var tl := LastIndexOf(token, NEWLINE);
    CutAtNewline(before, token, tl);
    OpenIsSuffix(before);
    MiddleSlice(before, token, OpenAt(before), tl);
  }

  /** The last newline of the source is the token's, or the one that ended the last finished line. */
  lemma LastNewline(before: Text, token: Text)
    ensures var source := before + token;
      var nl, tl := LastIndexOf(source, NEWLINE), LastIndexOf(token, NEWLINE);
      var start := if nl < 0 then 0 else nl + 1;
      start == OpenAt(source) && source[start..] == Open(source) &&
      (start == OpenAt(before) <==> tl < 0) &&
      (tl >= 0 ==> start - 1 >= OpenAt(before) && source[OpenAt(before)..start - 1] == Open(before) + token[..tl])
  {
    hide Open, LastIndexOf, OpenAt;
    OpenStart(before + token);
    if LastIndexOf(token, NEWLINE) < 0 {
      NoNewline(before, token);
    } else {
      SomeNewline(before, token);
    }
  }

  /** The open text starts after the last newline. */
  lemma OpenStart(s: Text)
    ensures |Open(s)| <= |s| && LastIndexOf(s, NEWLINE) == |s| - |Open(s)| - 1
    ensures s[|s| - |Open(s)|..] == Open(s)
  {
    hide Open, LastIndexOf;
    OpenIsSuffix(s);
    OpenHasNoNewline(s);
    LastIndexIs(s, |s| - |Open(s)| - 1);
  }

  lemma MiddleSlice(a: Text, b: Text, i: nat, j: nat)
    requires i <= |a| && j <= |b|
    ensures (a + b)[i..|a| + j] == a[i..] + b[..j]
  {}

  /** A newline with none after it is the last one. */
  lemma LastIndexIs(s: Text, i: int)
    requires -1 <= i < |s| && (i >= 0 ==> s[i] == NEWLINE) && forall k :: i < k < |s| ==> s[k] != NEWLINE
    ensures LastIndexOf(s, NEWLINE) == i
  {
    hide LastIndexOf;
  }

  lemma {:induction false} OpenHasNoNewline(s: Text)
    ensures |Open(s)| <= |s| && (|Open(s)| < |s| ==> s[|s| - |Open(s)| - 1] == NEWLINE)
    ensures forall k :: |s| - |Open(s)| <= k < |s| ==> s[k] != NEWLINE
  {
    if s != [] && s[|s| - 1] != NEWLINE {
      var rest := s[..|s| - 1];
      OpenHasNoNewline(rest);
      assert forall k :: 0 <= k < |rest| ==> rest[k] == s[k];
    }
  }
}
