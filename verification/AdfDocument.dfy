/** plainTextADF (internal/providers/ticket/jira.go:397-435): from a plain-text description to
    the paragraphs of an Atlassian document. */
module AdfDocument {
  import opened Strings

  datatype Node = HardBreak | TextNode(text: string)
  type Paragraph = seq<Node>
  type Document = seq<Paragraph>

  // ---- lines --------------------------------------------------------------------------------

  /** strings.ReplaceAll(s, "\r\n", "\n"). */
  function CrLfToLf(s: string): string {
    if |s| >= 2 && s[0] == '\r' && s[1] == '\n' then "\n" + CrLfToLf(s[2..])
    else if s == "" then ""
    else [s[0]] + CrLfToLf(s[1..])
  }

  /** strings.ReplaceAll(s, "\r", "\n"). */
  function CrToLf(s: string): string {
    if s == "" then "" else [if s[0] == '\r' then '\n' else s[0]] + CrToLf(s[1..])
  }

  function Normalize(s: string): string {
    CrToLf(CrLfToLf(s))
  }

  /** strings.Split(s, "\n"). */
  function Lines(s: string): (lines: seq<string>)
    ensures lines != []
  {
    if s == "" then [""]
    else
      var rest := Lines(s[1..]);
      if s[0] == '\n' then [""] + rest else [[s[0]] + rest[0]] + rest[1..]
  }

  /** strings.TrimRight(s, " \t"). */
  function TrimRightBlanks(s: string): (r: string)
    ensures |r| <= |s| && r == s[..|r|]
    ensures r != "" ==> r[|r| - 1] !in " \t"
  {
    if s != "" && s[|s| - 1] in " \t" then TrimRightBlanks(s[..|s| - 1]) else s
  }

  predicate IsBlank(line: string) {
    TrimSpace(line) == ""
  }

  // ---- paragraphs -------------------------------------------------------------------------------

  /** The lines of the block at the front, and what follows it. */
  function FirstBlock(lines: seq<string>): (r: (seq<string>, seq<string>))
    ensures |r.0| + |r.1| == |lines|
  {
    if lines == [] || IsBlank(lines[0]) then ([], lines)
    else
      var (block, rest) := FirstBlock(lines[1..]);
      ([TrimRightBlanks(lines[0])] + block, rest)
  }

  /** The maximal runs of non-blank lines, each line trimmed on the right. */
  function Blocks(lines: seq<string>): seq<seq<string>>
    decreases |lines|
  {
    if lines == [] then []
    else if IsBlank(lines[0]) then Blocks(lines[1..])
    else
      var (block, rest) := FirstBlock(lines);
      [block] + Blocks(rest)
  }

  /** One text node a line, with hard breaks between. */
  function Nodes(block: seq<string>): Paragraph {
    if block == [] then []
    else if |block| == 1 then [TextNode(block[0])]
    else Nodes(block[..|block| - 1]) + [HardBreak, TextNode(block[|block| - 1])]
  }

  function Paragraphs(blocks: seq<seq<string>>): Document {
    if blocks == [] then [] else [Nodes(blocks[0])] + Paragraphs(blocks[1..])
  }

  function OrEmptyParagraph(doc: Document): Document {
    if doc == [] then [[]] else doc
  }

  function FromText(text: string): Document {
    OrEmptyParagraph(Paragraphs(Blocks(Lines(Normalize(text)))))
  }

  /** The three line endings read alike. A CR LF that follows a CR, or a CR followed by an LF,
      would be one ending more or less. */
  lemma LineEndingsAgree(before: string, after: string)
    requires before == "" || before[|before| - 1] != '\r'
    ensures FromText(before + "\r\n" + after) == FromText(before + "\n" + after)
    ensures (after == "" || after[0] != '\n') ==>
              FromText(before + "\r" + after) == FromText(before + "\n" + after)
  {
    NormalizeAppend(before, "\n" + after);
    EndingNormalizes(after);
    assert before + "\r\n" + after == before + ("\r\n" + after);
    NormalizeAppend(before, "\r\n" + after);
    assert before + "\r" + after == before + ("\r" + after);
    NormalizeAppend(before, "\r" + after);
    assert before + "\n" + after == before + ("\n" + after);
  }

  lemma EndingNormalizes(after: string)
    ensures Normalize("\r\n" + after) == Normalize("\n" + after)
    ensures (after == "" || after[0] != '\n') ==> Normalize("\r" + after) == Normalize("\n" + after)
  {
    assert ("\r\n" + after)[2..] == after && ("\n" + after)[1..] == after && ("\r" + after)[1..] == after;
    var rest := CrLfToLf(after);
    assert ("\n" + rest)[1..] == rest && ("\r" + rest)[1..] == rest;
    assert CrLfToLf("\r\n" + after) == "\n" + rest;
    assert CrLfToLf("\n" + after) == "\n" + rest;
  }

  lemma {:induction false} NormalizeAppend(a: string, b: string)
    requires a == "" || a[|a| - 1] != '\r'
    ensures Normalize(a + b) == Normalize(a) + Normalize(b)
  {
    CrLfAppend(a, b);
    CrAppend(CrLfToLf(a), CrLfToLf(b));
  }

  lemma {:induction false} CrLfAppend(a: string, b: string)
    requires a == "" || a[|a| - 1] != '\r'
    ensures CrLfToLf(a + b) == CrLfToLf(a) + CrLfToLf(b)
  {
    if a == "" {
      assert a + b == b;
    } else {
      var joined, width := a + b, if |a| >= 2 && a[0] == '\r' && a[1] == '\n' then 2 else 1;
      assert joined[width..] == a[width..] + b && joined[0] == a[0] && (|a| >= 2 ==> joined[1] == a[1]);
      CrLfAppend(a[width..], b);
    }
  }

  lemma {:induction false} CrAppend(a: string, b: string)
    ensures CrToLf(a + b) == CrToLf(a) + CrToLf(b)
  {
    if a == "" {
      assert a + b == b;
    } else {
      assert (a + b)[1..] == a[1..] + b;
      CrAppend(a[1..], b);
    }
  }

  // ---- the converter as it runs -----------------------------------------------------------------

  class Converter {
    var doc: Document
    var lines: seq<string>

    constructor ()
      ensures doc == [] && lines == []
    {
      doc, lines := [], [];
    }

    /** The closure that turns the collected lines into a paragraph. */
    method Flush()
      requires forall line | line in lines :: line != ""
      modifies this
      ensures lines == [] && doc == old(doc) + if old(lines) == [] then [] else [Nodes(old(lines))]
    {
      if |lines| == 0 { return; }
      var nodes: Paragraph := [];
      for i := 0 to |lines|
        invariant lines == old(lines) && doc == old(doc)
        invariant nodes == Nodes(lines[..i])
      {
        ghost var before := nodes;
        assert lines[..i + 1][..i] == lines[..i] && lines[i] in lines;
        if i > 0 {
          nodes := nodes + [HardBreak];
        }
        if lines[i] != "" {
          nodes := nodes + [TextNode(lines[i])];
        }
        assert nodes == before + if i > 0 then [HardBreak, TextNode(lines[i])] else [TextNode(lines[i])];
      }
      assert lines[..|lines|] == lines;
      doc := doc + [nodes];
      lines := [];
    }

    method Convert(text: string)
      requires doc == [] && lines == []
      modifies this
      ensures doc == FromText(text)
    {
      FromTextInSteps(text);
      hide *;
      var all := Lines(Normalize(text));
      JoinedEnds(all);
      for i := 0 to |all|
        invariant forall line | line in lines :: line != ""
        invariant doc + Paragraphs(Joined(lines, all[i..])) == Paragraphs(Blocks(all))
      {
        var line := all[i];
        assert all[i..][0] == line && all[i..][1..] == all[i + 1..];
        JoinedStep(lines, all[i..]);
        if IsBlank(line) {
          FlushedParagraph(lines, Joined([], all[i + 1..]));
          Flush();
          continue;
        }
        TrimmedIsNotEmpty(line);
        lines := lines + [TrimRightBlanks(line)];
      }
      assert all[|all|..] == [];
      JoinedEnds(lines);
      FlushedParagraph(lines, []);
      Flush();
      if |doc| == 0 {
        doc := [[]];
      }
    }
  }

  /** The blocks of lines collected for the next paragraph and the lines still to come. */
  ghost function Joined(lines: seq<string>, rest: seq<string>): seq<seq<string>> {
    if lines == [] then Blocks(rest)
    else
      var (block, others) := FirstBlock(rest);
      [lines + block] + Blocks(others)
  }

  lemma FromTextInSteps(text: string)
    ensures var doc := Paragraphs(Blocks(Lines(Normalize(text))));
            FromText(text) == if doc == [] then [[]] else doc
  {}

  lemma JoinedEnds(lines: seq<string>)
    ensures Joined([], lines[0..]) == Blocks(lines)
    ensures Joined(lines, []) == Flushed(lines)
  {
    assert lines[0..] == lines && lines + [] == lines;
  }

  ghost function Flushed(lines: seq<string>): seq<seq<string>> {
    if lines == [] then [] else [lines]
  }

  lemma BlocksStep(rest: seq<string>)
    requires rest != []
    ensures IsBlank(rest[0]) ==> FirstBlock(rest) == ([], rest) && Blocks(rest) == Blocks(rest[1..])
    ensures !IsBlank(rest[0]) ==>
              var (block, others) := FirstBlock(rest[1..]);
              var grown := [TrimRightBlanks(rest[0])] + block;
              FirstBlock(rest) == (grown, others) && Blocks(rest) == [grown] + Blocks(others)
  {}

  lemma FlushedParagraph(lines: seq<string>, others: seq<seq<string>>)
    ensures Paragraphs(Flushed(lines) + others) == (if lines == [] then [] else [Nodes(lines)]) + Paragraphs(others)
    ensures Paragraphs(Flushed(lines)) == if lines == [] then [] else [Nodes(lines)]
  {
    hide Nodes;
    assert ([lines] + others)[1..] == others && [] + others == others;
    assert [lines][1..] == [];
  }

  lemma JoinedStep(lines: seq<string>, rest: seq<string>)
    requires rest != []
    ensures Joined(lines, rest) ==
            if IsBlank(rest[0]) then Flushed(lines) + Joined([], rest[1..])
            else Joined(lines + [TrimRightBlanks(rest[0])], rest[1..])
  {
    hide IsBlank, FirstBlock, Blocks, TrimRightBlanks;
    BlocksStep(rest);
    if IsBlank(rest[0]) {
      assert lines + [] == lines;
    } else {
      var line := TrimRightBlanks(rest[0]);
      var block := FirstBlock(rest[1..]).0;
      assert lines + ([line] + block) == lines + [line] + block;
      assert lines == [] ==> lines + [line] + block == [line] + block;
    }
  }

  // ---- ink: the characters that are not white space ----------------------------------------------

  function Ink(s: string): string {
    if s == "" then "" else (if IsSpace(s[0]) then "" else [s[0]]) + Ink(s[1..])
  }

  lemma InkStep(c: char, s: string)
    ensures Ink([c] + s) == Ink([c]) + Ink(s) && Ink("") == ""
  {
    assert ([c] + s)[1..] == s && [c][1..] == "";
  }

  lemma {:induction false} InkOfBoth(a: string, b: string)
    ensures Ink(a + b) == Ink(a) + Ink(b)
  {
    hide *;
    InkStep(' ', "");
    if a == "" {
      assert a + b == b;
    } else {
      InkOfBoth(a[1..], b);
      InkStep(a[0], a[1..]);
      InkStep(a[0], a[1..] + b);
      assert a == [a[0]] + a[1..] && a + b == [a[0]] + (a[1..] + b);
    }
  }

  lemma {:induction false} InkButLast(s: string)
    requires s != ""
    ensures Ink(s) == Ink(s[..|s| - 1]) + if IsSpace(s[|s| - 1]) then "" else [s[|s| - 1]]
  {
    InkOfBoth(s[..|s| - 1], [s[|s| - 1]]);
    assert s == s[..|s| - 1] + [s[|s| - 1]];
  }

  lemma {:induction false} TrimLeftKeepsInk(s: string)
    ensures Ink(TrimLeft(s)) == Ink(s)
  {
    if s != "" && IsSpace(s[0]) { TrimLeftKeepsInk(s[1..]); }
  }

  lemma {:induction false} TrimRightKeepsInk(s: string)
    ensures Ink(TrimRightSpace(s)) == Ink(s) && Ink(TrimRightBlanks(s)) == Ink(s)
  {
    if s != "" {
      InkButLast(s);
      TrimRightKeepsInk(s[..|s| - 1]);
    }
  }

  lemma BlankIffNoInk(s: string)
    ensures IsBlank(s) <==> Ink(s) == ""
  {
    TrimLeftKeepsInk(s);
    TrimRightKeepsInk(TrimLeft(s));
    if !IsBlank(s) { InkButLast(TrimSpace(s)); }
  }

  lemma TrimmedIsNotEmpty(line: string)
    requires !IsBlank(line)
    ensures TrimRightBlanks(line) != "" && !IsBlank(TrimRightBlanks(line))
  {
    TrimRightKeepsInk(line);
    BlankIffNoInk(line);
    BlankIffNoInk(TrimRightBlanks(line));
  }

  // ---- what every document looks like ------------------------------------------------------------

  /** A line as it stands in a paragraph. */
  ghost predicate GoodLine(line: string) {
    !IsBlank(line) && '\n' !in line && '\r' !in line && line[|line| - 1] !in " \t"
  }

  /** Non-empty newline-free texts, with exactly one hard break between consecutive ones. */
  ghost predicate GoodParagraph(p: Paragraph) {
    && |p| % 2 == 1
    && forall i | 0 <= i < |p| :: if i % 2 == 0 then p[i].TextNode? && GoodLine(p[i].text) else p[i] == HardBreak
  }

  ghost predicate WellFormed(doc: Document) {
    doc == [[]] || (doc != [] && forall p | p in doc :: GoodParagraph(p))
  }

  ghost predicate GoodBlock(block: seq<string>) {
    block != [] && forall line | line in block :: GoodLine(line)
  }

  ghost predicate GoodBlocks(blocks: seq<seq<string>>) {
    forall b | b in blocks :: GoodBlock(b)
  }

  ghost predicate OneLine(line: string) {
    '\n' !in line && '\r' !in line
  }

  lemma {:induction false} NormalizedHasNoCr(s: string)
    ensures '\r' !in CrToLf(s)
  {
    if s != "" { NormalizedHasNoCr(s[1..]); }
  }

  lemma {:induction false} LinesAreLines(s: string)
    requires '\r' !in s
    ensures forall line | line in Lines(s) :: OneLine(line)
  {
    if s != "" {
      assert forall c | c in s[1..] :: c in s;
      LinesAreLines(s[1..]);
      assert Lines(s[1..])[0] in Lines(s[1..]);
    }
  }

  lemma {:induction false} FirstBlockIsGood(lines: seq<string>)
    requires forall line | line in lines :: OneLine(line)
    ensures forall line | line in FirstBlock(lines).0 :: GoodLine(line)
    ensures forall line | line in FirstBlock(lines).1 :: OneLine(line)
    ensures lines != [] && !IsBlank(lines[0]) ==> FirstBlock(lines).0 != []
  {
    hide IsBlank;
    if lines != [] && !IsBlank(lines[0]) {
      assert lines[0] in lines;
      assert forall line | line in lines[1..] :: line in lines;
      FirstBlockIsGood(lines[1..]);
      TrimmedIsNotEmpty(lines[0]);
    }
  }

  lemma {:induction false} BlocksAreGood(lines: seq<string>)
    requires forall line | line in lines :: OneLine(line)
    ensures GoodBlocks(Blocks(lines))
    decreases |lines|
  {
    hide IsBlank, OneLine, GoodLine;
    if lines != [] {
      assert forall line | line in lines[1..] :: line in lines;
      FirstBlockIsGood(lines);
      if IsBlank(lines[0]) {
        BlocksAreGood(lines[1..]);
      } else {
        BlocksAreGood(FirstBlock(lines).1);
      }
    }
  }

  lemma {:induction false} NodesAreGood(block: seq<string>)
    requires GoodBlock(block)
    ensures GoodParagraph(Nodes(block))
  {
    hide GoodLine;
    assert block[|block| - 1] in block;
    if |block| > 1 {
      assert forall line | line in block[..|block| - 1] :: line in block;
      NodesAreGood(block[..|block| - 1]);
    }
  }

  lemma {:induction false} ParagraphsAreGood(blocks: seq<seq<string>>)
    requires GoodBlocks(blocks)
    ensures forall p | p in Paragraphs(blocks) :: GoodParagraph(p)
  {
    hide GoodBlock, GoodParagraph;
    if blocks != [] {
      assert blocks[0] in blocks && forall b | b in blocks[1..] :: b in blocks;
      NodesAreGood(blocks[0]);
      ParagraphsAreGood(blocks[1..]);
    }
  }

  lemma TextHasGoodBlocks(text: string)
    ensures GoodBlocks(Blocks(Lines(Normalize(text))))
  {
    NormalizedHasNoCr(CrLfToLf(text));
    LinesAreLines(Normalize(text));
    BlocksAreGood(Lines(Normalize(text)));
  }

  /** Whatever the text, the document has a paragraph, no empty text node, no newline inside a
      text node, and hard breaks exactly between the lines of a block. */
  lemma DocumentIsWellFormed(text: string)
    ensures WellFormed(FromText(text))
  {
    hide GoodParagraph, GoodBlocks, Lines, Blocks, Normalize, Paragraphs;
    TextHasGoodBlocks(text);
    ParagraphsAreGood(Blocks(Lines(Normalize(text))));
  }

  // ---- printing back -------------------------------------------------------------------------------

  function PrintParagraph(p: Paragraph): string {
    if p == [] then ""
    else PrintParagraph(p[..|p| - 1]) + match p[|p| - 1] { case HardBreak => "\n" case TextNode(text) => text }
  }

  /** Paragraphs with a blank line between them. */
  function Print(doc: Document): string {
    if doc == [] then ""
    else if |doc| == 1 then PrintParagraph(doc[0])
    else PrintParagraph(doc[0]) + "\n" + ("\n" + Print(doc[1..]))
  }

  /** The lines of a paragraph. */
  function Texts(p: Paragraph): seq<string> {
    if p == [] then []
    else (if |p| >= 2 then Texts(p[..|p| - 2]) else []) +
         match p[|p| - 1] { case HardBreak => [] case TextNode(text) => [text] }
  }

  /** The lines of printed blocks: one empty line between blocks. */
  function Spread(blocks: seq<seq<string>>): seq<string> {
    if blocks == [] then [] else if |blocks| == 1 then blocks[0] else blocks[0] + ([""] + Spread(blocks[1..]))
  }

  lemma {:induction false} OneLineThen(line: string, s: string)
    requires '\n' !in line
    ensures Lines(line) == [line] && Lines(line + "\n" + s) == [line] + Lines(s)
  {
    var t := line + "\n" + s;
    if line == "" {
      assert t[1..] == s;
    } else {
      OneLineThen(line[1..], s);
      assert t[1..] == line[1..] + "\n" + s;
      assert [line[0]] + line[1..] == line;
      assert ([line[1..]] + Lines(s))[1..] == Lines(s);
    }
  }

  lemma PrintNodes(block: seq<string>)
    requires |block| > 1
    ensures PrintParagraph(Nodes(block)) == PrintParagraph(Nodes(block[..|block| - 1])) + "\n" + block[|block| - 1]
  {
    var init, last := Nodes(block[..|block| - 1]), block[|block| - 1];
    var p := Nodes(block);
    assert p[..|p| - 1] == init + [HardBreak];
    assert p[..|p| - 1][..|init|] == init;
  }

  lemma BlockEnds(block: seq<string>)
    requires GoodBlock(block)
    ensures '\n' !in block[|block| - 1] && (|block| > 1 ==> GoodBlock(block[..|block| - 1]))
  {
    assert block[|block| - 1] in block && forall line | line in block[..|block| - 1] :: line in block;
  }

  lemma {:induction false} LinesAfterBlock(block: seq<string>, s: string)
    requires GoodBlock(block)
    ensures Lines(PrintParagraph(Nodes(block)) + "\n" + s) == block + Lines(s)
    decreases |block|
  {
    BlockEnds(block);
    hide *;
    var init, last := block[..|block| - 1], block[|block| - 1];
    OneLineThen(last, s);
    if |block| == 1 {
      PrintOne(last);
      assert block == [last];
    } else {
      PrintNodes(block);
      var front, rest := PrintParagraph(Nodes(init)), last + "\n" + s;
      LinesAfterBlock(init, rest);
      Glue(front, last, s);
      Ungroup(init, last, Lines(s));
      assert block == init + [last];
    }
  }

  lemma Glue(front: string, last: string, s: string)
    ensures front + "\n" + last + "\n" + s == front + "\n" + (last + "\n" + s)
  {}

  lemma Ungroup(init: seq<string>, last: string, rest: seq<string>)
    ensures init + ([last] + rest) == init + [last] + rest
  {}

  lemma PrintedBlockHasItsLines(block: seq<string>)
    requires GoodBlock(block)
    ensures Lines(PrintParagraph(Nodes(block))) == block
  {
    BlockEnds(block);
    hide *;
    var init, last := block[..|block| - 1], block[|block| - 1];
    OneLineThen(last, "");
    assert block == init + [last];
    if |block| == 1 {
      PrintOne(last);
    } else {
      PrintNodes(block);
      LinesAfterBlock(init, last);
    }
  }

  lemma PrintOne(line: string)
    ensures PrintParagraph(Nodes([line])) == line
  {
    assert PrintParagraph([]) == "" && [TextNode(line)][..0] == [];
  }

  lemma {:induction false} PrintedLines(blocks: seq<seq<string>>)
    requires GoodBlocks(blocks) && blocks != []
    ensures Lines(Print(Paragraphs(blocks))) == Spread(blocks)
    ensures |Paragraphs(blocks)| == |blocks|
  {
    hide Lines, Nodes, PrintParagraph, GoodBlock;
    assert blocks[0] in blocks && forall b | b in blocks[1..] :: b in blocks;
    if |blocks| > 1 {
      PrintedLines(blocks[1..]);
      var rest := Print(Paragraphs(blocks[1..]));
      LinesAfterBlock(blocks[0], "\n" + rest);
      OneLineThen("", rest);
      assert "" + "\n" + rest == "\n" + rest;
      assert Paragraphs(blocks)[1..] == Paragraphs(blocks[1..]);
    } else {
      PrintedBlockHasItsLines(blocks[0]);
    }
  }

  lemma GoodLineIsTrimmed(line: string)
    requires GoodLine(line)
    ensures TrimRightBlanks(line) == line && !IsBlank(line)
  {}

  lemma {:induction false} BlockAhead(block: seq<string>, tail: seq<string>)
    requires forall line | line in block :: GoodLine(line)
    requires tail == [] || IsBlank(tail[0])
    ensures FirstBlock(block + tail) == (block, tail)
  {
    hide IsBlank, GoodLine, TrimRightBlanks;
    if block == [] {
      assert block + tail == tail;
    } else {
      assert block[0] in block && forall line | line in block[1..] :: line in block;
      assert (block + tail)[1..] == block[1..] + tail;
      GoodLineIsTrimmed(block[0]);
      assert block == [block[0]] + block[1..];
      BlockAhead(block[1..], tail);
    }
  }

  lemma {:induction false} BlocksOfSpread(blocks: seq<seq<string>>)
    requires GoodBlocks(blocks)
    ensures Blocks(Spread(blocks)) == blocks
  {
    if blocks != [] {
      hide IsBlank, FirstBlock;
      BlankIffNoInk("");
      var block := blocks[0];
      assert block in blocks && block[0] in block && forall b | b in blocks[1..] :: b in blocks;
      var tail := if |blocks| == 1 then [] else [""] + Spread(blocks[1..]);
      BlocksOfSpread(blocks[1..]);
      BlockAhead(block, tail);
      assert Spread(blocks) == block + tail;
      if |blocks| > 1 { assert tail[1..] == Spread(blocks[1..]); }
    }
  }

  // ---- normal texts -----------------------------------------------------------------------------

  lemma {:induction false} NothingToNormalize(s: string)
    requires '\r' !in s
    ensures Normalize(s) == s
  {
    if s != "" {
      assert forall c | c in s[1..] :: c in s;
      NothingToNormalize(s[1..]);
      assert s == [s[0]] + s[1..];
    }
  }

  lemma {:induction false} NoCrInParagraph(p: Paragraph)
    requires forall n | n in p :: n.HardBreak? || '\r' !in n.text
    ensures '\r' !in PrintParagraph(p)
  {
    if p != [] {
      assert p[|p| - 1] in p && forall n | n in p[..|p| - 1] :: n in p;
      NoCrInParagraph(p[..|p| - 1]);
    }
  }

  lemma {:induction false} NoCrInPrint(doc: Document)
    requires forall p | p in doc :: GoodParagraph(p)
    ensures '\r' !in Print(doc)
  {
    if doc != [] {
      assert doc[0] in doc && forall p | p in doc[1..] :: p in doc;
      NoCrInParagraph(doc[0]);
      NoCrInPrint(doc[1..]);
    }
  }

  // ---- round trips ------------------------------------------------------------------------------

  lemma ParagraphEnds(p: Paragraph)
    requires GoodParagraph(p)
    ensures p[|p| - 1].TextNode? && GoodLine(p[|p| - 1].text)
    ensures |p| == 1 || (|p| > 2 && p[|p| - 2] == HardBreak && GoodParagraph(p[..|p| - 2]))
  {
    hide GoodLine;
  }

  lemma {:induction false} TextsMakeParagraph(p: Paragraph)
    requires GoodParagraph(p)
    ensures GoodBlock(Texts(p)) && Nodes(Texts(p)) == p
  {
    hide *;
    ParagraphEnds(p);
    var last := p[|p| - 1];
    if |p| == 1 {
      OneLineParagraph(last.text);
      assert p == [last];
    } else {
      var init := p[..|p| - 2];
      TextsMakeParagraph(init);
      LongerParagraph(p);
      LongerBlock(Texts(init), last.text);
      assert p == init + [HardBreak, last];
    }
  }

  lemma OneLineParagraph(line: string)
    requires GoodLine(line)
    ensures var p := [TextNode(line)]; Texts(p) == [line] && GoodBlock(Texts(p)) && Nodes(Texts(p)) == p
  {
    hide GoodLine;
  }

  lemma LongerParagraph(p: Paragraph)
    requires |p| > 2 && p[|p| - 1].TextNode?
    ensures Texts(p) == Texts(p[..|p| - 2]) + [p[|p| - 1].text]
  {}

  lemma LongerBlock(block: seq<string>, line: string)
    requires GoodBlock(block) && GoodLine(line)
    ensures GoodBlock(block + [line]) && Nodes(block + [line]) == Nodes(block) + [HardBreak, TextNode(line)]
  {
    hide GoodLine;
    assert (block + [line])[..|block|] == block;
  }

  function AllTexts(doc: Document): seq<seq<string>> {
    if doc == [] then [] else [Texts(doc[0])] + AllTexts(doc[1..])
  }

  lemma {:induction false} TextsMakeDocument(doc: Document)
    requires forall p | p in doc :: GoodParagraph(p)
    ensures GoodBlocks(AllTexts(doc)) && Paragraphs(AllTexts(doc)) == doc && |AllTexts(doc)| == |doc|
  {
    hide GoodParagraph, Nodes, Texts, GoodBlock;
    if doc != [] {
      assert doc[0] in doc && forall p | p in doc[1..] :: p in doc;
      TextsMakeParagraph(doc[0]);
      TextsMakeDocument(doc[1..]);
    }
  }

  /** Printing a document and converting the print gives the document back exactly when the
      document is well formed. */
  lemma PrintParsesBackExactly(doc: Document)
    ensures FromText(Print(doc)) == doc <==> WellFormed(doc)
  {
    hide Blocks, Lines, Normalize, Paragraphs, GoodParagraph, GoodBlocks, AllTexts;
    DocumentIsWellFormed(Print(doc));
    if doc == [[]] {
      EmptyText();
    } else if WellFormed(doc) {
      TextsMakeDocument(doc);
      var blocks := AllTexts(doc);
      NoCrInPrint(doc);
      NothingToNormalize(Print(doc));
      PrintedLines(blocks);
      BlocksOfSpread(blocks);
    }
  }

  lemma EmptyText()
    ensures Print([[]]) == "" && FromText("") == [[]]
  {
    hide Normalize, Blocks, Lines;
    assert PrintParagraph([]) == "";
    NothingToNormalize("");
    NothingInEmptyLine();
  }

  lemma NothingInEmptyLine()
    ensures Lines("") == [""] && Blocks([""]) == []
  {
    BlankIffNoInk("");
    assert [""][1..] == [];
  }

  /** Converting, printing and converting again changes nothing. */
  lemma ConversionIsNormal(text: string)
    ensures FromText(Print(FromText(text))) == FromText(text)
  {
    DocumentIsWellFormed(text);
    PrintParsesBackExactly(FromText(text));
  }

  // ---- nothing is lost ----------------------------------------------------------------------------

  function InkOfLines(lines: seq<string>): string {
    if lines == [] then "" else Ink(lines[0]) + InkOfLines(lines[1..])
  }

  function InkOfBlocks(blocks: seq<seq<string>>): string {
    if blocks == [] then "" else InkOfLines(blocks[0]) + InkOfBlocks(blocks[1..])
  }

  lemma NoInk()
    ensures Ink("\n") == "" && Ink("") == "" && InkOfLines([]) == ""
  {}

  lemma InkOfFront(line: string, rest: seq<string>)
    ensures InkOfLines([line] + rest) == Ink(line) + InkOfLines(rest)
  {
    assert ([line] + rest)[1..] == rest;
  }

  lemma NoLines()
    ensures Lines("") == [""]
  {}

  lemma LinesStep(s: string)
    requires s != ""
    ensures var rest := Lines(s[1..]);
            Lines(s) == if s[0] == '\n' then [""] + rest else [[s[0]] + rest[0]] + rest[1..]
  {}

  lemma {:induction false} LinesKeepInk(s: string)
    ensures InkOfLines(Lines(s)) == Ink(s)
  {
    hide *;
    NoInk();
    if s == "" {
      InkOfFront("", []);
      assert Lines("") == [""] by { NoLines(); }
      assert [""] + [] == [""];
    } else {
      LinesStep(s);
      LinesKeepInk(s[1..]);
      InkOfBoth([s[0]], s[1..]);
      assert s == [s[0]] + s[1..];
      var rest := Lines(s[1..]);
      if s[0] == '\n' {
        InkOfFront("", rest);
      } else {
        InkOfFront([s[0]] + rest[0], rest[1..]);
        InkOfFront(rest[0], rest[1..]);
        InkOfBoth([s[0]], rest[0]);
        assert rest == [rest[0]] + rest[1..];
      }
    }
  }

  lemma {:induction false} NormalizingKeepsInk(s: string)
    ensures Ink(CrToLf(s)) == Ink(s) && Ink(CrLfToLf(s)) == Ink(s)
    decreases |s|
  {
    if |s| >= 2 && s[0] == '\r' && s[1] == '\n' {
      NormalizingKeepsInk(s[2..]);
      assert s[1..][1..] == s[2..];
    }
    if s != "" { NormalizingKeepsInk(s[1..]); }
  }

  lemma {:induction false} FirstBlockKeepsInk(lines: seq<string>)
    ensures InkOfLines(FirstBlock(lines).0) + InkOfLines(FirstBlock(lines).1) == InkOfLines(lines)
  {
    hide Ink;
    if lines != [] && !IsBlank(lines[0]) {
      var (block, rest) := FirstBlock(lines[1..]);
      FirstBlockKeepsInk(lines[1..]);
      TrimRightKeepsInk(lines[0]);
      assert ([TrimRightBlanks(lines[0])] + block)[1..] == block;
    }
  }

  lemma {:induction false} BlocksKeepInk(lines: seq<string>)
    ensures InkOfBlocks(Blocks(lines)) == InkOfLines(lines)
    decreases |lines|
  {
    hide Ink;
    if lines != [] {
      if IsBlank(lines[0]) {
        BlankIffNoInk(lines[0]);
        BlocksKeepInk(lines[1..]);
      } else {
        var (block, rest) := FirstBlock(lines);
        FirstBlockKeepsInk(lines);
        BlocksKeepInk(rest);
        assert ([block] + Blocks(rest))[1..] == Blocks(rest);
      }
    }
  }

  lemma {:induction false} InkOfLinesOfBoth(a: seq<string>, b: seq<string>)
    ensures InkOfLines(a + b) == InkOfLines(a) + InkOfLines(b)
  {
    hide *;
    NoInk();
    if a == [] {
      assert a + b == b;
    } else {
      InkOfLinesOfBoth(a[1..], b);
      InkOfFront(a[0], a[1..]);
      InkOfFront(a[0], a[1..] + b);
      assert a == [a[0]] + a[1..] && a + b == [a[0]] + (a[1..] + b);
    }
  }

  lemma {:induction false} SpreadKeepsInk(blocks: seq<seq<string>>)
    ensures InkOfLines(Spread(blocks)) == InkOfBlocks(blocks)
  {
    hide Ink;
    if |blocks| > 1 {
      SpreadKeepsInk(blocks[1..]);
      var tail := [""] + Spread(blocks[1..]);
      InkOfLinesOfBoth(blocks[0], tail);
      BlankIffNoInk("");
      assert IsBlank("");
      assert tail[1..] == Spread(blocks[1..]);
    }
  }

  /** Every character of the text that is not white space is in the document, in order, and
      nothing else is. */
  lemma InkIsConserved(text: string)
    ensures Ink(Print(FromText(text))) == Ink(text)
  {
    hide Blocks, Lines, Paragraphs, GoodBlocks, Ink, Spread, InkOfBlocks;
    var lines := Lines(Normalize(text));
    var blocks := Blocks(lines);
    TextHasGoodBlocks(text);
    NormalizingKeepsInk(text);
    NormalizingKeepsInk(CrLfToLf(text));
    LinesKeepInk(Normalize(text));
    BlocksKeepInk(lines);
    if blocks == [] {
      NothingPrinted();
    } else {
      PrintedLines(blocks);
      SpreadKeepsInk(blocks);
      LinesKeepInk(Print(Paragraphs(blocks)));
    }
  }

  lemma NothingPrinted()
    ensures Paragraphs([]) == [] && Print([[]]) == "" && Ink("") == "" && InkOfBlocks([]) == ""
  {
    assert PrintParagraph([]) == "";
  }
}
