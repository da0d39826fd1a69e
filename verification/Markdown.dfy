/** The Markdown parser: ATX headings, fenced code, and paragraphs between blank lines. */
module Markdown {
  import opened Text
  import opened Documents
  import Blocks

  const FENCE := "```"

  predicate IsFence(line: string) { FENCE <= Strip(line) }

  function HashRun(line: string): nat { SkipLeading((c: char) => c == '#', line, 0) }

  /** One to six hashes and then a space. */
  predicate IsHeading(line: string) {
    var h := HashRun(line);
    1 <= h <= 6 && h < |line| && IsSpace(line[h])
  }

  function Title(line: string): string { line[SkipLeading(IsSpace, line, HashRun(line))..] }

  datatype RawBlock =
    | HeadingBlock(level: nat, title: string)
    | CodeBlock(lines: seq<string>)
    | ParagraphBlock(lines: seq<string>)

  function Render(b: RawBlock): Block {
    match b
    case HeadingBlock(level, title) => Block(Heading, title, Some(level), None, None)
    case CodeBlock(lines) => Block(Code, Join("\n", lines), None, None, None)
    case ParagraphBlock(lines) => Block(Paragraph, Join("\n", lines), None, None, None)
  }

  datatype State = State(blocks: seq<RawBlock>, buffer: seq<string>, fence: Option<seq<string>>)

  const START := State([], [], None)

  function Flush(s: State): State {
    if s.buffer == [] then s else s.(blocks := s.blocks + [ParagraphBlock(s.buffer)], buffer := [])
  }

  function ReadLine(s: State, line: string): State {
    if IsFence(line) then
      if s.fence.None? then Flush(s).(fence := Some([]))
      else s.(blocks := s.blocks + [CodeBlock(s.fence.value)], fence := None)
    else if s.fence.Some? then s.(fence := Some(s.fence.value + [line]))
    else if IsHeading(line) then
      var t := Flush(s); t.(blocks := t.blocks + [HeadingBlock(HashRun(line), Title(line))])
    else if IsBlank(line) then Flush(s)
    else s.(buffer := s.buffer + [line])
  }

  function ReadLines(lines: seq<string>): State {
    if lines == [] then START else ReadLine(ReadLines(lines[..|lines| - 1]), lines[|lines| - 1])
  }

  /** An unclosed fence keeps its lines as code. */
  function Close(s: State): seq<RawBlock> {
    Flush(if s.fence.Some? then s.(blocks := s.blocks + [CodeBlock(s.fence.value)], fence := None) else s).blocks
  }

  // --- paragraphs ------------------------------------------------------------

  predicate IsBlankOrTab(c: char) { c == ' ' || c == '\t' }

  /** Where a paragraph break that starts at `i` ends, if one does: a newline, blanks or tabs, a newline. */
  function BreakAt(text: string, i: nat): Option<nat>
    requires i < |text|
  {
    var k := SkipLeading(IsBlankOrTab, text, i + 1);
    if text[i] == '\n' && k < |text| && text[k] == '\n' then Some(k + 1) else None
  }

  function FirstBreak(text: string, from: nat): (i: nat)
    requires from <= |text|
    ensures from <= i <= |text| && (i < |text| ==> BreakAt(text, i).Some?)
    decreases |text| - from
  {
    if from == |text| || BreakAt(text, from).Some? then from else FirstBreak(text, from + 1)
  }

  function Paragraphs(text: string): seq<string>
    decreases |text|
  {
    var i := FirstBreak(text, 0);
    if i == |text| then [text] else [text[..i]] + Paragraphs(text[BreakAt(text, i).value..])
  }

  lemma {:induction false} SkipInTail(p: char -> bool, a: string, b: string, j: nat)
    requires j <= |b|
    ensures SkipLeading(p, a + b, |a| + j) == |a| + SkipLeading(p, b, j)
    decreases |b| - j
  {
    if j < |b| {
      assert (a + b)[|a| + j] == b[j];
      if p(b[j]) { SkipInTail(p, a, b, j + 1); }
    }
  }

  predicate PlainLine(line: string) { !IsBlank(line) && '\n' !in line }

  lemma {:induction false} PlainLineStops(line: string, rest: string)
    requires PlainLine(line)
    ensures var k := SkipLeading(IsBlankOrTab, line + rest, 0); k < |line + rest| && (line + rest)[k] != '\n'
  {
    var text := line + rest;
    var k := SkipLeading(IsBlankOrTab, text, 0);
    var p :| 0 <= p < |line| && !IsSpace(line[p]);
    assert text[p] == line[p];
    assert k <= p;
    assert text[k] == line[k] && line[k] in line;
  }

  lemma {:induction false} NoBreakInside(lines: seq<string>, i: nat)
    requires lines != [] && forall n | 0 <= n < |lines| :: PlainLine(lines[n])
    requires i < |Join("\n", lines)|
    ensures BreakAt(Join("\n", lines), i).None?
  {
    var text, first := Join("\n", lines), lines[0];
    if i < |first| {
      assert text[i] == first[i] && first[i] in first;
    } else {
      var rest := Join("\n", lines[1..]);
      var head := first + "\n";
      assert text == head + rest;
      if i == |first| {
        SkipInTail(IsBlankOrTab, head, rest, 0);
        var tail := if |lines| == 2 then "" else "\n" + Join("\n", lines[1..][1..]);
        assert rest == lines[1] + tail;
        PlainLineStops(lines[1], tail);
      } else {
        var j := i - |head|;
        NoBreakInside(lines[1..], j);
        SkipInTail(IsBlankOrTab, head, rest, j + 1);
        assert text[i] == rest[j];
      }
    }
  }

  /** Lines that are not blank make exactly one paragraph. */
  lemma {:induction false} OneParagraph(lines: seq<string>)
    requires lines != [] && forall n | 0 <= n < |lines| :: PlainLine(lines[n])
    ensures Paragraphs(Join("\n", lines)) == [Join("\n", lines)]
  {
    var text := Join("\n", lines);
    var i := FirstBreak(text, 0);
    if i < |text| { NoBreakInside(lines, i); }
  }

  // --- the parser's loop -----------------------------------------------------

  function RenderAll(blocks: seq<RawBlock>): seq<Block> { Map(Render, blocks) }

  lemma {:induction false} RenderSnoc(blocks: seq<RawBlock>, b: RawBlock)
    ensures RenderAll(blocks + [b]) == RenderAll(blocks) + [Render(b)]
  {
  }

  /** While a fence is open the paragraph buffer is empty; the buffer holds plain lines only. */
  predicate Consistent(s: State) {
    && (s.fence.Some? ==> s.buffer == [])
    && forall n | 0 <= n < |s.buffer| :: PlainLine(s.buffer[n])
  }

  /** `flush_paragraph`: the buffered lines, split at paragraph breaks, which they do not contain. */
  method FlushParagraph(blocks: seq<Block>, buffer: seq<string>, ghost s: State) returns (more: seq<Block>)
    requires Consistent(s) && blocks == RenderAll(s.blocks) && buffer == s.buffer
    ensures more == RenderAll(Flush(s).blocks)
  {
    more := blocks;
    if buffer != [] {
      OneParagraph(buffer);
      RenderSnoc(s.blocks, ParagraphBlock(buffer));
      var parts := Paragraphs(Join("\n", buffer));
      more := more + Map((part: string) => Block(Paragraph, part, None, None, None), parts);
    }
  }

  method ParseLines(lines: seq<string>) returns (blocks: seq<Block>)
    requires forall n | 0 <= n < |lines| :: '\n' !in lines[n]
    ensures blocks == RenderAll(Close(ReadLines(lines)))
  {
    blocks := [];
    var buffer: seq<string>, fence: Option<seq<string>> := [], None;
    ghost var s := START;
    for k := 0 to |lines|
      invariant s == ReadLines(lines[..k]) && Consistent(s)
      invariant blocks == RenderAll(s.blocks) && buffer == s.buffer && fence == s.fence
    {
      var line := lines[k];
      assert lines[..k + 1][..k] == lines[..k];
      ghost var before := s;
      s := ReadLine(s, line);
      if IsFence(line) {
        if fence.None? {
          blocks := FlushParagraph(blocks, buffer, before);
          buffer, fence := [], Some([]);
        } else {
          RenderSnoc(before.blocks, CodeBlock(fence.value));
          blocks, fence := blocks + [Block(Code, Join("\n", fence.value), None, None, None)], None;
        }
      } else if fence.Some? {
        fence := Some(fence.value + [line]);
      } else if IsHeading(line) {
        blocks := FlushParagraph(blocks, buffer, before);
        RenderSnoc(Flush(before).blocks, HeadingBlock(HashRun(line), Title(line)));
        blocks, buffer := blocks + [Block(Heading, Title(line), Some(HashRun(line)), None, None)], [];
      } else if IsBlank(line) {
        blocks := FlushParagraph(blocks, buffer, before);
        buffer := [];
      } else {
        buffer := buffer + [line];
      }
    }
    assert lines[..|lines|] == lines;
    if fence.Some? {
      RenderSnoc(s.blocks, CodeBlock(fence.value));
      blocks := blocks + [Block(Code, Join("\n", fence.value), None, None, None)];
      s := s.(blocks := s.blocks + [CodeBlock(fence.value)], fence := None);
    }
    blocks := FlushParagraph(blocks, buffer, s);
  }

  method Parse(text: string) returns (r: Blocks.ParseResult)
    ensures r == var raw := RenderAll(Close(ReadLines(Lines(Blocks.UnifyNewlines(text)))));
                 if Blocks.TotalChars(Blocks.FinishAll(raw)) > Blocks.MAX_DOCUMENT_CHARS then Blocks.ParseError
                 else Blocks.Normalized(Blocks.BlocksOf(Blocks.FinishAll(raw)), Blocks.Warnings(Blocks.FinishAll(raw)))
  {
    var lines := Lines(Blocks.UnifyNewlines(text));
    LinesHaveNoNewline(Blocks.UnifyNewlines(text));
    var blocks := ParseLines(lines);
    r := Blocks.FinalizeDocument(blocks);
  }

  // --- conservation ----------------------------------------------------------

  /** What a line contributes: a line of code inside a fence, a heading, or a line of a paragraph. */
  datatype Atom = CodeLine(line: string) | HeadingLine(level: nat, title: string) | TextLine(line: string)

  /** Line `n` is inside a fence: every fence line before it opens one or closes one. */
  predicate Inside(lines: seq<string>, n: nat)
    requires n <= |lines|
  {
    n > 0 && Inside(lines, n - 1) != IsFence(lines[n - 1])
  }

  function AtomsFor(inside: bool, line: string): seq<Atom> {
    if IsFence(line) then []
    else if inside then [CodeLine(line)]
    else if IsHeading(line) then [HeadingLine(HashRun(line), Title(line))]
    else if IsBlank(line) then []
    else [TextLine(line)]
  }

  function SourceAtoms(lines: seq<string>, n: nat): seq<Atom>
    requires n <= |lines|
  {
    if n == 0 then [] else SourceAtoms(lines, n - 1) + AtomsFor(Inside(lines, n - 1), lines[n - 1])
  }

  function CodeLines(lines: seq<string>): seq<Atom> { Map((l: string) => CodeLine(l), lines) }

  function TextLines(lines: seq<string>): seq<Atom> { Map((l: string) => TextLine(l), lines) }

  function BlockAtoms(b: RawBlock): seq<Atom> {
    match b
    case HeadingBlock(level, title) => [HeadingLine(level, title)]
    case CodeBlock(lines) => CodeLines(lines)
    case ParagraphBlock(lines) => TextLines(lines)
  }

  function AtomsOf(blocks: seq<RawBlock>): seq<Atom> {
    if blocks == [] then [] else AtomsOf(blocks[..|blocks| - 1]) + BlockAtoms(blocks[|blocks| - 1])
  }

  function Held(s: State): seq<Atom> {
    AtomsOf(s.blocks) + TextLines(s.buffer) + if s.fence.Some? then CodeLines(s.fence.value) else []
  }

  lemma {:induction false} AtomsSnoc(blocks: seq<RawBlock>, b: RawBlock)
    ensures AtomsOf(blocks + [b]) == AtomsOf(blocks) + BlockAtoms(b)
  {
    assert (blocks + [b])[..|blocks|] == blocks;
  }

  lemma {:induction false} FlushHolds(s: State)
    ensures AtomsOf(Flush(s).blocks) == AtomsOf(s.blocks) + TextLines(s.buffer) && Flush(s).buffer == []
        && Flush(s).fence == s.fence
    ensures TextLines([]) == [] && CodeLines([]) == []
  {
    AtomsSnoc(s.blocks, ParagraphBlock(s.buffer));
    assert TextLines([]) == [];
    assert AtomsOf(s.blocks) + [] == AtomsOf(s.blocks);
  }

  lemma {:induction false} LinesSnoc(lines: seq<string>, line: string)
    ensures CodeLines(lines + [line]) == CodeLines(lines) + [CodeLine(line)]
    ensures TextLines(lines + [line]) == TextLines(lines) + [TextLine(line)]
  {
    MapSnoc((l: string) => CodeLine(l), lines, line);
    MapSnoc((l: string) => TextLine(l), lines, line);
  }

  lemma {:induction false} FenceLineHolds(s: State, line: string)
    requires Consistent(s) && IsFence(line)
    ensures Held(ReadLine(s, line)) == Held(s) && (ReadLine(s, line).fence.Some? <==> s.fence.None?)
  {
    FlushHolds(s);
    if s.fence.Some? { AtomsSnoc(s.blocks, CodeBlock(s.fence.value)); }
  }

  lemma {:induction false} HeadingLineHolds(s: State, line: string)
    requires s.fence.None?
    ensures var t := Flush(s);
            Held(t.(blocks := t.blocks + [HeadingBlock(HashRun(line), Title(line))]))
                == Held(s) + [HeadingLine(HashRun(line), Title(line))]
  {
    FlushHolds(s);
    AtomsSnoc(Flush(s).blocks, HeadingBlock(HashRun(line), Title(line)));
  }

  lemma {:induction false} CodeLineHolds(s: State, line: string)
    requires s.fence.Some?
    ensures Held(s.(fence := Some(s.fence.value + [line]))) == Held(s) + [CodeLine(line)]
  {
    LinesSnoc(s.fence.value, line);
    var front, code := AtomsOf(s.blocks) + TextLines(s.buffer), CodeLines(s.fence.value);
    assert front + (code + [CodeLine(line)]) == (front + code) + [CodeLine(line)];
  }

  lemma {:induction false} TextLineHolds(s: State, line: string)
    requires s.fence.None?
    ensures Held(s.(buffer := s.buffer + [line])) == Held(s) + [TextLine(line)] && Held(Flush(s)) == Held(s)
  {
    FlushHolds(s);
    LinesSnoc(s.buffer, line);
    var front, text := AtomsOf(s.blocks), TextLines(s.buffer);
    assert front + (text + [TextLine(line)]) == (front + text) + [TextLine(line)];
    assert (front + text) + [] == front + text;
  }

  lemma {:induction false} ReadLineHolds(s: State, line: string)
    requires Consistent(s)
    ensures Held(ReadLine(s, line)) == Held(s) + AtomsFor(s.fence.Some?, line)
  {
    assert Held(s) + [] == Held(s);
    if IsFence(line) {
      FenceLineHolds(s, line);
    } else if s.fence.Some? {
      CodeLineHolds(s, line);
    } else {
      HeadingLineHolds(s, line);
      TextLineHolds(s, line);
    }
  }

  lemma {:induction false} FenceToggles(s: State, line: string)
    ensures ReadLine(s, line).fence.Some? <==> (s.fence.Some? != IsFence(line))
  {
  }

  lemma {:induction false} ReadLineConsistent(s: State, line: string)
    requires Consistent(s) && '\n' !in line
    ensures Consistent(ReadLine(s, line))
  {
  }

  /** After the first `n` lines, the state holds their atoms, and a fence is open if the next line is inside one. */
  predicate HoldsUpTo(s: State, lines: seq<string>, n: nat)
    requires n <= |lines|
  {
    Held(s) == SourceAtoms(lines, n) && Consistent(s) && (s.fence.Some? <==> Inside(lines, n))
  }

  lemma {:induction false} OneMoreLine(s: State, lines: seq<string>, n: nat)
    requires n < |lines| && HoldsUpTo(s, lines, n) && '\n' !in lines[n]
    ensures HoldsUpTo(ReadLine(s, lines[n]), lines, n + 1)
  {
    ReadLineHolds(s, lines[n]);
    FenceToggles(s, lines[n]);
    ReadLineConsistent(s, lines[n]);
  }

  lemma {:induction false} LinesAreHeld(lines: seq<string>, n: nat)
    requires n <= |lines| && forall n | 0 <= n < |lines| :: '\n' !in lines[n]
    ensures HoldsUpTo(ReadLines(lines[..n]), lines, n)
  {
    if n == 0 {
      FlushHolds(START);
    } else {
      LinesAreHeld(lines, n - 1);
      assert lines[..n][..n - 1] == lines[..n - 1];
      OneMoreLine(ReadLines(lines[..n - 1]), lines, n - 1);
    }
  }

  /**
   * Every line inside a fence, and every other line that is neither blank nor a fence, lands in exactly
   * one block, in source order; an unclosed fence loses nothing; and no paragraph is built while a fence is open.
   */
  lemma {:induction false} LinesAreConserved(lines: seq<string>)
    requires forall n | 0 <= n < |lines| :: '\n' !in lines[n]
    ensures AtomsOf(Close(ReadLines(lines))) == SourceAtoms(lines, |lines|)
    ensures ReadLines(lines).fence.Some? ==> ReadLines(lines).buffer == []
  {
    LinesAreHeld(lines, |lines|);
    assert lines[..|lines|] == lines;
    CloseHolds(ReadLines(lines));
  }

  lemma {:induction false} CloseHolds(s: State)
    requires Consistent(s)
    ensures AtomsOf(Close(s)) == Held(s)
  {
    if s.fence.Some? {
      var t := s.(blocks := s.blocks + [CodeBlock(s.fence.value)], fence := None);
      AtomsSnoc(s.blocks, CodeBlock(s.fence.value));
      FlushHolds(t);
    } else {
      FlushHolds(s);
    }
  }

  // --- what the lines become -------------------------------------------------

  /** The blocks that the parser makes of some lines. */
  function BlocksFrom(lines: seq<string>): seq<Block> { RenderAll(Close(ReadLines(lines))) }

  /** The line is `h` hashes, one to six, at least one blank, and the title. */
  predicate IsTitled(line: string, h: nat, title: string) {
    && 1 <= h <= 6 && h < |line| - |title| && line[|line| - |title|..] == title
    && (forall i | 0 <= i < h :: line[i] == '#')
    && (forall i | h <= i < |line| - |title| :: IsSpace(line[i]))
    && (title == "" || !IsSpace(title[0]))
  }

  /** A line is a heading if and only if it reads like that, and then with that level and title alone. */
  lemma {:induction false} HeadingIff(line: string)
    ensures IsHeading(line) <==> exists h, title :: IsTitled(line, h, title)
    ensures forall h, title | IsTitled(line, h, title) :: HashRun(line) == h && Title(line) == title
  {
    var h := HashRun(line);
    forall g, title | IsTitled(line, g, title) ensures h == g && Title(line) == title && IsHeading(line) {
      TitledIs(line, g, title);
    }
    if IsHeading(line) {
      var k := SkipLeading(IsSpace, line, h);
      assert line[|line| - |Title(line)|..] == Title(line);
      assert IsTitled(line, h, Title(line));
    }
  }

  lemma {:induction false} TitledIs(line: string, h: nat, title: string)
    requires IsTitled(line, h, title)
    ensures HashRun(line) == h && Title(line) == title && IsHeading(line)
  {
    var k := |line| - |title|;
    assert line[h] != '#' && line[HashRun(line)] != '#';
    assert HashRun(line) == h;
    assert title != "" ==> line[k] == title[0];
    assert SkipLeading(IsSpace, line, h) == k;
  }

  /** Neither a fence nor a heading nor blank. */
  predicate IsText(line: string) { !IsFence(line) && !IsHeading(line) && !IsBlank(line) }

  lemma {:induction false} ReadLinesSnoc(lines: seq<string>, line: string)
    ensures ReadLines(lines + [line]) == ReadLine(ReadLines(lines), line)
  {
    assert (lines + [line])[..|lines|] == lines;
  }

  lemma {:induction false} ReadOne(line: string)
    ensures ReadLines([line]) == ReadLine(START, line)
  {
    ReadLinesSnoc([], line);
    assert [] + [line] == [line];
  }

  lemma {:induction false} TextIsBuffered(lines: seq<string>)
    requires forall n | 0 <= n < |lines| :: IsText(lines[n])
    ensures ReadLines(lines) == State([], lines, None)
  {
    if lines != [] {
      var init, last := lines[..|lines| - 1], lines[|lines| - 1];
      TextIsBuffered(init);
      ReadLinesSnoc(init, last);
      assert lines == init + [last] && IsText(last);
    }
  }

  lemma {:induction false} CodeIsBuffered(fence: string, lines: seq<string>)
    requires IsFence(fence) && forall n | 0 <= n < |lines| :: !IsFence(lines[n])
    ensures ReadLines([fence] + lines) == State([], [], Some(lines))
  {
    if lines == [] {
      ReadOne(fence);
      assert [fence] + lines == [fence];
    } else {
      var init, last := lines[..|lines| - 1], lines[|lines| - 1];
      CodeIsBuffered(fence, init);
      ReadLinesSnoc([fence] + init, last);
      assert lines == init + [last] && [fence] + lines == ([fence] + init) + [last];
    }
  }

  lemma {:induction false} RenderOne(b: RawBlock)
    ensures RenderAll([] + [b]) == [Render(b)]
  {
    assert RenderAll([]) == [];
    RenderSnoc([], b);
  }

  lemma {:induction false} CloseBuffer(lines: seq<string>)
    requires lines != []
    ensures RenderAll(Close(State([], lines, None))) == [Block(Paragraph, Join("\n", lines), None, None, None)]
  {
    RenderOne(ParagraphBlock(lines));
  }

  /** Adjacent lines of text are one paragraph. */
  lemma {:induction false} TextIsOneParagraph(lines: seq<string>)
    requires lines != [] && forall n | 0 <= n < |lines| :: IsText(lines[n])
    ensures BlocksFrom(lines) == [Block(Paragraph, Join("\n", lines), None, None, None)]
  {
    TextIsBuffered(lines);
    CloseBuffer(lines);
  }

  /** A blank line is nothing. */
  lemma {:induction false} BlankIsNothing(line: string)
    requires IsBlank(line)
    ensures BlocksFrom([line]) == []
  {
    ReadOne(line);
    BlankIsNoHeading(line);
    assert Strip(line) == "";
    assert RenderAll([]) == [];
  }

  lemma {:induction false} BlankIsNoHeading(line: string)
    requires IsBlank(line)
    ensures !IsHeading(line)
  {
  }

  /** A heading line is one heading block with its level and title. */
  lemma {:induction false} HeadingIsOneBlock(line: string, h: nat, title: string)
    requires IsTitled(line, h, title)
    ensures BlocksFrom([line]) == [Block(Heading, title, Some(h), None, None)]
  {
    TitledIs(line, h, title);
    HeadingIsNoFence(line);
    ReadOne(line);
    RenderOne(HeadingBlock(h, title));
  }

  lemma {:induction false} HeadingIsNoFence(line: string)
    requires IsHeading(line)
    ensures !IsFence(line)
  {
    assert line[0] == '#';
    assert SkipLeading(IsSpace, line, 0) == 0;
    assert Strip(line) != "" ==> Strip(line)[0] == '#';
  }

  lemma {:induction false} CloseFence(lines: seq<string>)
    ensures RenderAll(Close(State([], [], Some(lines)))) == [Block(Code, Join("\n", lines), None, None, None)]
    ensures RenderAll(Close(State([CodeBlock(lines)], [], None))) == [Block(Code, Join("\n", lines), None, None, None)]
  {
    RenderOne(CodeBlock(lines));
    assert [] + [CodeBlock(lines)] == [CodeBlock(lines)];
  }

  /** What stands between two fences, or after one to the end, is one block of code. */
  lemma {:induction false} FencedIsOneBlock(open: string, lines: seq<string>, close: string)
    requires IsFence(open) && IsFence(close) && forall n | 0 <= n < |lines| :: !IsFence(lines[n])
    ensures BlocksFrom([open] + lines + [close]) == [Block(Code, Join("\n", lines), None, None, None)]
    ensures BlocksFrom([open] + lines) == [Block(Code, Join("\n", lines), None, None, None)]
  {
    CodeIsBuffered(open, lines);
    ReadLinesSnoc([open] + lines, close);
    CodeCloses(lines, close);
    CloseFence(lines);
  }

  lemma {:induction false} CodeCloses(lines: seq<string>, close: string)
    requires IsFence(close)
    ensures ReadLine(State([], [], Some(lines)), close) == State([CodeBlock(lines)], [], None)
  {
    assert [] + [CodeBlock(lines)] == [CodeBlock(lines)];
  }

  /** A line that ends the paragraph before it. */
  predicate EndsParagraph(line: string) { IsFence(line) || IsHeading(line) || IsBlank(line) }

  /** The state with some blocks before those it has. */
  function After(blocks: seq<RawBlock>, s: State): State { s.(blocks := blocks + s.blocks) }

  lemma {:induction false} ReadAfter(blocks: seq<RawBlock>, s: State, line: string)
    ensures ReadLine(After(blocks, s), line) == After(blocks, ReadLine(s, line))
    ensures Close(After(blocks, s)) == blocks + Close(s)
  {
    assert forall more :: (blocks + s.blocks) + more == blocks + (s.blocks + more);
  }

  lemma {:induction false} ReadOn(before: seq<string>, lines: seq<string>)
    requires lines != [] && ReadLines(before).fence.None?
    requires ReadLines(before).buffer == [] || EndsParagraph(lines[0])
    ensures ReadLines(before + lines) == After(Close(ReadLines(before)), ReadLines(lines))
  {
    var init, last, s := lines[..|lines| - 1], lines[|lines| - 1], ReadLines(before);
    assert lines == init + [last] && before + lines == (before + init) + [last];
    ReadLinesSnoc(before + init, last);
    if init == [] {
      ReadOne(last);
      assert before + init == before && lines == [last];
      FirstLineOn(s, last);
    } else {
      ReadOn(before, init);
      ReadLinesSnoc(init, last);
      ReadAfter(Close(s), ReadLines(init), last);
    }
  }

  lemma {:induction false} FirstLineOn(s: State, line: string)
    requires s.fence.None? && (s.buffer == [] || EndsParagraph(line))
    ensures ReadLine(s, line) == After(Close(s), ReadLine(START, line))
  {
    assert Close(s) + [] == Close(s);
  }

  /**
   * Two parts of a document are parsed independently wherever the first leaves no fence open and the
   * second begins with a heading, a fence or a blank line, or the first ends without an open paragraph.
   */
  lemma {:induction false} PartsAreIndependent(before: seq<string>, lines: seq<string>)
    requires lines != [] && ReadLines(before).fence.None?
    requires ReadLines(before).buffer == [] || EndsParagraph(lines[0])
    ensures BlocksFrom(before + lines) == BlocksFrom(before) + BlocksFrom(lines)
  {
    ReadOn(before, lines);
    ReadAfter(Close(ReadLines(before)), ReadLines(lines), "");
    RenderAppend(Close(ReadLines(before)), Close(ReadLines(lines)));
  }

  lemma {:induction false} RenderAppend(a: seq<RawBlock>, b: seq<RawBlock>)
    ensures RenderAll(a + b) == RenderAll(a) + RenderAll(b)
  {
  }
}
