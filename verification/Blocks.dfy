/** The rules common to all parsers: normalised text, no empty blocks, size caps with a warning for each cut. */
module Blocks {
  import opened Text
  import opened Documents
  import Chunker
  import ChunkerLimits
  import Splitting
  import TableRow

  const MAX_BLOCK_CHARS: nat := 20_000
  const MAX_DOCUMENT_CHARS: nat := 2_000_000

  // --- text ------------------------------------------------------------------

  /** `\r\n` and a lone `\r` both become `\n`. */
  function UnifyNewlines(s: string): string {
    if s == "" then ""
    else if s[0] != '\r' then [s[0]] + UnifyNewlines(s[1..])
    else if |s| > 1 && s[1] == '\n' then ['\n'] + UnifyNewlines(s[2..])
    else ['\n'] + UnifyNewlines(s[1..])
  }

  /** Ideographic and no-break spaces become plain ones, zero-width spaces disappear. */
  function UnifySpaces(s: string): string {
    if s == "" then ""
    else
      (if s[0] == '\U{3000}' || s[0] == '\U{00A0}' then [' '] else if s[0] == '\U{200B}' then [] else [s[0]])
      + UnifySpaces(s[1..])
  }

  function NormalizeText(raw: string): string { Strip(UnifySpaces(UnifyNewlines(raw))) }

  predicate Plain(c: char) { c !in {'\r', '\U{3000}', '\U{00A0}', '\U{200B}'} }

  predicate AllPlain(s: string) { forall i | 0 <= i < |s| :: Plain(s[i]) }

  lemma {:induction false} NewlinesUnified(s: string)
    ensures forall i | 0 <= i < |UnifyNewlines(s)| :: UnifyNewlines(s)[i] != '\r'
    ensures (forall i | 0 <= i < |s| :: s[i] != '\r') ==> UnifyNewlines(s) == s
    decreases |s|
  {
    if s != "" {
      NewlinesUnified(s[1..]);
      if |s| > 1 { NewlinesUnified(s[2..]); }
    }
  }

  lemma {:induction false} SpacesUnified(s: string)
    requires forall i | 0 <= i < |s| :: s[i] != '\r'
    ensures AllPlain(UnifySpaces(s))
    ensures AllPlain(s) ==> UnifySpaces(s) == s
  {
    if s != "" { SpacesUnified(s[1..]); }
  }

  /** Normalised text has none of the replaced characters, no outer blanks, and is not changed by normalising again. */
  lemma {:induction false} NormalizedIsStable(raw: string)
    ensures var t := NormalizeText(raw);
            AllPlain(t) && NormalizeText(t) == t && (t != "" ==> !IsSpace(t[0]) && !IsSpace(t[|t| - 1]))
  {
    var u := UnifyNewlines(raw);
    NewlinesUnified(raw);
    SpacesUnified(u);
    StripStable(UnifySpaces(u));
    var t := NormalizeText(raw);
    NewlinesUnified(t);
    SpacesUnified(t);
  }

  lemma {:induction false} StripStable(w: string)
    requires AllPlain(w)
    ensures var t := Strip(w);
            AllPlain(t) && Strip(t) == t && (t != "" ==> !IsSpace(t[0]) && !IsSpace(t[|t| - 1]))
  {
    var lo := SkipLeading(IsSpace, w, 0);
    var hi := SkipTrailing(IsSpace, w, lo, |w|);
    assert forall i | 0 <= i < hi - lo :: w[lo..hi][i] == w[lo + i];
    StripFixpoint(IsSpace, w[lo..hi]);
  }

  /** A pair of return and newline meets where the two texts are joined. */
  predicate TearsPair(a: string, b: string) { a != "" && a[|a| - 1] == '\r' && b != "" && b[0] == '\n' }

  lemma {:induction false} PairFirst(rest: string)
    ensures UnifyNewlines("\r\n" + rest) == "\n" + UnifyNewlines(rest)
  {
    assert ("\r\n" + rest)[2..] == rest;
  }

  lemma {:induction false} OtherFirst(c: char, rest: string)
    requires !TearsPair([c], rest)
    ensures UnifyNewlines([c] + rest) == [if c == '\r' then '\n' else c] + UnifyNewlines(rest)
  {
    assert ([c] + rest)[1..] == rest;
  }

  /** Newlines are unified piece by piece, unless such a pair is torn apart. */
  lemma {:induction false} NewlinesPiecewise(a: string, b: string)
    requires !TearsPair(a, b)
    ensures UnifyNewlines(a + b) == UnifyNewlines(a) + UnifyNewlines(b)
    decreases |a|
  {
    if a == "" {
      assert a + b == b;
    } else if |a| > 1 && a[0] == '\r' && a[1] == '\n' {
      var rest := a[2..];
      assert a == "\r\n" + rest && a + b == "\r\n" + (rest + b);
      PairFirst(rest);
      PairFirst(rest + b);
      NewlinesPiecewise(rest, b);
      Regroup("\n", UnifyNewlines(rest), UnifyNewlines(b));
    } else {
      var c, rest := a[0], a[1..];
      assert a == [c] + rest && a + b == [c] + (rest + b);
      OtherFirst(c, rest);
      OtherFirst(c, rest + b);
      NewlinesPiecewise(rest, b);
      Regroup([if c == '\r' then '\n' else c], UnifyNewlines(rest), UnifyNewlines(b));
    }
  }

  lemma {:induction false} NewlinesBetween(before: string, mid: string, after: string)
    requires mid != "" && !TearsPair(before, mid) && !TearsPair(mid, after)
    ensures UnifyNewlines(before + mid + after) == UnifyNewlines(before) + UnifyNewlines(mid) + UnifyNewlines(after)
  {
    NewlinesPiecewise(before, mid);
    NewlinesPiecewise(before + mid, after);
  }

  lemma {:induction false} PairIsNewline()
    ensures UnifyNewlines("\r\n") == "\n"
  {
    assert "\r\n"[2..] == "";
  }

  /** A pair of return and newline gives one newline, wherever it stands. */
  lemma {:induction false} PairsAreNewlines(before: string, after: string)
    ensures UnifyNewlines(before + "\r\n" + after) == UnifyNewlines(before) + "\n" + UnifyNewlines(after)
  {
    NewlinesBetween(before, "\r\n", after);
    PairIsNewline();
  }

  /** A return outside such a pair gives one too, and every other character stays as it is. */
  lemma {:induction false} ReturnsAreNewlines(before: string, c: char, after: string)
    requires !TearsPair(before, [c]) && !TearsPair([c], after)
    ensures UnifyNewlines(before + [c] + after)
         == UnifyNewlines(before) + [if c == '\r' then '\n' else c] + UnifyNewlines(after)
  {
    NewlinesBetween(before, [c], after);
    assert [c][1..] == "";
  }

  lemma {:induction false} SpaceFirst(c: char, rest: string)
    ensures UnifySpaces([c] + rest)
         == (if c in {'\U{3000}', '\U{00A0}'} then " " else if c == '\U{200B}' then "" else [c]) + UnifySpaces(rest)
  {
    assert ([c] + rest)[1..] == rest;
  }

  lemma {:induction false} SpacesPiecewise(a: string, b: string)
    ensures UnifySpaces(a + b) == UnifySpaces(a) + UnifySpaces(b)
  {
    if a == "" {
      assert a + b == b;
    } else {
      var c, rest := a[0], a[1..];
      assert a == [c] + rest && a + b == [c] + (rest + b);
      SpaceFirst(c, rest);
      SpaceFirst(c, rest + b);
      SpacesPiecewise(rest, b);
      Regroup(if c in {'\U{3000}', '\U{00A0}'} then " " else if c == '\U{200B}' then "" else [c],
              UnifySpaces(rest), UnifySpaces(b));
    }
  }

  /** An ideographic or no-break space gives one blank, a zero-width space nothing; all else stays. */
  lemma {:induction false} SpacesArePlain(before: string, c: char, after: string)
    ensures var mid := if c in {'\U{3000}', '\U{00A0}'} then " " else if c == '\U{200B}' then "" else [c];
            UnifySpaces(before + [c] + after) == UnifySpaces(before) + mid + UnifySpaces(after)
  {
    SpacesPiecewise(before + [c], after);
    SpacesPiecewise(before, [c]);
    SpaceFirst(c, "");
    assert [c] + "" == [c];
  }

  /** Normalised text is the unified text without its outer blanks. */
  lemma {:induction false} NormalizedIsMiddle(raw: string) returns (lo: nat, hi: nat)
    ensures var u := UnifySpaces(UnifyNewlines(raw));
            && lo <= hi <= |u| && NormalizeText(raw) == u[lo..hi]
            && (forall i | 0 <= i < lo :: IsSpace(u[i])) && (forall i | hi <= i < |u| :: IsSpace(u[i]))
  {
    var u := UnifySpaces(UnifyNewlines(raw));
    lo := SkipLeading(IsSpace, u, 0);
    hi := SkipTrailing(IsSpace, u, lo, |u|);
  }

  // --- tables ----------------------------------------------------------------

  type Row = TableRow.Row

  function NormalizeRow(row: Row): Row { Map(NormalizeText, row) }

  function NormalizeRows(rows: seq<Row>): (r: seq<Row>)
    ensures forall i | 0 <= i < |r| :: TableRow.HasText(r[i])
  {
    if rows == [] then []
    else if TableRow.HasText(NormalizeRow(rows[0])) then [NormalizeRow(rows[0])] + NormalizeRows(rows[1..])
    else NormalizeRows(rows[1..])
  }

  function RowChars(row: Row): nat {
    if row == [] then 0 else RowChars(row[..|row| - 1]) + |row[|row| - 1]|
  }

  function RowsChars(rows: seq<Row>): nat {
    if rows == [] then 0 else RowsChars(rows[..|rows| - 1]) + RowChars(rows[|rows| - 1])
  }

  /** How many leading rows fit the cap; the first row is kept whatever its size. */
  function RowsKept(rows: seq<Row>, n: nat): nat
    requires n <= |rows|
    decreases |rows| - n
  {
    if n == |rows| || (n > 0 && RowsChars(rows[..n + 1]) > MAX_BLOCK_CHARS) then n else RowsKept(rows, n + 1)
  }

  lemma {:induction false} KeptRowsFit(rows: seq<Row>, n: nat)
    requires n <= |rows| && (n <= 1 || RowsChars(rows[..n]) <= MAX_BLOCK_CHARS)
    ensures var k := RowsKept(rows, n);
            && n <= k <= |rows| && (k <= 1 || RowsChars(rows[..k]) <= MAX_BLOCK_CHARS) && (rows != [] ==> k >= 1)
            && (k < |rows| ==> RowsChars(rows[..k + 1]) > MAX_BLOCK_CHARS)
    decreases |rows| - n
  {
    if n < |rows| && !(n > 0 && RowsChars(rows[..n + 1]) > MAX_BLOCK_CHARS) {
      KeptRowsFit(rows, n + 1);
    }
  }

  /** The capping loop: whole rows only, as many as fit, at least one; `truncated` says whether any was dropped. */
  method CapRows(rows: seq<Row>) returns (kept: seq<Row>, truncated: bool)
    ensures RowsKept(rows, 0) <= |rows| && kept == rows[..RowsKept(rows, 0)]
    ensures truncated <==> |kept| < |rows|
    ensures RowsChars(kept) <= MAX_BLOCK_CHARS || |kept| == 1
    ensures truncated ==> kept != [] && RowsChars(rows[..|kept| + 1]) > MAX_BLOCK_CHARS
  {
    KeptRowsFit(rows, 0);
    kept := [];
    var total := 0;
    for n := 0 to |rows|
      invariant kept == rows[..n] && total == RowsChars(rows[..n])
      invariant RowsKept(rows, 0) == RowsKept(rows, n)
    {
      assert rows[..n + 1][..n] == rows[..n];
      total := total + RowChars(rows[n]);
      if total > MAX_BLOCK_CHARS && kept != [] {
        return kept, true;
      }
      kept := kept + [rows[n]];
    }
    assert rows[..|rows|] == rows;
    truncated := false;
  }

  // --- documents -------------------------------------------------------------

  /** A finished block, and whether it had to be cut. */
  datatype Finished = Finished(block: Block, truncated: bool)

  function FinishBlock(block: Block): Option<Finished> {
    match block.rows
    case Some(raw) =>
      var rows := NormalizeRows(raw);
      if rows == [] then None
      else
        KeptRowsFit(rows, 0);
        var k := RowsKept(rows, 0);
        Some(Finished(block.(rows := Some(rows[..k]), text := ""), k < |rows|))
    case None =>
      var text := NormalizeText(block.text);
      if text == "" then None
      else if |text| > MAX_BLOCK_CHARS then Some(Finished(block.(text := text[..MAX_BLOCK_CHARS]), true))
      else Some(Finished(block.(text := text), false))
  }

  function BlockChars(block: Block): nat {
    if block.rows.Some? then RowsChars(block.rows.value) else |block.text|
  }

  function FinishAll(blocks: seq<Block>): seq<Finished> {
    if blocks == [] then []
    else
      var last := FinishBlock(blocks[|blocks| - 1]);
      FinishAll(blocks[..|blocks| - 1]) + if last.Some? then [last.value] else []
  }

  function TotalChars(finished: seq<Finished>): nat {
    if finished == [] then 0 else TotalChars(finished[..|finished| - 1]) + BlockChars(finished[|finished| - 1].block)
  }

  datatype Warning = TableTruncated(index: nat) | BlockTruncated(index: nat)

  function Warnings(finished: seq<Finished>): seq<Warning> {
    if finished == [] then []
    else
      var n := |finished| - 1;
      Warnings(finished[..n])
      + if !finished[n].truncated then []
        else if finished[n].block.rows.Some? then [TableTruncated(n)] else [BlockTruncated(n)]
  }

  function BlocksOf(finished: seq<Finished>): seq<Block> { Map((f: Finished) => f.block, finished) }

  datatype ParseResult = ParseError | Normalized(blocks: seq<Block>, warnings: seq<Warning>)

  lemma {:induction false} LastOnlyAdds(blocks: seq<Block>)
    requires blocks != []
    ensures FinishAll(blocks[..|blocks| - 1]) <= FinishAll(blocks)
  {
  }

  lemma {:induction false} FinishGrows(some: seq<Block>, all: seq<Block>)
    requires some <= all
    ensures FinishAll(some) <= FinishAll(all)
  {
    if |some| < |all| {
      FinishGrows(some, all[..|all| - 1]);
      LastOnlyAdds(all);
    } else {
      assert some == all;
    }
  }

  lemma {:induction false} TotalGrows(some: seq<Finished>, all: seq<Finished>)
    requires some <= all
    ensures TotalChars(some) <= TotalChars(all)
  {
    if |some| < |all| {
      TotalGrows(some, all[..|all| - 1]);
    } else {
      assert some == all;
    }
  }

  lemma {:induction false} TotalSnoc(finished: seq<Finished>, f: Finished)
    ensures TotalChars(finished + [f]) == TotalChars(finished) + BlockChars(f.block)
    ensures BlocksOf(finished + [f]) == BlocksOf(finished) + [f.block]
  {
    assert (finished + [f])[..|finished|] == finished;
  }

  lemma {:induction false} WarningsSnoc(finished: seq<Finished>, f: Finished)
    ensures Warnings(finished + [f])
         == Warnings(finished)
            + if !f.truncated then []
              else if f.block.rows.Some? then [TableTruncated(|finished|)] else [BlockTruncated(|finished|)]
  {
    assert (finished + [f])[..|finished|] == finished;
  }

  /** `finalize_document`: fails exactly when the finished blocks together exceed the document cap. */
  method FinalizeDocument(blocks: seq<Block>) returns (r: ParseResult)
    ensures r == if TotalChars(FinishAll(blocks)) > MAX_DOCUMENT_CHARS then ParseError
                 else Normalized(BlocksOf(FinishAll(blocks)), Warnings(FinishAll(blocks)))
  {
    var kept: seq<Block>, warnings: seq<Warning>, total := [], [], 0;
    for n := 0 to |blocks|
      invariant var f := FinishAll(blocks[..n]);
        kept == BlocksOf(f) && warnings == Warnings(f) && total == TotalChars(f) && total <= MAX_DOCUMENT_CHARS
            && |kept| == |f|
    {
      var one := FinishOne(blocks[n]);
      FinishGrows(blocks[..n + 1], blocks);
      TotalGrows(FinishAll(blocks[..n + 1]), FinishAll(blocks));
      assert blocks[..n + 1][..n] == blocks[..n];
      if one.None? {
        assert FinishAll(blocks[..n + 1]) == FinishAll(blocks[..n]);
        continue;
      }
      TotalSnoc(FinishAll(blocks[..n]), one.value);
      WarningsSnoc(FinishAll(blocks[..n]), one.value);
      var block := one.value.block;
      if one.value.truncated {
        warnings := warnings + [if block.rows.Some? then TableTruncated(|kept|) else BlockTruncated(|kept|)];
      }
      total := total + BlockChars(block);
      if total > MAX_DOCUMENT_CHARS {
        return ParseError;
      }
      kept := kept + [block];
    }
    assert blocks[..|blocks|] == blocks;
    r := Normalized(kept, warnings);
  }

  /** One turn of the loop up to the size check. */
  method FinishOne(block: Block) returns (r: Option<Finished>)
    ensures r == FinishBlock(block)
  {
    if block.rows.Some? {
      var rows := NormalizeRows(block.rows.value);
      if rows == [] {
        return None;
      }
      var kept, truncated := CapRows(rows);
      return Some(Finished(block.(rows := Some(kept), text := ""), truncated));
    }
    var text := NormalizeText(block.text);
    if text == "" {
      return None;
    }
    var truncated := |text| > MAX_BLOCK_CHARS;
    if truncated {
      text := text[..MAX_BLOCK_CHARS];
    }
    r := Some(Finished(block.(text := text), truncated));
  }

  // --- what finishing guarantees ---------------------------------------------

  /** Within the cap, or a table of one over-long row; with text in it. */
  predicate WellSized(block: Block) {
    match block.rows
    case Some(rows) => rows != [] && (forall i | 0 <= i < |rows| :: TableRow.HasText(rows[i]))
        && (RowsChars(rows) <= MAX_BLOCK_CHARS || |rows| == 1)
    case None => block.text != "" && |block.text| <= MAX_BLOCK_CHARS
  }

  lemma {:induction false} FinishedAreWellSized(blocks: seq<Block>)
    ensures forall i | 0 <= i < |FinishAll(blocks)| :: WellSized(FinishAll(blocks)[i].block)
    ensures (forall i | 0 <= i < |blocks| :: blocks[i].kind == Table <==> blocks[i].rows.Some?) ==>
            forall i | 0 <= i < |FinishAll(blocks)| :: FinishAll(blocks)[i].block.kind == Table
                <==> FinishAll(blocks)[i].block.rows.Some?
  {
    if blocks != [] {
      var n := |blocks| - 1;
      FinishedAreWellSized(blocks[..n]);
      if blocks[n].rows.Some? { KeptRowsFit(NormalizeRows(blocks[n].rows.value), 0); }
    }
  }

  lemma {:induction false} RowsAppend(a: seq<Row>, b: seq<Row>)
    ensures NormalizeRows(a + b) == NormalizeRows(a) + NormalizeRows(b)
  {
    if a == [] {
      assert a + b == b;
    } else {
      assert (a + b)[1..] == a[1..] + b;
      RowsAppend(a[1..], b);
    }
  }

  /** A row with text in some cell stays, each cell normalised, and any other row is dropped, wherever it stands. */
  lemma {:induction false} RowsPiecewise(before: seq<Row>, row: Row, after: seq<Row>)
    ensures var cells := Map(NormalizeText, row);
            NormalizeRows(before + [row] + after)
            == NormalizeRows(before) + (if TableRow.HasText(cells) then [cells] else [])
               + NormalizeRows(after)
  {
    RowsAppend(before + [row], after);
    RowsAppend(before, [row]);
    OneRow(row);
  }

  lemma {:induction false} OneRow(row: Row)
    ensures NormalizeRows([row]) == if TableRow.HasText(NormalizeRow(row)) then [NormalizeRow(row)] else []
  {
    assert [row][1..] == [];
  }

  /**
   * A block of text is dropped if nothing but blanks is in it, and else keeps everything but its text,
   * of which the normalised first 20 000 characters stay. A table is dropped if no cell has text, and
   * else keeps its first normalised rows, at least one, and as many as have 20 000 characters together.
   */
  lemma {:induction false} FinishKeepsLeading(block: Block)
    ensures var f := FinishBlock(block);
            match block.rows
            case None =>
              var text := NormalizeText(block.text);
              && (f.None? <==> text == "")
              && (f.Some? ==>
                    var kept := f.value.block.text;
                    && f.value.block == block.(text := kept) && kept <= text
                    && |kept| == (if |text| > 20_000 then 20_000 else |text|)
                    && (f.value.truncated <==> |text| > 20_000))
            case Some(raw) =>
              var rows := NormalizeRows(raw);
              && (f.None? <==> rows == [])
              && (f.Some? ==>
                    && f.value.block.rows.Some?
                    && var kept := f.value.block.rows.value;
                       && f.value.block == block.(text := "", rows := Some(kept)) && kept <= rows && kept != []
                       && (|kept| > 1 ==> RowsChars(kept) <= 20_000)
                       && (f.value.truncated <==> |kept| < |rows|)
                       && (|kept| < |rows| ==> RowsChars(rows[..|kept| + 1]) > 20_000))
  {
    if block.rows.Some? { KeptRowsFit(NormalizeRows(block.rows.value), 0); }
  }

  /** The warnings name exactly the blocks that were cut, each once and in order. */
  lemma {:induction false} WarningsNameTheCutBlocks(finished: seq<Finished>, i: nat)
    ensures (TableTruncated(i) in Warnings(finished)
        <==> i < |finished| && finished[i].truncated && finished[i].block.rows.Some?)
    ensures (BlockTruncated(i) in Warnings(finished)
        <==> i < |finished| && finished[i].truncated && finished[i].block.rows.None?)
    ensures forall j, k | 0 <= j < k < |Warnings(finished)| :: Warnings(finished)[j].index < Warnings(finished)[k].index
  {
    WarningsAreInOrder(finished);
    if finished != [] {
      WarningsAreInOrder(finished[..|finished| - 1]);
      WarningsNameTheCutBlocks(finished[..|finished| - 1], i);
    }
  }

  lemma {:induction false} WarningsAreInOrder(finished: seq<Finished>)
    ensures forall j, k | 0 <= j < k < |Warnings(finished)| :: Warnings(finished)[j].index < Warnings(finished)[k].index
    ensures forall j | 0 <= j < |Warnings(finished)| :: Warnings(finished)[j].index < |finished|
  {
    if finished != [] {
      WarningsAreInOrder(finished[..|finished| - 1]);
    }
  }

  /** No chunk built from a finished document is empty, if parsers give rows to tables and only to tables. */
  lemma {:induction false} ChunksHaveText(cfg: Chunker.Config, raw: seq<Block>, k: nat)
    requires cfg.target >= 1 && forall i | 0 <= i < |raw| :: raw[i].kind == Table <==> raw[i].rows.Some?
    requires k < |Chunker.Chunk(cfg, BlocksOf(FinishAll(raw)))|
    ensures Chunker.Chunk(cfg, BlocksOf(FinishAll(raw)))[k].text != ""
  {
    var blocks := BlocksOf(FinishAll(raw));
    FinishedAreWellSized(raw);
    Chunker.DraftAt(Chunker.Plans(cfg, blocks), k);
    assert forall i | 0 <= i < |blocks| :: WellSized(blocks[i]) && (blocks[i].kind == Table <==> blocks[i].rows.Some?);
    if Chunker.Plans(cfg, blocks)[k].TextPlan? {
      ChunkerLimits.TextChunksAreBounded(cfg, blocks, k);
    } else {
      TablePlansHaveText(cfg, blocks);
    }
  }

  predicate TablesHaveText(plans: seq<Chunker.Plan>) {
    forall i | 0 <= i < |plans| && plans[i].TablePlan? :: plans[i].text != ""
  }

  lemma {:induction false} PiecesKeepTables(cfg: Chunker.Config, s: Chunker.State, texts: seq<string>,
      page: Option<int>)
    requires TablesHaveText(s.plans)
    ensures TablesHaveText(Chunker.PutPieces(cfg, s, texts, page).plans)
  {
    if texts != [] { PiecesKeepTables(cfg, s, texts[..|texts| - 1], page); }
  }

  lemma {:induction false} TablePlansHaveText(cfg: Chunker.Config, blocks: seq<Block>)
    requires forall i | 0 <= i < |blocks| :: WellSized(blocks[i]) && (blocks[i].kind == Table <==> blocks[i].rows.Some?)
    ensures TablesHaveText(Chunker.Run(cfg, blocks).plans) && TablesHaveText(Chunker.Plans(cfg, blocks))
  {
    if blocks != [] {
      var n := |blocks| - 1;
      var s := Chunker.Run(cfg, blocks[..n]);
      TablePlansHaveText(cfg, blocks[..n]);
      if blocks[n].kind == Table {
        TableRow.PacksAreNotEmpty(blocks[n].rows.value, cfg.target);
      } else if blocks[n].kind != Heading {
        PiecesKeepTables(cfg, s, Splitting.SplitToLimit(blocks[n].text, cfg.target), blocks[n].page);
      }
    }
  }
}
