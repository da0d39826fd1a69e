/** Where the content of a document goes: nothing lost, nothing repeated, each piece under its headings. */
module ChunkerContent {
  import opened Text
  import opened Documents
  import opened Splitting
  import opened Chunker
  import TableRow

  /** One piece of text, or one packed table text, with the headings in force and its page. */
  datatype Atom =
    | TextAtom(path: seq<string>, text: string, page: Option<int>)
    | TableAtom(path: seq<string>, text: string, page: Option<int>)

  // --- the headings in force, read off the document --------------------------

  /** The heading at `i` is in force after `blocks`: no later heading is of its level or above. */
  predicate InForce(blocks: seq<Block>, i: nat)
    requires i < |blocks|
  {
    && blocks[i].kind == Heading
    && forall j | i < j < |blocks| && blocks[j].kind == Heading :: Level(blocks[j]) > Level(blocks[i])
  }

  function InForceUpTo(blocks: seq<Block>, n: nat): seq<Entry>
    requires n <= |blocks|
  {
    if n == 0 then []
    else if InForce(blocks, n - 1) then InForceUpTo(blocks, n - 1) + [EntryOf(blocks[n - 1])]
    else InForceUpTo(blocks, n - 1)
  }

  function EntryOf(block: Block): Entry { Entry(Level(block), block.text) }

  function HeadingsInForce(blocks: seq<Block>): seq<Entry> { InForceUpTo(blocks, |blocks|) }

  predicate Increasing(entries: seq<Entry>) {
    forall i, j | 0 <= i < j < |entries| :: entries[i].level < entries[j].level
  }

  predicate LaterHeadingsAreDeeper(blocks: seq<Block>, n: nat, level: int) {
    forall j | n <= j < |blocks| && blocks[j].kind == Heading :: Level(blocks[j]) > level
  }

  /** The levels in force strictly increase, and whatever headings follow are deeper than all of them. */
  lemma {:induction false} LevelsIncrease(blocks: seq<Block>, n: nat)
    requires n <= |blocks|
    ensures Increasing(InForceUpTo(blocks, n))
    ensures forall i | 0 <= i < |InForceUpTo(blocks, n)|
        :: LaterHeadingsAreDeeper(blocks, n, InForceUpTo(blocks, n)[i].level)
  {
    if n > 0 {
      LevelsIncrease(blocks, n - 1);
      var before := InForceUpTo(blocks, n - 1);
      if InForce(blocks, n - 1) {
        assert forall i | 0 <= i < |before| :: before[i].level < Level(blocks[n - 1]);
      }
    }
  }

  lemma {:induction false} PopToSnoc(entries: seq<Entry>, e: Entry, level: int)
    requires entries != [] ==> entries[|entries| - 1].level < e.level
    ensures PopTo(entries + [e], level) == if e.level >= level then PopTo(entries, level) else entries + [e]
    ensures e.level < level ==> PopTo(entries, level) == entries
  {
    assert (entries + [e])[..|entries|] == entries;
  }

  lemma {:induction false} InForceAfter(blocks: seq<Block>, b: Block, i: nat)
    requires i < |blocks|
    ensures InForce(blocks + [b], i) <==> InForce(blocks, i) && (b.kind == Heading ==> Level(b) > Level(blocks[i]))
  {
    var more := blocks + [b];
    assert more[i] == blocks[i] && more[|blocks|] == b;
    if InForce(more, i) {
      forall j | i < j < |blocks| && blocks[j].kind == Heading ensures Level(blocks[j]) > Level(blocks[i]) {
        assert more[j] == blocks[j];
      }
    }
  }

  lemma {:induction false} LastIsDeepest(blocks: seq<Block>, n: nat)
    requires n < |blocks| && InForce(blocks, n)
    ensures var before := InForceUpTo(blocks, n); before != [] ==> before[|before| - 1].level < Level(blocks[n])
  {
    LevelsIncrease(blocks, n);
  }

  /** Another block leaves the headings in force alone, unless it is a heading, which closes some. */
  lemma {:induction false} InForceSnoc(blocks: seq<Block>, b: Block, n: nat)
    requires n <= |blocks|
    ensures InForceUpTo(blocks + [b], n) ==
            if b.kind == Heading then PopTo(InForceUpTo(blocks, n), Level(b)) else InForceUpTo(blocks, n)
  {
    if n > 0 {
      InForceSnoc(blocks, b, n - 1);
      InForceAfter(blocks, b, n - 1);
      assert (blocks + [b])[n - 1] == blocks[n - 1];
      if InForce(blocks, n - 1) {
        LastIsDeepest(blocks, n - 1);
        PopToSnoc(InForceUpTo(blocks, n - 1), EntryOf(blocks[n - 1]), Level(b));
      }
    }
  }

  /** The builder's heading stack is exactly the list of headings in force. */
  lemma {:induction false} StackIsHeadingsInForce(cfg: Config, blocks: seq<Block>)
    ensures Run(cfg, blocks).headings == HeadingsInForce(blocks) && Increasing(HeadingsInForce(blocks))
  {
    LevelsIncrease(blocks, |blocks|);
    if blocks != [] {
      var n := |blocks| - 1;
      var init, b := blocks[..n], blocks[n];
      StackIsHeadingsInForce(cfg, init);
      assert blocks == init + [b];
      InForceSnoc(init, b, n);
      StepKeepsHeadings(cfg, Run(cfg, init), b);
    }
  }

  lemma {:induction false} StepKeepsHeadings(cfg: Config, s: State, b: Block)
    ensures Step(cfg, s, b).headings == if b.kind == Heading then PopTo(s.headings, Level(b)) + [EntryOf(b)]
        else s.headings
  {
    PutPiecesKeepsContext(cfg, s, SplitToLimit(b.text, cfg.target), b.page);
  }

  /** Adding text changes neither the headings nor the run or section counters. */
  lemma {:induction false} PutPiecesKeepsContext(cfg: Config, s: State, texts: seq<string>, page: Option<int>)
    ensures var t := PutPieces(cfg, s, texts, page);
            t.headings == s.headings && t.run == s.run && t.section == s.section
  {
    if texts != [] {
      PutPiecesKeepsContext(cfg, s, texts[..|texts| - 1], page);
    }
  }

  // --- conservation ----------------------------------------------------------

  function PieceAtoms(path: seq<string>, pieces: seq<Piece>): seq<Atom> {
    Map((p: Piece) => TextAtom(path, p.text, p.page), pieces)
  }

  function PlanAtoms(plan: Plan): seq<Atom> {
    match plan
    case TextPlan(_, _, path, _, _, pieces) => PieceAtoms(path, pieces)
    case TablePlan(_, _, path, text, page) => [TableAtom(path, text, page)]
  }

  /** Everything the chunks hold, in chunk order, without overlaps and heading prefixes. */
  function AtomsOf(plans: seq<Plan>): seq<Atom> {
    if plans == [] then [] else AtomsOf(plans[..|plans| - 1]) + PlanAtoms(plans[|plans| - 1])
  }

  function TextPieces(path: seq<string>, texts: seq<string>, page: Option<int>): seq<Atom> {
    Map((t: string) => TextAtom(path, t, page), texts)
  }

  function TablePieces(path: seq<string>, texts: seq<string>, page: Option<int>): seq<Atom> {
    Map((t: string) => TableAtom(path, t, page), texts)
  }

  /** What a block contributes: its pieces, under the headings in force before it. */
  function BlockAtoms(cfg: Config, before: seq<Block>, b: Block): seq<Atom> {
    var path := Titles(HeadingsInForce(before));
    match b.kind
    case Heading => []
    case Table => TablePieces(path, TableRow.PackTable(b.rows, cfg.target), b.page)
    case _ => TextPieces(path, SplitToLimit(b.text, cfg.target), b.page)
  }

  function DocumentAtoms(cfg: Config, blocks: seq<Block>): seq<Atom> {
    if blocks == [] then []
    else var n := |blocks| - 1;
         DocumentAtoms(cfg, blocks[..n]) + BlockAtoms(cfg, blocks[..n], blocks[n])
  }

  function Held(s: State): seq<Atom> { AtomsOf(s.plans) + PieceAtoms(Titles(s.headings), s.pending) }

  lemma {:induction false} AtomsSnoc(plans: seq<Plan>, plan: Plan)
    ensures AtomsOf(plans + [plan]) == AtomsOf(plans) + PlanAtoms(plan)
  {
    assert (plans + [plan])[..|plans|] == plans;
  }

  lemma {:induction false} FlushHolds(cfg: Config, s: State)
    ensures Held(Flush(cfg, s)) == Held(s) && AtomsOf(Flush(cfg, s).plans) == Held(s) && Flush(cfg, s).pending == []
    ensures Flush(cfg, s).headings == s.headings
  {
    if s.pending != [] {
      AtomsSnoc(s.plans, TextPlan(s.run, s.section, Titles(s.headings), s.overlap, s.prefix, s.pending));
    }
    assert PieceAtoms(Titles(s.headings), []) == [];
    assert AtomsOf(s.plans) + [] == AtomsOf(s.plans);
  }

  lemma {:induction false} PieceAtomsSnoc(path: seq<string>, pieces: seq<Piece>, p: Piece)
    ensures PieceAtoms(path, pieces + [p]) == PieceAtoms(path, pieces) + [TextAtom(path, p.text, p.page)]
  {
    MapSnoc((p: Piece) => TextAtom(path, p.text, p.page), pieces, p);
  }

  lemma {:induction false} TextPiecesSnoc(path: seq<string>, texts: seq<string>, text: string, page: Option<int>)
    ensures TextPieces(path, texts + [text], page) == TextPieces(path, texts, page) + [TextAtom(path, text, page)]
  {
    MapSnoc((t: string) => TextAtom(path, t, page), texts, text);
  }

  /** Another pending piece is one more atom held. */
  lemma {:induction false} PendingHolds(s: State, p: Piece)
    ensures Held(s.(pending := s.pending + [p])) == Held(s) + [TextAtom(Titles(s.headings), p.text, p.page)]
  {
    var path := Titles(s.headings);
    PieceAtomsSnoc(path, s.pending, p);
    Regroup(AtomsOf(s.plans), PieceAtoms(path, s.pending), [TextAtom(path, p.text, p.page)]);
  }

  lemma {:induction false} PutPieceHolds(cfg: Config, s: State, p: Piece)
    ensures Held(PutPiece(cfg, s, p)) == Held(s) + [TextAtom(Titles(s.headings), p.text, p.page)]
    ensures PutPiece(cfg, s, p).headings == s.headings
  {
    FlushHolds(cfg, s);
    PendingHolds(FlushIfFull(cfg, s, p.text), p);
  }

  lemma {:induction false} PutPiecesHolds(cfg: Config, s: State, texts: seq<string>, page: Option<int>)
    ensures Held(PutPieces(cfg, s, texts, page)) == Held(s) + TextPieces(Titles(s.headings), texts, page)
  {
    if texts == [] {
      assert Held(s) + [] == Held(s);
    } else {
      var n := |texts| - 1;
      PutPiecesHolds(cfg, s, texts[..n], page);
      LastPieceHolds(cfg, s, texts, page);
      LastPieceAtom(Held(s), Titles(s.headings), texts, page);
    }
  }

  lemma {:induction false} LastPieceHolds(cfg: Config, s: State, texts: seq<string>, page: Option<int>)
    requires texts != []
    ensures var n := |texts| - 1;
            Held(PutPieces(cfg, s, texts, page))
            == Held(PutPieces(cfg, s, texts[..n], page)) + [TextAtom(Titles(s.headings), texts[n], page)]
  {
    var n := |texts| - 1;
    PutPiecesKeepsContext(cfg, s, texts[..n], page);
    PutPieceHolds(cfg, PutPieces(cfg, s, texts[..n], page), Piece(texts[n], page));
  }

  lemma {:induction false} LastPieceAtom(before: seq<Atom>, path: seq<string>, texts: seq<string>, page: Option<int>)
    requires texts != []
    ensures var n := |texts| - 1;
            before + TextPieces(path, texts, page)
            == (before + TextPieces(path, texts[..n], page)) + [TextAtom(path, texts[n], page)]
  {
    var n := |texts| - 1;
    assert texts == texts[..n] + [texts[n]];
    TextPiecesSnoc(path, texts[..n], texts[n], page);
    Regroup(before, TextPieces(path, texts[..n], page), [TextAtom(path, texts[n], page)]);
  }

  lemma {:induction false} AtomsAppend(plans: seq<Plan>, more: seq<Plan>)
    ensures AtomsOf(plans + more) == AtomsOf(plans) + AtomsOf(more)
  {
    if more == [] {
      assert plans + more == plans && AtomsOf(plans) + [] == AtomsOf(plans);
    } else {
      var init, last := more[..|more| - 1], more[|more| - 1];
      assert more == init + [last];
      Regroup(plans, init, [last]);
      AtomsAppend(plans, init);
      AtomsSnoc(plans + init, last);
      AtomsSnoc(init, last);
      Regroup(AtomsOf(plans), AtomsOf(init), PlanAtoms(last));
    }
  }

  lemma {:induction false} TablePiecesSnoc(path: seq<string>, texts: seq<string>, text: string, page: Option<int>)
    ensures TablePieces(path, texts + [text], page) == TablePieces(path, texts, page) + [TableAtom(path, text, page)]
  {
    MapSnoc((t: string) => TableAtom(path, t, page), texts, text);
  }

  lemma {:induction false} TablePlansHold(s: State, texts: seq<string>, page: Option<int>)
    ensures AtomsOf(TablePlans(s, texts, page)) == TablePieces(Titles(s.headings), texts, page)
  {
    if texts != [] {
      var n := |texts| - 1;
      TablePlansHold(s, texts[..n], page);
      assert texts == texts[..n] + [texts[n]];
      TablePlansSnoc(s, texts[..n], texts[n], page);
      TablePiecesSnoc(Titles(s.headings), texts[..n], texts[n], page);
      AtomsSnoc(TablePlans(s, texts[..n], page), TablePlan(s.run + 1, s.section, Titles(s.headings), texts[n], page));
    }
  }

  lemma {:induction false} NoPieces(path: seq<string>)
    ensures PieceAtoms(path, []) == []
  {
  }

  lemma {:induction false} HeadingHolds(cfg: Config, s: State, b: Block)
    ensures Held(StartSection(cfg, s, b)) == Held(s)
  {
    FlushHolds(cfg, s);
    NoPieces(Titles(StartSection(cfg, s, b).headings));
    assert Held(s) + [] == Held(s);
  }

  lemma {:induction false} TableHolds(cfg: Config, s: State, b: Block)
    ensures Held(AddTable(cfg, s, b))
        == Held(s) + TablePieces(Titles(s.headings), TableRow.PackTable(b.rows, cfg.target), b.page)
  {
    var t := Flush(cfg, s);
    FlushHolds(cfg, s);
    TablePlansHold(t, TableRow.PackTable(b.rows, cfg.target), b.page);
    AtomsAppend(t.plans, TablePlans(t, TableRow.PackTable(b.rows, cfg.target), b.page));
    NoPieces(Titles(t.headings));
    assert AtomsOf(AddTable(cfg, s, b).plans) + [] == AtomsOf(AddTable(cfg, s, b).plans);
  }

  lemma {:induction false} StepHolds(cfg: Config, s: State, before: seq<Block>, b: Block)
    requires s.headings == HeadingsInForce(before)
    ensures Held(Step(cfg, s, b)) == Held(s) + BlockAtoms(cfg, before, b)
  {
    match b.kind {
      case Heading =>
        HeadingHolds(cfg, s, b);
        assert Held(s) + [] == Held(s);
      case Table => TableHolds(cfg, s, b);
      case _ => PutPiecesHolds(cfg, s, SplitToLimit(b.text, cfg.target), b.page);
    }
  }

  lemma {:induction false} RunHolds(cfg: Config, blocks: seq<Block>)
    ensures Held(Run(cfg, blocks)) == DocumentAtoms(cfg, blocks)
  {
    if blocks == [] {
      assert PieceAtoms(Titles([]), []) == [];
    } else {
      var n := |blocks| - 1;
      RunHolds(cfg, blocks[..n]);
      StackIsHeadingsInForce(cfg, blocks[..n]);
      StepHolds(cfg, Run(cfg, blocks[..n]), blocks[..n], blocks[n]);
    }
  }

  /**
   * Conservation: without overlaps and heading prefixes the chunks hold, in order, exactly the
   * pieces of the text blocks and the packed texts of the tables, nothing lost and nothing
   * repeated, each under the headings in force where its block stands.
   */
  lemma {:induction false} ContentIsConserved(cfg: Config, blocks: seq<Block>)
    ensures AtomsOf(Plans(cfg, blocks)) == DocumentAtoms(cfg, blocks)
  {
    RunHolds(cfg, blocks);
    FlushHolds(cfg, Run(cfg, blocks));
  }

  function TextOfAtoms(atoms: seq<Atom>): string {
    if atoms == [] then ""
    else TextOfAtoms(atoms[..|atoms| - 1]) + (var a := atoms[|atoms| - 1]; if a.TextAtom? then a.text else "")
  }

  function TextOfBlocks(blocks: seq<Block>): string {
    if blocks == [] then ""
    else var b := blocks[|blocks| - 1];
         TextOfBlocks(blocks[..|blocks| - 1]) + if b.kind in {Heading, Table} then "" else b.text
  }

  lemma {:induction false} TextOfAtomsAppend(atoms: seq<Atom>, more: seq<Atom>)
    ensures TextOfAtoms(atoms + more) == TextOfAtoms(atoms) + TextOfAtoms(more)
  {
    if more == [] {
      assert atoms + more == atoms;
    } else {
      TextOfAtomsAppend(atoms, more[..|more| - 1]);
      assert (atoms + more)[..|atoms| + |more| - 1] == atoms + more[..|more| - 1];
    }
  }

  lemma {:induction false} TextOfTextPieces(path: seq<string>, texts: seq<string>, page: Option<int>)
    ensures TextOfAtoms(TextPieces(path, texts, page)) == Concat(texts)
  {
    if texts != [] {
      var n := |texts| - 1;
      TextOfTextPieces(path, texts[..n], page);
      assert TextPieces(path, texts, page)[..n] == TextPieces(path, texts[..n], page);
      assert texts == texts[..n] + [texts[n]];
      ConcatAppend(texts[..n], [texts[n]]);
      assert Concat([texts[n]]) == texts[n] + "" == texts[n];
    }
  }

  lemma {:induction false} TextOfTablePieces(path: seq<string>, texts: seq<string>, page: Option<int>)
    ensures TextOfAtoms(TablePieces(path, texts, page)) == ""
  {
    if texts != [] {
      var n := |texts| - 1;
      TextOfTablePieces(path, texts[..n], page);
      assert TablePieces(path, texts, page)[..n] == TablePieces(path, texts[..n], page);
    }
  }

  lemma {:induction false} TextOfDocumentAtoms(cfg: Config, blocks: seq<Block>)
    ensures TextOfAtoms(DocumentAtoms(cfg, blocks)) == TextOfBlocks(blocks)
  {
    if blocks != [] {
      var n := |blocks| - 1;
      var b, path := blocks[n], Titles(HeadingsInForce(blocks[..n]));
      TextOfDocumentAtoms(cfg, blocks[..n]);
      TextOfAtomsAppend(DocumentAtoms(cfg, blocks[..n]), BlockAtoms(cfg, blocks[..n], b));
      if b.kind == Table {
        TextOfTablePieces(path, TableRow.PackTable(b.rows, cfg.target), b.page);
      } else if b.kind != Heading {
        TextOfTextPieces(path, SplitToLimit(b.text, cfg.target), b.page);
        SplitKeepsText(b.text, cfg.target);
      }
    }
  }

  /** Read without prefixes and separators, the text chunks spell out the text blocks character by character. */
  lemma {:induction false} TextIsConserved(cfg: Config, blocks: seq<Block>)
    ensures TextOfAtoms(AtomsOf(Plans(cfg, blocks))) == TextOfBlocks(blocks)
  {
    ContentIsConserved(cfg, blocks);
    TextOfDocumentAtoms(cfg, blocks);
  }
}
