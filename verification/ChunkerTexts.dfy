/** What stands in the chunks that are stored: their texts, pages, paths and numbers. */
module ChunkerTexts {
  import opened Text
  import opened Tokens
  import opened Documents
  import opened Splitting
  import opened Chunker
  import opened ChunkerContent
  import opened ChunkerLimits
  import TableRow

  /** What stands before the pieces of a text chunk, if anything. */
  function FrontOf(plan: Plan): string
    requires plan.TextPlan?
  {
    if plan.overlap != "" then plan.overlap else plan.prefix.GetOr("")
  }

  /** Two texts on lines of their own, or the one of them that is not empty. */
  function OnLines(front: string, body: string): string {
    if front == "" then body else if body == "" then front else front + "\n" + body
  }

  lemma {:induction false} ThreeOnLines(overlap: string, prefix: string, body: string)
    requires overlap == "" || prefix == ""
    ensures Join("\n", TableRow.NonEmpty([overlap, prefix, body]))
         == OnLines(if overlap != "" then overlap else prefix, body)
  {
    if body != "" {
      FrontedText(overlap, prefix, body);
    } else {
      var front := if overlap != "" then overlap else prefix;
      OnlyFront(overlap, prefix);
      assert front != "" ==> Join("\n", [front]) == front;
    }
  }

  lemma {:induction false} OnlyFront(overlap: string, prefix: string)
    requires overlap == "" || prefix == ""
    ensures TableRow.NonEmpty([overlap, prefix, ""])
         == if overlap == "" && prefix == "" then [] else [if overlap != "" then overlap else prefix]
  {
    assert [overlap, prefix, ""][1..] == [prefix, ""] && [prefix, ""][1..] == [""] && [""][1..] == [];
    assert TableRow.NonEmpty([""]) == [];
  }

  ghost predicate PlansHavePieces(plans: seq<Plan>) {
    forall i | 0 <= i < |plans| && plans[i].TextPlan? :: plans[i].pieces != []
  }

  lemma {:induction false} FlushHasPieces(cfg: Config, s: State)
    requires PlansHavePieces(s.plans)
    ensures PlansHavePieces(Flush(cfg, s).plans)
  {
  }

  lemma {:induction false} PutHasPieces(cfg: Config, s: State, texts: seq<string>, page: Option<int>)
    requires PlansHavePieces(s.plans)
    ensures PlansHavePieces(PutPieces(cfg, s, texts, page).plans)
  {
    if texts != [] {
      PutHasPieces(cfg, s, texts[..|texts| - 1], page);
      FlushHasPieces(cfg, PutPieces(cfg, s, texts[..|texts| - 1], page));
    }
  }

  lemma {:induction false} RunHasPieces(cfg: Config, blocks: seq<Block>)
    ensures PlansHavePieces(Run(cfg, blocks).plans)
  {
    if blocks != [] {
      var n := |blocks| - 1;
      var s, b := Run(cfg, blocks[..n]), blocks[n];
      RunHasPieces(cfg, blocks[..n]);
      FlushHasPieces(cfg, s);
      PutHasPieces(cfg, s, SplitToLimit(b.text, cfg.target), b.page);
    }
  }

  /**
   * The `i`-th chunk stored: a text chunk holds all the pieces of its plan, on lines of their own, after
   * the overlap or heading if it has one, and the page of its first piece; a table chunk holds the packed
   * text. Each bears its number, the cost of its own text, and the headings in force.
   */
  lemma {:induction false} ChunkHolds(cfg: Config, blocks: seq<Block>, i: nat)
    requires i < |Plans(cfg, blocks)|
    ensures |Chunk(cfg, blocks)| == |Plans(cfg, blocks)|
    ensures var plan, draft := Plans(cfg, blocks)[i], Chunk(cfg, blocks)[i];
            && draft.seq_ == i && draft.tokens == EstimateTokens(draft.text) && draft.headingPath == plan.path
            && match plan
               case TextPlan(_, _, _, _, _, pieces) =>
                 && draft.blockType == TextChunk && pieces != [] && draft.page == pieces[0].page
                 && draft.text == OnLines(FrontOf(plan), Join("\n", Texts(pieces)))
               case TablePlan(_, _, _, text, page) =>
                 draft.blockType == TableChunk && draft.text == text && draft.page == page
  {
    var plans := Plans(cfg, blocks);
    DraftAt(plans, i);
    RunHasPieces(cfg, blocks);
    FlushHasPieces(cfg, Run(cfg, blocks));
    if plans[i].TextPlan? {
      ChunksAreFronted(cfg, blocks, i);
      ThreeOnLines(plans[i].overlap, plans[i].prefix.GetOr(""), Body(plans[i].pieces));
    }
  }

  // --- all text and all tables -----------------------------------------------

  /** The texts of the chunks of one kind. */
  function TextsOfKind(drafts: seq<ChunkDraft>, kind: ChunkKind): seq<string> {
    if drafts == [] then []
    else
      var n := |drafts| - 1;
      TextsOfKind(drafts[..n], kind) + if drafts[n].blockType == kind then [drafts[n].text] else []
  }

  /** The pieces of the text chunks, chunk by chunk. */
  function PieceGroups(plans: seq<Plan>): seq<seq<string>> {
    if plans == [] then []
    else
      var n := |plans| - 1;
      PieceGroups(plans[..n]) + if plans[n].TextPlan? then [Texts(plans[n].pieces)] else []
  }

  /** What stands before them in each. */
  function Fronts(plans: seq<Plan>): seq<string> {
    if plans == [] then []
    else
      var n := |plans| - 1;
      Fronts(plans[..n]) + if plans[n].TextPlan? then [FrontOf(plans[n])] else []
  }

  /** The packed texts of all tables, in order. */
  function TableTexts(cfg: Config, blocks: seq<Block>): seq<string> {
    if blocks == [] then []
    else
      var n := |blocks| - 1;
      TableTexts(cfg, blocks[..n])
      + if blocks[n].kind == Table then TableRow.PackTable(blocks[n].rows, cfg.target) else []
  }

  function TableTextsOf(atoms: seq<Atom>): seq<string> {
    if atoms == [] then []
    else
      var n := |atoms| - 1;
      TableTextsOf(atoms[..n]) + if atoms[n].TableAtom? then [atoms[n].text] else []
  }

  /** Each text is its front and its pieces, on lines of their own. */
  predicate SpellOut(texts: seq<string>, fronts: seq<string>, groups: seq<seq<string>>) {
    && |texts| == |groups| == |fronts|
    && forall k | 0 <= k < |texts| :: texts[k] == OnLines(fronts[k], Join("\n", groups[k]))
  }

  /** The draft has the text of its plan. */
  predicate HasTextOf(draft: ChunkDraft, plan: Plan) {
    match plan
    case TextPlan(_, _, _, _, _, pieces) =>
      draft.blockType == TextChunk && draft.text == OnLines(FrontOf(plan), Join("\n", Texts(pieces)))
    case TablePlan(_, _, _, text, _) => draft.blockType == TableChunk && draft.text == text
  }

  lemma {:induction false} TextsAreSpelledOut(plans: seq<Plan>, drafts: seq<ChunkDraft>)
    requires |drafts| == |plans| && forall i | 0 <= i < |plans| :: HasTextOf(drafts[i], plans[i])
    ensures SpellOut(TextsOfKind(drafts, TextChunk), Fronts(plans), PieceGroups(plans))
  {
    if plans != [] {
      var n := |plans| - 1;
      TextsAreSpelledOut(plans[..n], drafts[..n]);
      assert HasTextOf(drafts[n], plans[n]);
    }
  }

  lemma {:induction false} TablesAreKept(plans: seq<Plan>, drafts: seq<ChunkDraft>)
    requires |drafts| == |plans| && forall i | 0 <= i < |plans| :: HasTextOf(drafts[i], plans[i])
    ensures TextsOfKind(drafts, TableChunk) == TableTextsOf(AtomsOf(plans))
  {
    if plans != [] {
      var n := |plans| - 1;
      TablesAreKept(plans[..n], drafts[..n]);
      assert plans == plans[..n] + [plans[n]] && HasTextOf(drafts[n], plans[n]);
      OnePlanMore(plans[..n], plans[n]);
    }
  }

  /** The table texts that one more plan adds. */
  lemma {:induction false} OnePlanMore(plans: seq<Plan>, plan: Plan)
    ensures TableTextsOf(AtomsOf(plans + [plan]))
         == TableTextsOf(AtomsOf(plans)) + if plan.TablePlan? then [plan.text] else []
  {
    AtomsSnoc(plans, plan);
    if plan.TablePlan? {
      var atom := TableAtom(plan.path, plan.text, plan.page);
      assert (AtomsOf(plans) + [atom])[..|AtomsOf(plans)|] == AtomsOf(plans);
    } else {
      NoTableAtoms(AtomsOf(plans), plan.path, plan.pieces);
    }
  }

  lemma {:induction false} NoTableAtoms(atoms: seq<Atom>, path: seq<string>, pieces: seq<Piece>)
    ensures TableTextsOf(atoms + PieceAtoms(path, pieces)) == TableTextsOf(atoms)
  {
    if pieces == [] {
      assert atoms + PieceAtoms(path, pieces) == atoms;
    } else {
      var init, last := pieces[..|pieces| - 1], pieces[|pieces| - 1];
      var some, atom := atoms + PieceAtoms(path, init), TextAtom(path, last.text, last.page);
      NoTableAtoms(atoms, path, init);
      assert pieces == init + [last];
      PieceAtomsSnoc(path, init, last);
      Regroup(atoms, PieceAtoms(path, init), [atom]);
      assert (some + [atom])[..|some|] == some;
    }
  }

  lemma {:induction false} TextOfPieceAtoms(path: seq<string>, pieces: seq<Piece>)
    ensures TextOfAtoms(PieceAtoms(path, pieces)) == Concat(Texts(pieces))
  {
    if pieces != [] {
      var init, last := pieces[..|pieces| - 1], pieces[|pieces| - 1];
      TextOfPieceAtoms(path, init);
      assert pieces == init + [last];
      PieceAtomsSnoc(path, init, last);
      TextsSnoc(init, last);
      ConcatAppend(Texts(init), [last.text]);
      assert Concat([last.text]) == last.text + "" == last.text;
      var atoms := PieceAtoms(path, init);
      assert (atoms + [TextAtom(path, last.text, last.page)])[..|atoms|] == atoms;
    }
  }

  /** The text of the atoms is the text of the groups. */
  lemma {:induction false} TextOfGroups(plans: seq<Plan>)
    ensures TextOfAtoms(AtomsOf(plans)) == Concat(Flatten(PieceGroups(plans)))
  {
    if plans != [] {
      var init, last := plans[..|plans| - 1], plans[|plans| - 1];
      TextOfGroups(init);
      TextOfAtomsAppend(AtomsOf(init), PlanAtoms(last));
      if last.TextPlan? {
        TextOfPieceAtoms(last.path, last.pieces);
        FlattenAppend(PieceGroups(init), [Texts(last.pieces)]);
        assert Flatten([Texts(last.pieces)]) == Texts(last.pieces) + [] == Texts(last.pieces);
        ConcatAppend(Flatten(PieceGroups(init)), Texts(last.pieces));
      } else {
        var atom := TableAtom(last.path, last.text, last.page);
        assert [atom][..0] == [];
        assert PieceGroups(plans) == PieceGroups(init);
      }
    }
  }

  lemma {:induction false} TableTextsAppend(atoms: seq<Atom>, more: seq<Atom>)
    ensures TableTextsOf(atoms + more) == TableTextsOf(atoms) + TableTextsOf(more)
  {
    if more == [] {
      assert atoms + more == atoms;
    } else {
      var n := |more| - 1;
      TableTextsAppend(atoms, more[..n]);
      assert (atoms + more)[..|atoms| + n] == atoms + more[..n];
    }
  }

  lemma {:induction false} NoTableTexts(path: seq<string>, texts: seq<string>, page: Option<int>)
    ensures TableTextsOf(TextPieces(path, texts, page)) == []
  {
    if texts != [] {
      var n := |texts| - 1;
      NoTableTexts(path, texts[..n], page);
      assert TextPieces(path, texts, page)[..n] == TextPieces(path, texts[..n], page);
    }
  }

  lemma {:induction false} AllTableTexts(path: seq<string>, texts: seq<string>, page: Option<int>)
    ensures TableTextsOf(TablePieces(path, texts, page)) == texts
  {
    if texts != [] {
      var n := |texts| - 1;
      AllTableTexts(path, texts[..n], page);
      assert TablePieces(path, texts, page)[..n] == TablePieces(path, texts[..n], page);
    }
  }

  lemma {:induction false} TableTextsOfDocument(cfg: Config, blocks: seq<Block>)
    ensures TableTextsOf(DocumentAtoms(cfg, blocks)) == TableTexts(cfg, blocks)
  {
    if blocks != [] {
      var n := |blocks| - 1;
      var b, path := blocks[n], Titles(HeadingsInForce(blocks[..n]));
      TableTextsOfDocument(cfg, blocks[..n]);
      TableTextsAppend(DocumentAtoms(cfg, blocks[..n]), BlockAtoms(cfg, blocks[..n], b));
      if b.kind == Table {
        AllTableTexts(path, TableRow.PackTable(b.rows, cfg.target), b.page);
      } else if b.kind != Heading {
        NoTableTexts(path, SplitToLimit(b.text, cfg.target), b.page);
      }
    }
  }

  /**
   * The text chunks stored spell out the text blocks: each holds, after its overlap or heading, a group of
   * pieces, one to a line, and all these pieces put together are the text of the blocks, character by
   * character. The table chunks stored are the packed texts of the tables, in order.
   */
  lemma {:induction false} ChunksSpellOutDocument(cfg: Config, blocks: seq<Block>)
    ensures var plans, drafts := Plans(cfg, blocks), Chunk(cfg, blocks);
            && SpellOut(TextsOfKind(drafts, TextChunk), Fronts(plans), PieceGroups(plans))
            && Concat(Flatten(PieceGroups(plans))) == TextOfBlocks(blocks)
            && TextsOfKind(drafts, TableChunk) == TableTexts(cfg, blocks)
  {
    var plans, drafts := Plans(cfg, blocks), Chunk(cfg, blocks);
    forall i | 0 <= i < |plans| ensures |drafts| == |plans| && HasTextOf(drafts[i], plans[i]) {
      ChunkHolds(cfg, blocks, i);
    }
    TextsAreSpelledOut(plans, drafts);
    TablesAreKept(plans, drafts);
    TextOfGroups(plans);
    TextIsConserved(cfg, blocks);
    ContentIsConserved(cfg, blocks);
    TableTextsOfDocument(cfg, blocks);
  }

  // --- headings without a level ----------------------------------------------

  /** The document with the level 1 written out wherever a block has none, or has zero. */
  function WithLevels(blocks: seq<Block>): seq<Block> {
    Map((b: Block) => if b.level.GetOr(0) == 0 then b.(level := Some(1)) else b, blocks)
  }

  lemma {:induction false} LevelsDoNotMatter(cfg: Config, blocks: seq<Block>)
    ensures Run(cfg, WithLevels(blocks)) == Run(cfg, blocks)
  {
    if blocks != [] {
      var n := |blocks| - 1;
      LevelsDoNotMatter(cfg, blocks[..n]);
      assert WithLevels(blocks)[..n] == WithLevels(blocks[..n]);
    }
  }

  /**
   * A heading without a level is chunked as one of the first level; and with the levels written out, a
   * heading is in force until a heading comes whose level is not greater.
   */
  lemma {:induction false} MissingLevelIsFirst(cfg: Config, blocks: seq<Block>, i: nat)
    requires i < |blocks|
    ensures Chunk(cfg, WithLevels(blocks)) == Chunk(cfg, blocks)
    ensures var levelled := WithLevels(blocks);
            InForce(levelled, i) <==>
              levelled[i].kind == Heading
              && forall j | i < j < |blocks| && levelled[j].kind == Heading ::
                   levelled[j].level.value > levelled[i].level.value
  {
    LevelsDoNotMatter(cfg, blocks);
    var levelled := WithLevels(blocks);
    assert forall j | 0 <= j < |blocks| :: levelled[j].level.Some? && Level(levelled[j]) == levelled[j].level.value;
  }
}
