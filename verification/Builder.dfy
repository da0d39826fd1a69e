/** The mutable chunk builder. Its fields always show the chunk plans made so far by module Chunker. */
module Builder {
  import opened Text
  import opened Tokens
  import opened Documents
  import opened Packing
  import opened Splitting
  import C = Chunker
  import opened TableRow

  /** The builder's fields. */
  datatype Fields = Fields(drafts: seq<ChunkDraft>, headings: seq<C.Entry>, pending: seq<string>, pendingTokens: nat,
                           pendingPage: Option<int>, sectionPrefix: Option<string>, overlap: string)

  /** What the fields must hold to stand for the state `s`. */
  function FieldsOf(s: C.State): Fields {
    Fields(C.Drafts(s.plans), s.headings, C.Texts(s.pending), Weight(EstimateTokens, C.Texts(s.pending)),
           if s.pending == [] then None else s.pending[0].page, s.prefix, s.overlap)
  }

  class Builder {
    const cfg: C.Config
    var drafts: seq<ChunkDraft>
    var headings: seq<C.Entry>
    var pending: seq<string>
    var pendingTokens: nat
    var pendingPage: Option<int>
    var sectionPrefix: Option<string>
    var overlap: string

    /** The plans, headings and pending pieces that the fields stand for. */
    ghost var state: C.State

    function Current(): Fields
      reads this
    {
      Fields(drafts, headings, pending, pendingTokens, pendingPage, sectionPrefix, overlap)
    }

    ghost predicate Valid()
      reads this
    {
      Current() == FieldsOf(state)
    }

    constructor (cfg: C.Config)
      ensures Valid() && this.cfg == cfg && state == C.INITIAL
    {
      this.cfg := cfg;
      drafts, headings, pending, pendingTokens, pendingPage := [], [], [], 0, None;
      sectionPrefix, overlap := None, "";
      state := C.INITIAL;
    }

    method Emit(text: string, blockType: ChunkKind, page: Option<int>)
      modifies this`drafts
      ensures drafts == old(drafts)
        + [ChunkDraft(|old(drafts)|, text, EstimateTokens(text), page, C.Titles(headings), blockType)]
    {
      drafts := drafts + [ChunkDraft(|drafts|, text, EstimateTokens(text), page, C.Titles(headings), blockType)];
    }

    method Flush()
      requires Valid()
      modifies this
      ensures Valid() && state == C.Flush(cfg, old(state))
    {
      if pending == [] {
        return;
      }
      FlushShows(cfg, state);
      var body, text := PendingText();
      Emit(text, TextChunk, pendingPage);
      sectionPrefix := None;
      overlap := TakeTail(body, cfg.overlap);
      pending := [];
      pendingTokens := 0;
      pendingPage := None;
      state := C.Flush(cfg, state);
    }

    /** What a chunk made now would hold. */
    method PendingText() returns (body: string, text: string)
      requires Valid() && pending != []
      ensures body == C.Body(state.pending) && text == C.TextOf(C.NextPlan(state))
    {
      body := Join("\n", pending);
      text := Join("\n", NonEmpty([overlap, sectionPrefix.GetOr(""), body]));
    }

    method StartSection(block: Block)
      requires Valid()
      modifies this
      ensures Valid() && state == C.StartSection(cfg, old(state), block)
    {
      Flush();
      var level := C.Level(block);
      PopHeadings(level);
      headings := headings + [C.Entry(level, block.text)];
      sectionPrefix := Some(block.text);
      overlap := "";
      state := C.StartSection(cfg, old(state), block);
    }

    /** The loop that closes the headings of this level and below. */
    method PopHeadings(level: int)
      modifies this`headings
      ensures headings == C.PopTo(old(headings), level)
    {
      while headings != [] && headings[|headings| - 1].level >= level
        invariant C.PopTo(headings, level) == C.PopTo(old(headings), level)
        decreases |headings|
      {
        headings := headings[..|headings| - 1];
      }
    }

    method AddText(block: Block)
      requires Valid()
      modifies this
      ensures Valid() && state == C.AddText(cfg, old(state), block)
    {
      var pieces := SplitToLimit(block.text, cfg.target);
      for k := 0 to |pieces|
        invariant Valid() && state == C.PutPieces(cfg, old(state), pieces[..k], block.page)
      {
        assert pieces[..k + 1][..k] == pieces[..k];
        AddPiece(pieces[k], block.page);
      }
      assert pieces[..|pieces|] == pieces;
    }

    /** The body of the loop over a block's pieces. */
    method AddPiece(piece: string, page: Option<int>)
      requires Valid()
      modifies this
      ensures Valid() && state == C.PutPiece(cfg, old(state), C.Piece(piece, page))
    {
      FlushIfFull(piece);
      PieceAdded(state, C.Piece(piece, page));
      if pending == [] {
        pendingPage := page;
      }
      pending := pending + [piece];
      pendingTokens := pendingTokens + EstimateTokens(piece);
      state := state.(pending := state.pending + [C.Piece(piece, page)]);
    }

    method FlushIfFull(piece: string)
      requires Valid()
      modifies this
      ensures Valid() && state == C.FlushIfFull(cfg, old(state), piece)
    {
      FullWhen(cfg, state, piece);
      if pending != [] && pendingTokens + EstimateTokens(piece) > cfg.target {
        Flush();
      }
    }

    method AddTable(block: Block)
      requires Valid()
      modifies this
      ensures Valid() && state == C.AddTable(cfg, old(state), block)
    {
      Flush();
      var texts := PackTableBlock(block.rows, cfg.target);
      EmitTexts(texts, block.page);
      overlap := "";
      state := C.AddTable(cfg, old(state), block);
    }

    /** The loop over a table's packed texts. */
    method EmitTexts(texts: seq<string>, page: Option<int>)
      requires Valid()
      modifies this`drafts
      ensures Current() == FieldsOf(WithTexts(state, texts, page))
    {
      assert state.plans + [] == state.plans;
      ghost var s := state;
      for k := 0 to |texts|
        invariant Current() == FieldsOf(WithTexts(s, texts[..k], page))
      {
        TableTextAdded(s, texts, k, page);
        Emit(texts[k], TableChunk, page);
      }
      assert texts[..|texts|] == texts;
    }

    method Finish() returns (r: seq<ChunkDraft>)
      requires Valid()
      modifies this
      ensures r == C.Drafts(C.Flush(cfg, old(state)).plans)
    {
      Flush();
      r := drafts;
    }
  }

  /** What flushing writes to the fields. */
  lemma {:induction false} FlushShows(cfg: C.Config, s: C.State)
    requires s.pending != []
    ensures var text := C.TextOf(C.NextPlan(s));
            var draft := ChunkDraft(|s.plans|, text, EstimateTokens(text), s.pending[0].page, C.Titles(s.headings),
                TextChunk);
            FieldsOf(C.Flush(cfg, s))
            == Fields(C.Drafts(s.plans) + [draft], s.headings, [], 0, None, None,
                TailWithin(C.Body(s.pending), cfg.overlap))
  {
    C.DraftsSnoc(s.plans, C.NextPlan(s));
  }

  /** The state with chunks for the first few texts of a table. */
  ghost function WithTexts(s: C.State, texts: seq<string>, page: Option<int>): C.State {
    s.(plans := s.plans + C.TablePlans(s, texts, page))
  }

  /** The draft that one more of the texts adds. */
  lemma {:induction false} TableTextAdded(s: C.State, texts: seq<string>, k: nat, page: Option<int>)
    requires k < |texts|
    ensures var f := FieldsOf(WithTexts(s, texts[..k], page));
            var draft := ChunkDraft(|f.drafts|, texts[k], EstimateTokens(texts[k]), page, C.Titles(s.headings),
                TableChunk);
            FieldsOf(WithTexts(s, texts[..k + 1], page)) == f.(drafts := f.drafts + [draft])
  {
    var before, plan := C.TablePlans(s, texts[..k], page),
        C.TablePlan(s.run + 1, s.section, C.Titles(s.headings), texts[k], page);
    assert texts[..k + 1] == texts[..k] + [texts[k]];
    C.TablePlansSnoc(s, texts[..k], texts[k], page);
    Regroup(s.plans, before, [plan]);
    C.DraftsSnoc(s.plans + before, plan);
  }

  /** The fields decide whether to flush first. */
  lemma {:induction false} FullWhen(cfg: C.Config, s: C.State, text: string)
    ensures var f := FieldsOf(s);
            C.FlushIfFull(cfg, s, text)
            == if f.pending != [] && f.pendingTokens + EstimateTokens(text) > cfg.target then C.Flush(cfg, s) else s
  {
  }

  /** What one more piece does to the fields, after any flush. */
  lemma {:induction false} PieceAdded(s: C.State, piece: C.Piece)
    ensures var f := FieldsOf(s);
            FieldsOf(s.(pending := s.pending + [piece]))
            == f.(pending := f.pending + [piece.text], pendingTokens := f.pendingTokens + EstimateTokens(piece.text),
                  pendingPage := if f.pending == [] then piece.page else f.pendingPage)
  {
    C.TextsSnoc(s.pending, piece);
    WeightAppend(EstimateTokens, C.Texts(s.pending), piece.text);
  }

  /** The strategy's entry point: one pass over the blocks. */
  method ChunkDocument(cfg: C.Config, blocks: seq<Block>) returns (drafts: seq<ChunkDraft>)
    ensures drafts == C.Chunk(cfg, blocks)
  {
    var builder := new Builder(cfg);
    for k := 0 to |blocks|
      invariant fresh(builder) && builder.Valid() && builder.cfg == cfg
      invariant builder.state == C.Run(cfg, blocks[..k])
    {
      var block := blocks[k];
      assert blocks[..k + 1][..k] == blocks[..k];
      if block.kind == Heading {
        builder.StartSection(block);
      } else if block.kind == Table {
        builder.AddTable(block);
      } else {
        builder.AddText(block);
      }
    }
    assert blocks[..|blocks|] == blocks;
    drafts := builder.Finish();
  }
}
