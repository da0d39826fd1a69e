/** How the builder groups text pieces: greedily and optimally, between headings and tables. */
module ChunkerPacking {
  import opened Text
  import opened Tokens
  import opened Documents
  import opened Packing
  import opened Splitting
  import opened Chunker
  import opened ChunkerContent
  import TableRow

  predicate ForcesFlush(b: Block) { b.kind in {Heading, Table} }

  function RunsBefore(blocks: seq<Block>): nat {
    if blocks == [] then 0
    else RunsBefore(blocks[..|blocks| - 1]) + if ForcesFlush(blocks[|blocks| - 1]) then 1 else 0
  }

  /** The pieces of the text blocks between the `r`-th and the next heading or table. */
  function PiecesIn(cfg: Config, blocks: seq<Block>, r: nat): seq<string> {
    if blocks == [] then []
    else
      var init, b := blocks[..|blocks| - 1], blocks[|blocks| - 1];
      PiecesIn(cfg, init, r)
      + if !ForcesFlush(b) && RunsBefore(init) == r then SplitToLimit(b.text, cfg.target) else []
  }

  /** The piece groups of the text chunks of run `r`, in chunk order. */
  function GroupsIn(plans: seq<Plan>, r: nat): seq<seq<string>> {
    if plans == [] then []
    else
      var last := plans[|plans| - 1];
      GroupsIn(plans[..|plans| - 1], r) + if last.TextPlan? && last.run == r then [Texts(last.pieces)] else []
  }

  lemma {:induction false} GroupsSnoc(plans: seq<Plan>, plan: Plan, r: nat)
    ensures GroupsIn(plans + [plan], r)
         == GroupsIn(plans, r) + if plan.TextPlan? && plan.run == r then [Texts(plan.pieces)] else []
  {
    assert (plans + [plan])[..|plans|] == plans;
  }

  lemma {:induction false} TablePlansAddNoGroup(plans: seq<Plan>, s: State, texts: seq<string>, page: Option<int>,
      r: nat)
    ensures GroupsIn(plans + TablePlans(s, texts, page), r) == GroupsIn(plans, r)
  {
    if texts == [] {
      assert plans + TablePlans(s, texts, page) == plans;
    } else {
      var n := |texts| - 1;
      var some, last := TablePlans(s, texts[..n], page),
          TablePlan(s.run + 1, s.section, Titles(s.headings), texts[n], page);
      TablePlansAddNoGroup(plans, s, texts[..n], page, r);
      assert texts == texts[..n] + [texts[n]];
      TablePlansSnoc(s, texts[..n], texts[n], page);
      assert plans + (some + [last]) == (plans + some) + [last];
      GroupsSnoc(plans + some, last, r);
    }
  }

  /** Run `r` holds these pieces, packed as far as the builder has come. */
  ghost predicate PackedRun(cfg: Config, s: State, pieces: seq<string>, r: nat) {
    if r < s.run then GroupsIn(s.plans, r) == Pack(EstimateTokens, cfg.target, pieces).Groups()
    else if r == s.run then Pack(EstimateTokens, cfg.target, pieces) == Packed(GroupsIn(s.plans, r), Texts(s.pending))
    else GroupsIn(s.plans, r) == [] && pieces == []
  }

  lemma {:induction false} FlushGroups(cfg: Config, s: State, r: nat)
    ensures GroupsIn(Flush(cfg, s).plans, r)
         == if r == s.run && s.pending != [] then GroupsIn(s.plans, r) + [Texts(s.pending)] else GroupsIn(s.plans, r)
    ensures Flush(cfg, s).run == s.run && Flush(cfg, s).pending == []
  {
    GroupsSnoc(s.plans, TextPlan(s.run, s.section, Titles(s.headings), s.overlap, s.prefix, s.pending), r);
  }

  lemma {:induction false} PutPiecePacks(cfg: Config, s: State, pieces: seq<string>, p: Piece, r: nat)
    requires PackedRun(cfg, s, pieces, r)
    ensures PackedRun(cfg, PutPiece(cfg, s, p), if r == s.run then pieces + [p.text] else pieces, r)
  {
    FlushGroups(cfg, s, r);
    TableRow.PackSnoc(EstimateTokens, cfg.target, pieces, p.text);
    var t := PutPiece(cfg, s, p);
    assert Texts(s.pending + [p]) == Texts(s.pending) + [p.text];
    assert Texts([] + [p]) == [p.text];
    assert s.pending == [] <==> Texts(s.pending) == [];
  }

  lemma {:induction false} PutPiecesPacks(cfg: Config, s: State, pieces: seq<string>, texts: seq<string>,
      page: Option<int>, r: nat)
    requires PackedRun(cfg, s, pieces, r)
    ensures PackedRun(cfg, PutPieces(cfg, s, texts, page), if r == s.run then pieces + texts else pieces, r)
  {
    if texts == [] {
      assert pieces + texts == pieces;
    } else {
      var n := |texts| - 1;
      PutPiecesPacks(cfg, s, pieces, texts[..n], page, r);
      PutPiecesKeepsContext(cfg, s, texts[..n], page);
      PutPiecePacks(cfg, PutPieces(cfg, s, texts[..n], page), if r == s.run then pieces + texts[..n]
          else pieces, Piece(texts[n], page), r);
      assert pieces + texts == (pieces + texts[..n]) + [texts[n]];
    }
  }

  lemma {:induction false} FlushPacks(cfg: Config, s: State, pieces: seq<string>, r: nat)
    requires PackedRun(cfg, s, pieces, r) && r <= s.run
    ensures GroupsIn(Flush(cfg, s).plans, r) == Pack(EstimateTokens, cfg.target, pieces).Groups()
  {
    FlushGroups(cfg, s, r);
    assert s.pending == [] <==> Texts(s.pending) == [];
  }

  lemma {:induction false} StepPacks(cfg: Config, s: State, pieces: seq<string>, b: Block, r: nat)
    requires PackedRun(cfg, s, pieces, r)
    ensures var more := if !ForcesFlush(b) && r == s.run then SplitToLimit(b.text, cfg.target) else [];
            PackedRun(cfg, Step(cfg, s, b), pieces + more, r)
    ensures Step(cfg, s, b).run == s.run + if ForcesFlush(b) then 1 else 0
  {
    assert pieces + [] == pieces;
    if ForcesFlush(b) {
      FlushGroups(cfg, s, r);
      if r <= s.run { FlushPacks(cfg, s, pieces, r); }
      var t := Flush(cfg, s);
      TablePlansAddNoGroup(t.plans, t, TableRow.PackTable(b.rows, cfg.target), b.page, r);
      assert Texts([]) == [];
    } else {
      PutPiecesPacks(cfg, s, pieces, SplitToLimit(b.text, cfg.target), b.page, r);
      PutPiecesKeepsContext(cfg, s, SplitToLimit(b.text, cfg.target), b.page);
    }
  }

  lemma {:induction false} RunPacks(cfg: Config, blocks: seq<Block>, r: nat)
    ensures PackedRun(cfg, Run(cfg, blocks), PiecesIn(cfg, blocks, r), r) && Run(cfg, blocks).run == RunsBefore(blocks)
  {
    if blocks == [] {
      assert Texts([]) == [];
    } else {
      var init, b := blocks[..|blocks| - 1], blocks[|blocks| - 1];
      RunPacks(cfg, init, r);
      StepPacks(cfg, Run(cfg, init), PiecesIn(cfg, init, r), b, r);
    }
  }

  /** Between two forced flushes the chunks are the greedy packing of the pieces between them. */
  lemma {:induction false} RunsArePackedGreedily(cfg: Config, blocks: seq<Block>, r: nat)
    requires r <= RunsBefore(blocks)
    ensures GroupsIn(Plans(cfg, blocks), r) == Pack(EstimateTokens, cfg.target, PiecesIn(cfg, blocks, r)).Groups()
  {
    RunPacks(cfg, blocks, r);
    FlushPacks(cfg, Run(cfg, blocks), PiecesIn(cfg, blocks, r), r);
  }

  /** No other in-order grouping of those pieces whose groups fit the target needs fewer chunks. */
  lemma {:induction false} ChunkCountIsMinimal(cfg: Config, blocks: seq<Block>, r: nat, groups: seq<seq<string>>)
    requires r <= RunsBefore(blocks) && Grouping(EstimateTokens, cfg.target, groups, PiecesIn(cfg, blocks, r))
    ensures |GroupsIn(Plans(cfg, blocks), r)| <= |groups|
  {
    RunsArePackedGreedily(cfg, blocks, r);
    GreedyIsOptimal(EstimateTokens, cfg.target, PiecesIn(cfg, blocks, r), groups);
  }
}
