/** What stands in front of a chunk's pieces, and how large a text chunk can become. */
module ChunkerLimits {
  import opened Text
  import opened Tokens
  import opened Documents
  import opened Packing
  import opened Splitting
  import opened Chunker
  import TableRow

  // --- overlaps and heading prefixes -----------------------------------------

  /** The closing sentences of the previous chunk, if that is a text chunk of the same run. */
  function OverlapInto(cfg: Config, plans: seq<Plan>, run: nat): string {
    if plans == [] then ""
    else
      var last := plans[|plans| - 1];
      if last.TextPlan? && last.run == run then TailWithin(Join("\n", Texts(last.pieces)), cfg.overlap) else ""
  }

  predicate SectionHasText(plans: seq<Plan>, section: nat) {
    exists i :: 0 <= i < |plans| && plans[i].TextPlan? && plans[i].section == section
  }

  /** The latest heading's title, if no text chunk of its section precedes. */
  function PrefixInto(plans: seq<Plan>, section: nat, path: seq<string>): Option<string> {
    if section > 0 && path != [] && !SectionHasText(plans, section) then Some(path[|path| - 1]) else None
  }

  /** The prefixes of chunk `i` are determined by the chunks before it. */
  predicate FrontedRight(cfg: Config, plans: seq<Plan>, i: nat)
    requires i < |plans|
  {
    plans[i].TextPlan? ==>
      && plans[i].overlap == OverlapInto(cfg, plans[..i], plans[i].run)
      && plans[i].prefix == PrefixInto(plans[..i], plans[i].section, plans[i].path)
      && (plans[i].overlap == "" || plans[i].prefix.None?)
  }

  ghost predicate PlansFronted(cfg: Config, plans: seq<Plan>, run: nat, section: nat) {
    forall i | 0 <= i < |plans| :: FrontedRight(cfg, plans, i) && plans[i].run <= run && plans[i].section <= section
  }

  ghost predicate Fronted(cfg: Config, s: State) {
    && PlansFronted(cfg, s.plans, s.run, s.section)
    && s.overlap == OverlapInto(cfg, s.plans, s.run)
    && s.prefix == PrefixInto(s.plans, s.section, Titles(s.headings))
    && (s.overlap == "" || s.prefix.None?)
    && (s.section > 0 ==> s.headings != [])
  }

  /** More chunks, each rightly fronted in its place, leave all of them so. */
  lemma {:induction false} PlansFrontedAppend(cfg: Config, plans: seq<Plan>, more: seq<Plan>, run: nat, later: nat,
      section: nat)
    requires PlansFronted(cfg, plans, run, section) && run <= later
    requires forall i | |plans| <= i < |plans + more| ::
      FrontedRight(cfg, plans + more, i) && (plans + more)[i].run <= later && (plans + more)[i].section <= section
    ensures PlansFronted(cfg, plans + more, later, section)
  {
    var all := plans + more;
    forall i | 0 <= i < |all| ensures FrontedRight(cfg, all, i) && all[i].run <= later && all[i].section <= section {
      if i < |plans| {
        assert FrontedRight(cfg, plans, i) && all[i] == plans[i] && all[..i] == plans[..i];
      }
    }
  }

  /** The chunk that a flush makes is rightly fronted. */
  lemma {:induction false} NextIsFronted(cfg: Config, s: State)
    requires Fronted(cfg, s) && s.pending != []
    ensures FrontedRight(cfg, s.plans + [NextPlan(s)], |s.plans|)
  {
    var plans := s.plans + [NextPlan(s)];
    assert plans[..|s.plans|] == s.plans && plans[|s.plans|] == NextPlan(s);
  }

  lemma {:induction false} FlushFronted(cfg: Config, s: State)
    requires Fronted(cfg, s)
    ensures Fronted(cfg, Flush(cfg, s))
  {
    if s.pending != [] {
      NextIsFronted(cfg, s);
      PlansFrontedAppend(cfg, s.plans, [NextPlan(s)], s.run, s.run, s.section);
      AfterNext(cfg, s);
    }
  }

  /** After a flush the overlap is that of the new chunk, and its section has text. */
  lemma {:induction false} AfterNext(cfg: Config, s: State)
    requires s.pending != []
    ensures var plans := s.plans + [NextPlan(s)];
            && OverlapInto(cfg, plans, s.run) == TailWithin(Body(s.pending), cfg.overlap)
            && PrefixInto(plans, s.section, Titles(s.headings)) == None
  {
    var plans := s.plans + [NextPlan(s)];
    assert plans[|s.plans|] == NextPlan(s) && SectionHasText(plans, s.section);
  }

  /** What is pending does not matter. */
  lemma {:induction false} PendingIsFree(cfg: Config, s: State, pending: seq<Piece>)
    requires Fronted(cfg, s)
    ensures Fronted(cfg, s.(pending := pending))
  {
  }

  lemma {:induction false} PutPieceFronted(cfg: Config, s: State, p: Piece)
    requires Fronted(cfg, s)
    ensures Fronted(cfg, PutPiece(cfg, s, p))
  {
    FlushFronted(cfg, s);
    var t := FlushIfFull(cfg, s, p.text);
    PendingIsFree(cfg, t, t.pending + [p]);
  }

  lemma {:induction false} PutPiecesFronted(cfg: Config, s: State, texts: seq<string>, page: Option<int>)
    requires Fronted(cfg, s)
    ensures Fronted(cfg, PutPieces(cfg, s, texts, page))
  {
    if texts != [] {
      PutPiecesFronted(cfg, s, texts[..|texts| - 1], page);
      PutPieceFronted(cfg, PutPieces(cfg, s, texts[..|texts| - 1], page), Piece(texts[|texts| - 1], page));
    }
  }

  lemma {:induction false} SectionStarts(cfg: Config, s: State, b: Block)
    requires Fronted(cfg, s)
    ensures Fronted(cfg, StartSection(cfg, s, b))
  {
    FlushFronted(cfg, s);
    SectionAfterFlush(cfg, Flush(cfg, s), PopTo(Flush(cfg, s).headings, Level(b)), Entry(Level(b), b.text));
  }

  /** A heading starts a section that has no text yet, and forgets the overlap. */
  lemma {:induction false} SectionAfterFlush(cfg: Config, t: State, headings: seq<Entry>, e: Entry)
    requires Fronted(cfg, t)
    ensures Fronted(cfg, t.(headings := headings + [e], prefix := Some(e.title), overlap := "",
                            run := t.run + 1, section := t.section + 1))
  {
    var path := Titles(headings + [e]);
    assert path[|path| - 1] == e.title;
    assert !SectionHasText(t.plans, t.section + 1);
  }

  lemma {:induction false} TextlessAppend(plans: seq<Plan>, more: seq<Plan>, section: nat)
    requires forall i | 0 <= i < |more| :: more[i].TablePlan?
    ensures SectionHasText(plans + more, section) <==> SectionHasText(plans, section)
  {
    if SectionHasText(plans, section) {
      var i :| 0 <= i < |plans| && plans[i].TextPlan? && plans[i].section == section;
      assert (plans + more)[i] == plans[i];
    }
  }

  predicate TablesOf(plans: seq<Plan>, run: nat, section: nat) {
    forall i | 0 <= i < |plans| :: plans[i].TablePlan? && plans[i].run == run && plans[i].section == section
  }

  lemma {:induction false} TableAdded(cfg: Config, t: State, tables: seq<Plan>)
    requires Fronted(cfg, t)
    requires TablesOf(tables, t.run + 1, t.section)
    ensures Fronted(cfg, t.(plans := t.plans + tables, overlap := "", run := t.run + 1))
  {
    TextlessAppend(t.plans, tables, t.section);
    var all := t.plans + tables;
    forall i | |t.plans| <= i < |all|
      ensures FrontedRight(cfg, all, i) && all[i].run <= t.run + 1 && all[i].section <= t.section
    {
      assert all[i] == tables[i - |t.plans|];
    }
    PlansFrontedAppend(cfg, t.plans, tables, t.run, t.run + 1, t.section);
    NoOverlapAfter(cfg, t.plans, tables, t.run);
  }

  /** Once the run is over, nothing overlaps into what comes next. */
  lemma {:induction false} NoOverlapAfter(cfg: Config, plans: seq<Plan>, tables: seq<Plan>, run: nat)
    requires forall i | 0 <= i < |plans| :: plans[i].run <= run
    requires forall i | 0 <= i < |tables| :: tables[i].TablePlan?
    ensures OverlapInto(cfg, plans + tables, run + 1) == ""
  {
    var all := plans + tables;
    if all != [] {
      var n := |all| - 1;
      assert all[n] == if n < |plans| then plans[n] else tables[n - |plans|];
    }
  }

  lemma {:induction false} TablePlansAre(t: State, texts: seq<string>, page: Option<int>)
    ensures TablesOf(TablePlans(t, texts, page), t.run + 1, t.section)
  {
  }

  lemma {:induction false} TableStarts(cfg: Config, s: State, b: Block)
    requires Fronted(cfg, s)
    ensures Fronted(cfg, AddTable(cfg, s, b))
  {
    var t, texts := Flush(cfg, s), TableRow.PackTable(b.rows, cfg.target);
    FlushFronted(cfg, s);
    TablePlansAre(t, texts, b.page);
    TableAdded(cfg, t, TablePlans(t, texts, b.page));
  }

  lemma {:induction false} StepFronted(cfg: Config, s: State, b: Block)
    requires Fronted(cfg, s)
    ensures Fronted(cfg, Step(cfg, s, b))
  {
    match b.kind
    case Heading => SectionStarts(cfg, s, b);
    case Table => TableStarts(cfg, s, b);
    case _ => PutPiecesFronted(cfg, s, SplitToLimit(b.text, cfg.target), b.page);
  }

  lemma {:induction false} RunFronted(cfg: Config, blocks: seq<Block>)
    ensures Fronted(cfg, Run(cfg, blocks))
  {
    if blocks != [] {
      RunFronted(cfg, blocks[..|blocks| - 1]);
      StepFronted(cfg, Run(cfg, blocks[..|blocks| - 1]), blocks[|blocks| - 1]);
    } else {
      assert Titles([]) == [];
    }
  }

  /**
   * An overlap comes only from the text chunk just before, with no heading or table in between; a
   * heading prefixes exactly the first text chunk of its section; no chunk carries both.
   */
  lemma {:induction false} ChunksAreFronted(cfg: Config, blocks: seq<Block>, i: nat)
    requires i < |Plans(cfg, blocks)|
    ensures FrontedRight(cfg, Plans(cfg, blocks), i)
  {
    RunFronted(cfg, blocks);
    FlushFronted(cfg, Run(cfg, blocks));
  }

  // --- sizes -----------------------------------------------------------------

  predicate AllNonEmpty(texts: seq<string>) {
    forall i | 0 <= i < |texts| :: texts[i] != ""
  }

  predicate Sized(cfg: Config, plan: Plan) {
    plan.TextPlan? ==>
      && plan.pieces != [] && AllNonEmpty(Texts(plan.pieces))
      && Weight(EstimateTokens, Texts(plan.pieces)) <= cfg.target
  }

  ghost predicate SizedState(cfg: Config, s: State) {
    && (forall i | 0 <= i < |s.plans| :: Sized(cfg, s.plans[i]))
    && AllNonEmpty(Texts(s.pending)) && Weight(EstimateTokens, Texts(s.pending)) <= cfg.target
  }

  /** No block of text is empty: what `finalize_document` guarantees of its output. */
  predicate TextBlocksNonEmpty(blocks: seq<Block>) {
    forall i | 0 <= i < |blocks| && blocks[i].kind !in {Heading, Table} :: blocks[i].text != ""
  }

  lemma {:induction false} PutPieceSized(cfg: Config, s: State, p: Piece)
    requires SizedState(cfg, s) && p.text != "" && EstimateTokens(p.text) <= cfg.target
    ensures SizedState(cfg, PutPiece(cfg, s, p))
  {
    var t := PutPiece(cfg, s, p);
    var held := t.pending[..|t.pending| - 1];
    assert Texts(t.pending) == Texts(held) + [p.text];
    WeightAppend(EstimateTokens, Texts(held), p.text);
    assert Texts([]) == [] && Weight(EstimateTokens, []) == 0;
  }

  lemma {:induction false} PutPiecesSized(cfg: Config, s: State, texts: seq<string>, page: Option<int>)
    requires SizedState(cfg, s) && AllNonEmpty(texts)
    requires forall i | 0 <= i < |texts| :: EstimateTokens(texts[i]) <= cfg.target
    ensures SizedState(cfg, PutPieces(cfg, s, texts, page))
  {
    if texts != [] {
      var n := |texts| - 1;
      PutPiecesSized(cfg, s, texts[..n], page);
      PutPieceSized(cfg, PutPieces(cfg, s, texts[..n], page), Piece(texts[n], page));
    }
  }

  lemma {:induction false} StepSized(cfg: Config, s: State, b: Block)
    requires cfg.target >= 1 && (b.kind !in {Heading, Table} ==> b.text != "")
    requires SizedState(cfg, s) && SizedState(cfg, Flush(cfg, s))
    ensures SizedState(cfg, Step(cfg, s, b))
  {
    if b.kind !in {Heading, Table} {
      SplitKeepsText(b.text, cfg.target);
      PutPiecesSized(cfg, s, SplitToLimit(b.text, cfg.target), b.page);
    }
  }

  lemma {:induction false} FlushSized(cfg: Config, s: State)
    requires cfg.target >= 1 && SizedState(cfg, s)
    ensures SizedState(cfg, Flush(cfg, s))
  {
    assert Texts([]) == [] && Weight(EstimateTokens, []) == 0;
  }

  lemma {:induction false} RunSized(cfg: Config, blocks: seq<Block>)
    requires cfg.target >= 1 && TextBlocksNonEmpty(blocks)
    ensures SizedState(cfg, Run(cfg, blocks)) && SizedState(cfg, Flush(cfg, Run(cfg, blocks)))
  {
    if blocks == [] {
      assert Texts([]) == [] && Weight(EstimateTokens, []) == 0;
    } else {
      var n := |blocks| - 1;
      RunSized(cfg, blocks[..n]);
      StepSized(cfg, Run(cfg, blocks[..n]), blocks[n]);
      FlushSized(cfg, Run(cfg, blocks));
    }
  }

  lemma {:induction false} WeightIsSum(parts: seq<string>)
    ensures Weight(EstimateTokens, parts) == SumTokens(parts)
  {
    if parts != [] {
      var n := |parts| - 1;
      WeightIsSum(parts[..n]);
      SumTokensAppend(parts[..n], [parts[n]]);
      SumTokensOne(parts[n]);
      assert parts == parts[..n] + [parts[n]];
    }
  }

  /** A newline-joined body with text in front: the separators cost a quarter of their number, rounded up. */
  lemma {:induction false} FrontedBodyTokens(front: string, parts: seq<string>)
    requires parts != [] && AllNonEmpty(parts)
    ensures EstimateTokens(front + "\n" + Join("\n", parts)) <= EstimateTokens(front) + SumTokens(parts)
        + CeilDiv(SumTokens(parts), 4)
    ensures EstimateTokens(Join("\n", parts)) <= SumTokens(parts) + CeilDiv(SumTokens(parts), 4)
    ensures Join("\n", parts) != ""
  {
    var body := Join("\n", parts);
    JoinCounts(parts);
    TokensOfConcat(parts);
    PartsBoundedByTokens(parts);
    CjkCountAppend(front + "\n", body);
    CjkCountAppend(front, "\n");
    assert CjkCount("\n") == 0;
  }

  lemma {:induction false} FrontedText(overlap: string, prefix: string, body: string)
    requires body != "" && (overlap == "" || prefix == "")
    ensures Join("\n", TableRow.NonEmpty([overlap, prefix, body]))
         == if overlap == "" && prefix == "" then body else (if overlap == "" then prefix else overlap) + "\n" + body
  {
    assert [overlap, prefix, body][1..] == [prefix, body] && [prefix, body][1..] == [body] && [body][1..] == [];
    assert TableRow.NonEmpty([body]) == [body];
    TableRow.NonEmptySnoc([overlap, prefix], body);
    assert [overlap, prefix] + [body] == [overlap, prefix, body];
    assert [overlap, prefix][1..] == [prefix] && [prefix][1..] == [];
    var front := if overlap == "" then prefix else overlap;
    if front != "" {
      assert TableRow.NonEmpty([overlap, prefix]) == [front];
      assert ([front] + [body])[1..] == [body];
    } else {
      assert TableRow.NonEmpty([overlap, prefix]) == [];
    }
  }

  function Max(a: int, b: int): int { if a < b then b else a }

  /**
   * Every text chunk is within the target, plus the overlap budget or the heading's tokens, plus a
   * quarter of the target, rounded up, for the separators that packing does not count. It is not empty.
   */
  lemma {:induction false} TextChunksAreBounded(cfg: Config, blocks: seq<Block>, i: nat)
    requires cfg.target >= 1 && TextBlocksNonEmpty(blocks)
    requires i < |Plans(cfg, blocks)| && Plans(cfg, blocks)[i].TextPlan?
    ensures var plan := Plans(cfg, blocks)[i];
            && TextOf(plan) != ""
            && Chunk(cfg, blocks)[i].tokens
               <= cfg.target + Max(Max(cfg.overlap, 0), EstimateTokens(plan.prefix.GetOr(""))) + CeilDiv(cfg.target, 4)
  {
    RunSized(cfg, blocks);
    ChunksAreFronted(cfg, blocks, i);
    DraftAt(Plans(cfg, blocks), i);
    var plan := Plans(cfg, blocks)[i];
    assert Sized(cfg, plan) && FrontedRight(cfg, Plans(cfg, blocks), i);
    OverlapIsBounded(cfg, Plans(cfg, blocks)[..i], plan.run);
    SizedPlanIsBounded(cfg, plan);
  }

  lemma {:induction false} OverlapIsBounded(cfg: Config, plans: seq<Plan>, run: nat)
    ensures EstimateTokens(OverlapInto(cfg, plans, run)) <= Max(cfg.overlap, 0)
  {
    if plans != [] && plans[|plans| - 1].TextPlan? {
      TailWithinBudget(Body(plans[|plans| - 1].pieces), cfg.overlap);
    }
  }

  lemma {:induction false} SizedPlanIsBounded(cfg: Config, plan: Plan)
    requires plan.TextPlan? && Sized(cfg, plan)
    requires plan.overlap == "" || plan.prefix.None?
    requires EstimateTokens(plan.overlap) <= Max(cfg.overlap, 0)
    ensures TextOf(plan) != ""
    ensures EstimateTokens(TextOf(plan))
         <= cfg.target + Max(Max(cfg.overlap, 0), EstimateTokens(plan.prefix.GetOr(""))) + CeilDiv(cfg.target, 4)
  {
    var prefix := plan.prefix.GetOr("");
    var parts := Texts(plan.pieces);
    WeightIsSum(parts);
    FrontedBodyTokens(if plan.overlap == "" then prefix else plan.overlap, parts);
    FrontedText(plan.overlap, prefix, Body(plan.pieces));
  }
}
