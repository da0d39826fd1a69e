/**
 * What the chunk builder produces, as a plan for each chunk: which pieces it holds, and what is put
 * in front of them. The mutable builder is proved to follow these steps in module Builder.
 */
module Chunker {
  import opened Text
  import opened Tokens
  import opened Documents
  import opened Packing
  import opened Splitting
  import TableRow

  datatype Config = Config(target: nat, overlap: int)

  datatype Entry = Entry(level: int, title: string)

  datatype Piece = Piece(text: string, page: Option<int>)

  /**
   * `run` counts the headings and tables seen before the chunk's content, `section` the headings:
   * chunks of one run come from text blocks with neither a heading nor a table between them.
   */
  datatype Plan =
    | TextPlan(run: nat, section: nat, path: seq<string>, overlap: string, prefix: Option<string>, pieces: seq<Piece>)
    | TablePlan(run: nat, section: nat, path: seq<string>, text: string, page: Option<int>)

  datatype State = State(
    plans: seq<Plan>, headings: seq<Entry>, pending: seq<Piece>,
    prefix: Option<string>, overlap: string, run: nat, section: nat)

  const INITIAL := State([], [], [], None, "", 0, 0)

  function Texts(pieces: seq<Piece>): seq<string> { Map((p: Piece) => p.text, pieces) }

  function Titles(entries: seq<Entry>): seq<string> { Map((e: Entry) => e.title, entries) }

  function Body(pieces: seq<Piece>): string { Join("\n", Texts(pieces)) }

  function TextOf(plan: Plan): string {
    match plan
    case TextPlan(_, _, _, overlap, prefix, pieces) =>
      Join("\n", TableRow.NonEmpty([overlap, prefix.GetOr(""), Body(pieces)]))
    case TablePlan(_, _, _, text, _) => text
  }

  function PageOf(plan: Plan): Option<int> {
    match plan
    case TextPlan(_, _, _, _, _, pieces) => if pieces == [] then None else pieces[0].page
    case TablePlan(_, _, _, _, page) => page
  }

  function Draft(plan: Plan, i: nat): ChunkDraft {
    ChunkDraft(i, TextOf(plan), EstimateTokens(TextOf(plan)), PageOf(plan), plan.path,
               if plan.TextPlan? then TextChunk else TableChunk)
  }

  function Drafts(plans: seq<Plan>): (drafts: seq<ChunkDraft>)
    ensures |drafts| == |plans|
  {
    if plans == [] then []
    else var n := |plans| - 1; Drafts(plans[..n]) + [Draft(plans[n], n)]
  }

  // --- the steps -------------------------------------------------------------

  /** The chunk that the pending pieces make. */
  function NextPlan(s: State): Plan {
    TextPlan(s.run, s.section, Titles(s.headings), s.overlap, s.prefix, s.pending)
  }

  function Flush(cfg: Config, s: State): State {
    if s.pending == [] then s
    else s.(plans := s.plans + [NextPlan(s)],
            prefix := None, overlap := TailWithin(Body(s.pending), cfg.overlap), pending := [])
  }

  function Level(block: Block): int {
    if block.level.None? || block.level.value == 0 then 1 else block.level.value
  }

  function PopTo(headings: seq<Entry>, level: int): seq<Entry> {
    if headings != [] && headings[|headings| - 1].level >= level
    then PopTo(headings[..|headings| - 1], level) else headings
  }

  function StartSection(cfg: Config, s: State, block: Block): State {
    var t := Flush(cfg, s);
    t.(headings := PopTo(t.headings, Level(block)) + [Entry(Level(block), block.text)],
       prefix := Some(block.text), overlap := "", run := t.run + 1, section := t.section + 1)
  }

  function FlushIfFull(cfg: Config, s: State, text: string): State {
    if s.pending != [] && Weight(EstimateTokens, Texts(s.pending)) + EstimateTokens(text) > cfg.target
        then Flush(cfg, s) else s
  }

  function PutPiece(cfg: Config, s: State, piece: Piece): State {
    var t := FlushIfFull(cfg, s, piece.text);
    t.(pending := t.pending + [piece])
  }

  function PutPieces(cfg: Config, s: State, texts: seq<string>, page: Option<int>): State {
    if texts == [] then s
    else PutPiece(cfg, PutPieces(cfg, s, texts[..|texts| - 1], page), Piece(texts[|texts| - 1], page))
  }

  function AddText(cfg: Config, s: State, block: Block): State {
    PutPieces(cfg, s, SplitToLimit(block.text, cfg.target), block.page)
  }

  function TablePlans(s: State, texts: seq<string>, page: Option<int>): seq<Plan> {
    Map((text: string) => TablePlan(s.run + 1, s.section, Titles(s.headings), text, page), texts)
  }

  function AddTable(cfg: Config, s: State, block: Block): State {
    var t := Flush(cfg, s);
    t.(plans := t.plans + TablePlans(t, TableRow.PackTable(block.rows, cfg.target), block.page),
       overlap := "", run := t.run + 1)
  }

  function Step(cfg: Config, s: State, block: Block): State {
    match block.kind
    case Heading => StartSection(cfg, s, block)
    case Table => AddTable(cfg, s, block)
    case _ => AddText(cfg, s, block)
  }

  function Run(cfg: Config, blocks: seq<Block>): State {
    if blocks == [] then INITIAL else Step(cfg, Run(cfg, blocks[..|blocks| - 1]), blocks[|blocks| - 1])
  }

  function Plans(cfg: Config, blocks: seq<Block>): seq<Plan> { Flush(cfg, Run(cfg, blocks)).plans }

  function Chunk(cfg: Config, blocks: seq<Block>): seq<ChunkDraft> { Drafts(Plans(cfg, blocks)) }

  lemma {:induction false} TextsSnoc(pieces: seq<Piece>, piece: Piece)
    ensures Texts(pieces + [piece]) == Texts(pieces) + [piece.text]
  {
    MapSnoc((p: Piece) => p.text, pieces, piece);
  }

  lemma {:induction false} TablePlansSnoc(s: State, texts: seq<string>, text: string, page: Option<int>)
    ensures TablePlans(s, texts + [text], page)
         == TablePlans(s, texts, page) + [TablePlan(s.run + 1, s.section, Titles(s.headings), text, page)]
  {
    MapSnoc((text: string) => TablePlan(s.run + 1, s.section, Titles(s.headings), text, page), texts, text);
  }

  /** The `i`-th draft comes from the `i`-th plan, and bears its number. */
  lemma {:induction false} DraftAt(plans: seq<Plan>, i: nat)
    requires i < |plans|
    ensures Drafts(plans)[i] == Draft(plans[i], i)
  {
    if i < |plans| - 1 {
      DraftAt(plans[..|plans| - 1], i);
    }
  }

  lemma {:induction false} DraftsSnoc(plans: seq<Plan>, plan: Plan)
    ensures Drafts(plans + [plan]) == Drafts(plans) + [Draft(plan, |plans|)]
  {
    assert (plans + [plan])[..|plans|] == plans;
  }
}
