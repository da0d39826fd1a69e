/** What passes between the parsers, the chunker and the database. */
module Documents {
  import opened Text

  datatype BlockType = Heading | Paragraph | ListItem | Table | Code

  datatype Block = Block(
    kind: BlockType, text: string, level: Option<int>, page: Option<int>, rows: Option<seq<seq<string>>>)

  datatype ChunkKind = TextChunk | TableChunk

  datatype ChunkDraft = ChunkDraft(
    seq_: nat, text: string, tokens: nat, page: Option<int>, headingPath: seq<string>, blockType: ChunkKind)
}
