# Verification of the knowledge-base chat application

A Dafny model of the five parts of the application in which most can go wrong, with proofs of what they
promise. `dafny verify dfyconfig.toml` checks everything. Every lemma carries `{:induction false}`:
where a proof needs an induction it is written out.

**Chunking** (`Text`, `Tokens`, `Packing`, `Splitting`, `TableRow`, `Documents`, `Chunker`,
`ChunkerContent`, `ChunkerPacking`, `ChunkerLimits`, `ChunkerTexts`, `Builder`, `Blocks`, `Markdown`).
Parsed text is normalised, capped, split at sentence boundaries and packed greedily to a token target
under a heading stack. `Chunker` gives each chunk as a plan; class `Builder.Builder`, with the fields of
the program's builder, is proved to follow the plans, and the results are about the plans and the chunks
made of them: content is conserved, the stored chunks spell the document out, packing is greedy and
optimal, the heading path is the list of headings in force, and chunks are bounded in tokens.

**Ingestion** (`Ingestion`, `IngestionSafety`, `IngestionResults`, `IngestionInputs`,
`IngestionProgress`, `IngestionService`, `IngestionAttempts`, `Requests`, `Uploads`). Parse, chunk and
embed are driven by messages that may be duplicated, delayed and reordered. `Ingestion` is a transition
system whose steps are the commits and storage writes, with crashes and faults between any two of them.
Its invariant holds in every run; a ready document is complete, and a waiting one has somebody to move
it unless one of the named faults below let go of it. Class `IngestionService.IngestionService` has the
stage methods and the task shell working on mutable state; each is proved to make a run of that system,
and `IngestionAttempts` says what a whole attempt comes to. The same holds of retry and deletion in
`Requests`. `Uploads` is a second transition system, for concurrent uploads, deletions and purges, with
the upload operation proved for any interference.

**Chat** (`LlmStream`, `Prompts`, `ChatTurn`, `Sse`, `ChatClient`, `ChatEndToEnd`). The provider
adapter, the reply generator with its transactions and cancellation points, the wire format in the
subset of section 9.2 (Server-sent events) of the WHATWG HTML Living Standard that the program uses,
and the client's reducer, proved separately and then together: what the client shows after `done` is
what the database holds.

**Retrieval and paging** (`Retrieval`, `Fusion`, `Paging`). Reciprocal-rank fusion over arbitrary rankings
of the two legs, the query that computes it read as SQL, keyset pages, and the client cache built from
them.

**Refresh tokens** (`RefreshTokens`). Rotation in families, with the chain invariant over every run.

## Where the program does less than it says

- `backend/app/workers/tasks/ingest.py:9-10` says that no document is stuck in an intermediate state.
  The parse claim does not accept `parsing` (`backend/app/application/ingestion_service.py:77-78`), so a
  parse attempt whose worker dies, or that meets a transient error while retries are left, leaves the
  document in `parsing` for good: its own retry is refused, and the user's retry needs `failed`.
  `WhatStrands`, `StrandedStays`, `TransientParseErrorStrands`; the exact condition for a whole message
  is in `Consume`.
- A retry can itself be refused, and nothing then marks the stage as failed. The runner's default ceiling
  is three retries and no task overrides it (`backend/app/workers/tasks/ingest.py:97`, `107-137`,
  `backend/app/workers/celery_app.py:10-30`), so the fourth retry that `_EMBED_MAX_RETRIES = 5` promises
  is never queued, and four retryable provider errors leave the document in `embedding` with no message;
  so does a broker that does not take the message of a retry. `Consume` has the exact condition for chunk
  and embed, `FourProviderErrorsStrand` and `BusyProviderDrops` show the first case, `IdleStays` that the
  user cannot undo it.
- A worker that dies between the final commit of parse or chunk and the queueing of the next stage leaves
  the document waiting without a message. `LostEnqueueStalls`, `StalledStays`. (An error of the queueing
  that counts as retryable would do the same, because the finished stage's own claim then refuses;
  with the Redis broker such errors normally arrive as the client library's own exception, which counts
  as unforeseen and marks the stage failed.)
- `backend/app/application/document_service.py:213-214` says that no document is stuck between stages. A
  server that dies between the commit of an upload (149-162) or of a restart (198-202) and the queueing
  leaves `pending`, `chunking` or `embedding` with no message, and the user's retry is refused.
  `DeadUploadStaysPending`, `DeadRestart`. `ForgottenIff` has the exact condition under which any step
  leaves a waiting document to nobody, and `WaitingHasMessage` the guarantee for every other run.
- A retry can pick a stage whose input is unreadable: if the write of the normalised document is cut
  short by the death of a worker while a retry of the chunk stage is in flight, the chunk stage fails, and
  so does every further retry, which picks it again. `RetryWithoutInput`, `RetryOfTornRepeats`;
  `InputsAreThere` has the exact condition, `QuietRetryHasInput` and `SucceededParseMeansInput` say when it
  cannot happen.
- A ready document does not stay ready in every run: a retry request that had read `failed` earlier
  commits its entry status whatever the status is by then, and so does the failure commit after a lost
  queueing. `WhatEndsReady` gives exactly these steps, `StaleRequestUndoesReady` a run, `ReadyStays` the
  guarantee without requests in flight.
- A stored answer can be reported as an error: when the commit takes effect but its acknowledgement is
  lost, the answer is in the database and the client is told that it could not be stored.
  `DoneIffStored`, `StoredButReportedAsError`.
- An answer that arrives while an earlier page of messages is loading is overwritten in the client's cache
  (`frontend/src/features/chat/useMessages.ts:36-44` writes back the items read before its await), and
  `send` fetches nothing after `done`. `AnswerIsLost`; `LoadKeepsItemsIff` has the exact condition.
- The sentence marks of `backend/app/infrastructure/parsing/chunking/default_recursive.py:23` hold the
  ASCII question mark and semicolon twice and their full-width forms not at all. The model has the marks
  as they are.

## Assumptions

- At most one stage attempt runs per document at a time: the chunk and embed claims accept their own
  working status and `set_status` is unconditional, so the code relies on it.
- `embedding_batch_size` is at least 1 (`batch >= 1`), and where a token bound is stated, the chunk
  target is at least 1.
- In ingestion, faults come from storage, the provider, the message broker and the death of a process.
  Database errors, and soft timeouts after a final commit, do not occur there. In a chat turn every
  transaction may fail.
- Parsers give rows to table blocks and to no others, and the chunker is given finished documents, whose
  text blocks are not empty.
- Parser, chunker and embedding provider are deterministic. In module `Ingestion` they are arbitrary
  functions.
- A write of the normalised document that is cut short leaves bytes that do not parse as JSON.
- The task runner behaves as Celery documents it: without `max_retries` a task is retried at most three
  times, and a retry past that, or one whose message the broker refuses, raises out of the task.
- The row numbers of a search leg are the positions 1, 2, 3, ... of the rows it keeps, ties included.
- For the end-to-end chat results: the JSON text of each event of the turn is one line without outer
  blanks and parsing gives the event back, and the client's temporary message id is new.
- Document ids contain no slash and are new when drawn; rows of a page have distinct (time, id) keys;
  the two legs of a search rank distinct ids; a new refresh token hashes to a new value, so a row's
  position stands for its id and its hash.

## Model

| member | source | states |
|---|---|---|
| `Tokens.TokensAppend` | backend/app/infrastructure/parsing/chunking/tokens.py:17-19 | the estimate is monotone and subadditive, and joining two texts saves at most one token |
| `Tokens.TokensPositive` | backend/app/infrastructure/parsing/chunking/tokens.py:17-19 | only the empty text is free; one character costs exactly one token |
| `Tokens.TokensCount` | backend/app/infrastructure/parsing/chunking/tokens.py:17-19 | each CJK character costs one token, the others one for every four, rounded up |
| `Tokens.TokensOfSlice` | backend/app/infrastructure/parsing/chunking/tokens.py:17-19 | no part of a text costs more than the text |
| `Tokens.TokensOfJoin` | backend/app/infrastructure/parsing/chunking/tokens.py:17-19 | joining with newlines costs at most the parts plus a quarter of the separators, rounded up once |
| `Splitting.CutIsNearest` | backend/app/infrastructure/parsing/chunking/default_recursive.py:32-34 | the cut is the interior sentence boundary nearest the middle, leftmost of two; the middle only if there is none |
| `Splitting.SplitKeepsText` | backend/app/infrastructure/parsing/chunking/default_recursive.py:27-35 | the pieces concatenate to the text, each fits the target, and none is empty unless the text is |
| `Splitting.PiecesAreWholeSentencesOrForced` | backend/app/infrastructure/parsing/chunking/default_recursive.py:27-35 | every cut is at a sentence boundary, or divides an over-budget stretch that has no boundary inside |
| `Splitting.WholeSentencesSurvive` | backend/app/infrastructure/parsing/chunking/default_recursive.py:27-35 | if no unbreakable stretch exceeds the target, no sentence is ever cut |
| `Splitting.CutsAreNeeded` | backend/app/infrastructure/parsing/chunking/default_recursive.py:29-35 | every cut divides a run of consecutive pieces that together exceed the target, nearest the middle of that run; so a text within the target is not cut |
| `Splitting.SentencesCutEverywhere` | backend/app/infrastructure/parsing/chunking/default_recursive.py:42 | a text is cut into sentences at every boundary and nowhere else |
| `Splitting.SentencesKeepText` | backend/app/infrastructure/parsing/chunking/default_recursive.py:42 | cutting at every boundary loses no character |
| `Splitting.TailIsSuffix` | backend/app/infrastructure/parsing/chunking/default_recursive.py:45-50 | the overlap consists of the closing sentences, in order |
| `Splitting.TailFits` | backend/app/infrastructure/parsing/chunking/default_recursive.py:45-50 | these sentences together stay within the overlap budget |
| `Splitting.TailIsLongest` | backend/app/infrastructure/parsing/chunking/default_recursive.py:45-50 | every longer run of closing sentences is over the budget |
| `Splitting.TailWithinBudget` | backend/app/infrastructure/parsing/chunking/default_recursive.py:38-51 | the overlap text itself never costs more than the budget, and nothing for a budget of zero or less |
| `Splitting.OverlapIsLongestTail` | backend/app/infrastructure/parsing/chunking/default_recursive.py:38-51 | the overlap is the stripped text of the longest run of closing non-blank sentences the budget admits; it is empty only if there is no sentence or the last one alone exceeds the budget |
| `Splitting.TakeTail` | backend/app/infrastructure/parsing/chunking/default_recursive.py:38-51 | the backward loop computes that overlap |
| `Packing.PackIsGrouping` | backend/app/infrastructure/parsing/chunking/table_row.py:33-48 | greedy packing keeps every item in order, and each group of several items is within the limit |
| `Packing.GreedyStaysAhead` | backend/app/infrastructure/parsing/chunking/table_row.py:36-45 | any grouping that reaches past the items greedy has closed needs more groups than greedy has closed |
| `Packing.GreedyIsOptimal` | backend/app/infrastructure/parsing/chunking/table_row.py:33-48 | no in-order grouping within the limit has fewer groups than the greedy one |
| `TableRow.PackTableBlock` | backend/app/infrastructure/parsing/chunking/table_row.py:24-48 | the table packer computes the packing of the serialised rows, the header alone included |
| `TableRow.PackBody` | backend/app/infrastructure/parsing/chunking/table_row.py:33-48 | its loop computes the greedy packing of the non-empty lines |
| `TableRow.NextRow` | backend/app/infrastructure/parsing/chunking/table_row.py:36-45 | what one turn of that loop does to the packed texts, the buffer and its token count |
| `TableRow.PacksKeepLines` | backend/app/infrastructure/parsing/chunking/table_row.py:33-48 | joining the packed texts with newlines gives back every non-empty line, in order |
| `TableRow.TablePackingIsOptimal` | backend/app/infrastructure/parsing/chunking/table_row.py:33-48 | no grouping of the lines that fits the target gives fewer texts |
| `TableRow.RowWithTextGivesLine` | backend/app/infrastructure/parsing/chunking/table_row.py:16-21 | a row with a non-empty cell never serialises to nothing |
| `TableRow.LineOfColumns` | backend/app/infrastructure/parsing/chunking/table_row.py:16-21 | the line of a row is its columns with a value or a header name, all of them, in order, each with its own column's name, colon and value |
| `TableRow.HeaderAlone` | backend/app/infrastructure/parsing/chunking/table_row.py:30-31 | a table of a header alone gives the one line that the header would give as a row without names |
| `TableRow.PacksAreNotEmpty` | backend/app/infrastructure/parsing/chunking/table_row.py:24-48 | a table whose rows have text gives at least one text, and none is empty |
| `ChunkerTexts.ChunkHolds` | backend/app/infrastructure/parsing/chunking/default_recursive.py:94-119 | chunk i of any document has number i, its own token cost and the headings in force; a text chunk holds all pieces of its plan, joined by newlines, after exactly its overlap or heading and a newline, and the page of its first piece; a table chunk the packed text and the page |
| `ChunkerContent.LevelsIncrease` | backend/app/infrastructure/parsing/chunking/default_recursive.py:67-72 | the levels of the headings in force strictly increase |
| `ChunkerContent.InForceSnoc` | backend/app/infrastructure/parsing/chunking/default_recursive.py:69-72 | a further block leaves the headings in force alone; a heading closes exactly those of its level and deeper |
| `ChunkerContent.StackIsHeadingsInForce` | backend/app/infrastructure/parsing/chunking/default_recursive.py:67-74 | after any blocks the stack is exactly the headings no later heading of the same or a smaller level has closed |
| `ChunkerTexts.MissingLevelIsFirst` | backend/app/infrastructure/parsing/chunking/default_recursive.py:69 | a heading without a level, or of level zero, is chunked as one of level one; with the levels written out a heading is in force until one of the same or a smaller level |
| `ChunkerContent.ContentIsConserved` | backend/app/infrastructure/parsing/chunking/default_recursive.py:129-138 | the plans of the chunks, whose texts ChunkHolds gives, hold every piece and packed table text, in order, once, each under the headings in force and with its page |
| `ChunkerTexts.ChunksSpellOutDocument` | backend/app/infrastructure/parsing/chunking/default_recursive.py:129-138 | the text chunks produced, each without what stands before its pieces and without the newlines between them, spell out the text blocks character by character; the table chunks are the packed texts of the tables, in order |
| `ChunkerPacking.RunsArePackedGreedily` | backend/app/infrastructure/parsing/chunking/default_recursive.py:76-84 | between two headings or tables the text chunks are the greedy packing of the pieces between them |
| `ChunkerPacking.ChunkCountIsMinimal` | backend/app/infrastructure/parsing/chunking/default_recursive.py:76-84 | no other grouping of these pieces within the target needs fewer chunks |
| `ChunkerLimits.ChunksAreFronted` | backend/app/infrastructure/parsing/chunking/default_recursive.py:67-104 | an overlap comes from the text chunk just before with no heading or table between; a heading prefixes the first text chunk of its section; no chunk has both |
| `ChunkerLimits.TextChunksAreBounded` | backend/app/infrastructure/parsing/chunking/default_recursive.py:94-104 | a text chunk is not empty and within target + max(overlap budget, heading tokens) + ceil(target / 4) |
| `Builder.Builder.constructor` | backend/app/infrastructure/parsing/chunking/default_recursive.py:55-63 | the fields of a new builder stand for the initial state |
| `Builder.Builder.Flush` | backend/app/infrastructure/parsing/chunking/default_recursive.py:94-104 | performs the flush step on all seven fields; what text that gives is stated by ChunkHolds |
| `Builder.Builder.StartSection` | backend/app/infrastructure/parsing/chunking/default_recursive.py:67-74 | performs the heading step |
| `Builder.Builder.PopHeadings` | backend/app/infrastructure/parsing/chunking/default_recursive.py:70-71 | its loop pops the headings of the level and deeper |
| `Builder.Builder.AddText` | backend/app/infrastructure/parsing/chunking/default_recursive.py:76-84 | performs the text step, piece by piece |
| `Builder.Builder.AddPiece` | backend/app/infrastructure/parsing/chunking/default_recursive.py:78-84 | performs the step for one piece, flushing first when the target would be exceeded |
| `Builder.Builder.FlushIfFull` | backend/app/infrastructure/parsing/chunking/default_recursive.py:79-80 | flushes exactly when there are pending pieces and this one would exceed the target |
| `Builder.Builder.AddTable` | backend/app/infrastructure/parsing/chunking/default_recursive.py:86-90 | performs the table step |
| `Builder.Builder.EmitTexts` | backend/app/infrastructure/parsing/chunking/default_recursive.py:88-89 | one draft for each packed text, in order |
| `Builder.Builder.Finish` | backend/app/infrastructure/parsing/chunking/default_recursive.py:121-123 | returns the drafts after a last flush |
| `Builder.ChunkDocument` | backend/app/infrastructure/parsing/chunking/default_recursive.py:129-138 | the pass over the blocks produces exactly the chunks that the results above are about |
| `Blocks.NormalizedIsStable` | backend/app/infrastructure/parsing/blocks.py:20-24 | normalised text has none of the replaced characters and no outer blanks, and normalising again changes nothing |
| `Blocks.PairsAreNewlines` | backend/app/infrastructure/parsing/blocks.py:21 | a return and a newline give one newline, whatever surrounds them |
| `Blocks.ReturnsAreNewlines` | backend/app/infrastructure/parsing/blocks.py:21 | a return outside such a pair gives a newline, any other character stays, whatever surrounds it |
| `Blocks.SpacesArePlain` | backend/app/infrastructure/parsing/blocks.py:22-23 | an ideographic or no-break space gives one blank, a zero-width space nothing, any other character stays |
| `Blocks.NormalizedIsMiddle` | backend/app/infrastructure/parsing/blocks.py:20-24 | normalised text is the text so unified without its outer blanks |
| `Blocks.RowsPiecewise` | backend/app/infrastructure/parsing/blocks.py:27-29 | a row with text in some cell stays, each cell normalised, any other is dropped, whatever surrounds it |
| `Blocks.CapRows` | backend/app/infrastructure/parsing/blocks.py:32-41 | keeps as many leading rows as fit, at least one, and reports truncation exactly when rows were dropped |
| `Blocks.FinishOne` | backend/app/infrastructure/parsing/blocks.py:61-77 | one turn of the loop up to the size check |
| `Blocks.FinishKeepsLeading` | backend/app/infrastructure/parsing/blocks.py:61-77 | a block is dropped exactly if its normalised text or rows are empty; else kind, level and page stay, and what is kept is the leading part: 20 000 characters, or as many whole rows, at least one, as have that many together |
| `Blocks.FinalizeDocument` | backend/app/infrastructure/parsing/blocks.py:50-87 | fails exactly when the finished blocks together exceed the document cap, else returns them with their warnings |
| `Blocks.FinishedAreWellSized` | backend/app/infrastructure/parsing/blocks.py:61-82 | every finished block has text and is within the cap, or is a table of a single row; tables stay tables |
| `Blocks.WarningsNameTheCutBlocks` | backend/app/infrastructure/parsing/blocks.py:67-76 | the warnings name exactly the truncated blocks, by kind and index, each once and in order |
| `Blocks.ChunksHaveText` | backend/app/infrastructure/parsing/chunking/default_recursive.py:129-138 | no chunk built from a finished document is empty |
| `Markdown.OneParagraph` | backend/app/infrastructure/parsing/text.py:50-53 | lines that are not blank give exactly one paragraph, so the paragraph split in the flush never splits |
| `Markdown.FlushParagraph` | backend/app/infrastructure/parsing/text.py:50-53 | the flush turns the buffered lines into one paragraph |
| `Markdown.ParseLines` | backend/app/infrastructure/parsing/text.py:46-82 | the loop over the lines builds exactly the blocks of the line-by-line specification |
| `Markdown.Parse` | backend/app/infrastructure/parsing/text.py:44-83 | lines, blocks, finishing: the whole parser from decoded text on |
| `Markdown.LinesAreConserved` | backend/app/infrastructure/parsing/text.py:55-82 | every line inside a fence and every other line that is neither blank nor a fence lands in one block, in order; an open fence has no buffered paragraph |
| `Markdown.HeadingIff` | backend/app/infrastructure/parsing/text.py:16 | a line is a heading if and only if it is one to six hashes, blanks, and a title; level and title are then these |
| `Markdown.HeadingIsOneBlock` | backend/app/infrastructure/parsing/text.py:68-76 | such a line gives one heading block with that level and title |
| `Markdown.TextIsOneParagraph` | backend/app/infrastructure/parsing/text.py:77-82 | adjacent lines of text give one paragraph, joined by newlines |
| `Markdown.BlankIsNothing` | backend/app/infrastructure/parsing/text.py:77-79 | a blank line gives nothing |
| `Markdown.FencedIsOneBlock` | backend/app/infrastructure/parsing/text.py:56-66 | what stands between two fences, or after one to the end, gives one block of code |
| `Markdown.PartsAreIndependent` | backend/app/infrastructure/parsing/text.py:55-82 | two parts of a document give the blocks of the one and then of the other, if the first leaves no fence open and either leaves no paragraph open or the second begins with a line that ends it |
| `IngestionSafety.StepKeeps` | backend/app/application/ingestion_service.py:75-219 | every commit, crash, fault, delivery, retry, deletion and purge keeps the invariant |
| `IngestionSafety.BatchLengthensPrefix` | backend/app/infrastructure/db/repositories/chunks.py:47-79 | embedding what the cursor finds lengthens the embedded prefix by one batch; the cursor is empty exactly at the end |
| `IngestionSafety.CursorFollowsPrefix` | backend/app/infrastructure/db/repositories/chunks.py:47-57 | the cursor query returns the rows right after the embedded prefix, at most the limit |
| `IngestionSafety.ReachableIsSound` | backend/app/application/ingestion_service.py:75-219 | the invariant holds in every run |
| `IngestionResults.ReadyIsComplete` | backend/app/application/ingestion_service.py:75-204 | a ready document holds exactly chunk(parse(upload)) in order, each embedded and versioned, after exactly ceil(n / batch) batches |
| `IngestionResults.WhatEndsReady` | backend/app/application/document_service.py:192-220 | from ready, exactly a deletion and the commit of a request still in flight leave the status |
| `IngestionResults.ReadyStays` | backend/app/application/ingestion_service.py:75-219 | with no request in flight a ready document stays ready, with the same chunks, until it is deleted |
| `IngestionResults.StaleRequestUndoesReady` | backend/app/application/document_service.py:198-200 | the run in which a second retry request takes a ready document back to pending: a queueing error though the message went out, two requests, a choice, and from there no fault |
| `IngestionResults.FailureFreeRunIsReady` | backend/app/application/ingestion_service.py:75-174 | a document waiting for its parse message becomes ready, with the chunks of the parsed upload, by a run with no fault, new request or deletion among its steps |
| `IngestionInputs.InputsAreThere` | backend/app/application/document_service.py:192-202 | at every moment of every run, each stage that a message, a request or an attempt is for, or that a retry would pick, has its input if and only if it is not the chunk stage after a torn write, also when the tear came after the stage was chosen |
| `IngestionInputs.RetryIsSound` | backend/app/application/document_service.py:192-202 | so it is for the stage a retry picks, at the moment it picks it, and the entry status it will set is one the claim of that stage accepts |
| `IngestionInputs.ClaimedStageHasInput` | backend/app/application/ingestion_service.py:115-125 | and so it is when an attempt has claimed its document and goes on to read |
| `IngestionInputs.MessageIsClaimed` | backend/app/application/ingestion_service.py:178-195 | whatever has happened since it was queued, a message that comes to a document in a status its stage accepts is claimed, with the chunks kept and the input there under the same condition |
| `IngestionInputs.StoredIsLastWrite` | backend/app/application/ingestion_service.py:96 | what is stored as normalised document is what the last write or purge of the run left |
| `IngestionInputs.QuietRetryHasInput` | backend/app/application/document_service.py:192-202 | if no request is in flight while a parse attempt works, every retry of a failed document finds its input |
| `IngestionInputs.SucceededParseMeansInput` | backend/app/infrastructure/db/repositories/ingestion_jobs.py:49-66 | so it does whenever the parse job stands as succeeded |
| `IngestionInputs.RetryWithoutInput` | backend/app/application/document_service.py:197-202 | the run that does it: without faults to the chunk stage, which fails; a retry chooses that stage; an old parse message is delivered and its rewrite torn by a crash; the retry commits and its attempt fails |
| `IngestionInputs.RetryOfTornRepeats` | backend/app/application/ingestion_service.py:121-125 | every further retry of such a document ends where it began |
| `IngestionInputs.TornStays` | backend/app/application/ingestion_service.py:96 | until a parse attempt is delivered the document stays torn and no chunking succeeds |
| `IngestionResults.RetriesAreBounded` | backend/app/workers/tasks/ingest.py:93-97 | no message is ever queued with more retries than its stage allows, nor with more than the runner's ceiling of three |
| `IngestionResults.EmbeddedArePrefix` | backend/app/application/ingestion_service.py:153-170 | at every moment exactly the first min(n, j * batch) chunks are embedded after j committed batches, with the right vector and version |
| `IngestionResults.StrandedStays` | backend/app/infrastructure/db/repositories/documents.py:94-103 | a document in parsing with no running attempt and no request never leaves it except by deletion |
| `IngestionResults.WhatStrands` | backend/app/application/ingestion_service.py:77-78 | a parse attempt strands its document exactly when the worker dies or a transient error is retried |
| `IngestionResults.TransientParseErrorStrands` | backend/app/workers/tasks/ingest.py:92-97 | one transient error in the first parse attempt, in a run of four steps without any other fault, strands the document, whose retry is queued in vain |
| `IngestionResults.StalledStays` | backend/app/workers/tasks/ingest.py:92-97 | a document waiting for chunk or embed without a message stays as it is until deleted |
| `IngestionResults.LostEnqueueStalls` | backend/app/application/ingestion_service.py:101 | after the final commit the document stalls exactly if the worker dies before queueing the next message, or an error there counts as retryable, retries are left and the message is lost |
| `IngestionResults.WaitingCanFinish` | backend/app/application/ingestion_service.py:105-174 | a document with a chunk or embed message it waits for can still become ready; a torn one by having the parse message delivered once more |
| `IngestionProgress.OutstandingIsSent` | backend/app/workers/tasks/ingest.py:107-137 | the messages queued and not yet delivered are among those sent, and every message sent is outstanding or has been delivered |
| `IngestionProgress.StepAttends` | backend/app/workers/tasks/ingest.py:78-104 | a step that lets go of no attempt or request leaves every waiting document a message of its stage, a request about to queue one, or an attempt that will take it on |
| `IngestionProgress.ForgottenIff` | backend/app/workers/tasks/ingest.py:78-104 | a step takes all three away if and only if it is one of the named four (a death, a dead request, a retry refused or too late, a lost queueing that counts as retryable) and nobody else is there for that stage |
| `IngestionProgress.WaitingHasMessage` | backend/app/workers/tasks/ingest.py:9-10 | in every run without such steps, however it interleaves, a document in an entry status with no attempt running has a message of that stage outstanding or a request about to queue one |
| `IngestionProgress.WaitingCanStillFinish` | backend/app/workers/tasks/ingest.py:9-10 | and with no request in flight that message can take it to ready |
| `IngestionProgress.DeadRestart` | backend/app/application/document_service.py:198-202 | a server that dies between the commit of a restart and its queueing leaves an entry status with nothing queued for it |
| `IngestionProgress.DeadUploadStaysPending` | backend/app/application/document_service.py:149-162 | an upload whose server dies before the queueing is pending until it is deleted |
| `IngestionSafety.ReachableHasProvenance` | backend/app/application/ingestion_service.py:75-97 | a normalised document comes from a parsable upload and a parse message that was queued |
| `IngestionResults.IdleStays` | backend/app/application/document_service.py:242-245 | in a working status with no attempt and no request, only the delivery of an old message or deletion moves a document |
| `IngestionResults.FourProviderErrorsStrand` | backend/app/workers/tasks/ingest.py:92-97 | a faultless run to the embed stage and then four attempts, each ended by a retryable error whose retry the broker takes, leave the document in embedding with every message consumed |
| `IngestionService.BusyProviderDrops` | backend/app/workers/tasks/ingest.py:40 | with a provider that is always busy and a broker that takes everything, the document is dropped at the runner's ceiling, two short of the stage's limit |
| `IngestionService.IngestionService.ClaimStage` | backend/app/application/ingestion_service.py:178-195 | the conditional claim and the job row, in one commit |
| `IngestionService.IngestionService.SucceedParse` | backend/app/application/ingestion_service.py:197-204 | the commit that ends parsing |
| `IngestionService.IngestionService.SucceedEmbed` | backend/app/application/ingestion_service.py:197-204 | the commit that makes the document ready |
| `IngestionService.IngestionService.ReplaceChunksAndSucceed` | backend/app/infrastructure/db/repositories/chunks.py:23-45 | old chunks out, new ones in, and the status on, as one commit |
| `IngestionService.IngestionService.CommitBatch` | backend/app/infrastructure/db/repositories/chunks.py:70-79 | embeds the rows of the batch and no others |
| `IngestionService.IngestionService.PutNormalized` | backend/app/application/ingestion_service.py:96 | the write of the normalised document, whole or torn |
| `IngestionService.IngestionService.EnqueueNext` | backend/app/application/ingestion_service.py:135 | queues the next stage's message |
| `IngestionService.IngestionService.Fail` | backend/app/application/ingestion_service.py:206-219 | the failure commit; a deleted document is left alone |
| `IngestionService.IngestionService.Parse` | backend/app/application/ingestion_service.py:75-101 | the parse method makes exactly the commits of its script, a run of the protocol, for all faults |
| `IngestionService.IngestionService.Chunk` | backend/app/application/ingestion_service.py:105-135 | the same for the chunk method; when it returns the document is no longer in chunking |
| `IngestionService.IngestionService.Embed` | backend/app/application/ingestion_service.py:146-174 | the same for the embed method, for every answer of the provider, unforeseen ones included; when it returns the document is no longer in embedding |
| `IngestionService.IngestionService.EmbedBatches` | backend/app/application/ingestion_service.py:156-172 | the loop ends, batch by batch, in ready, in a failure, or in a raised error |
| `IngestionService.BatchMakesProgress` | backend/app/application/ingestion_service.py:156-170 | every committed batch lowers the number of chunks without an embedding |
| `IngestionService.LoopScriptLeadsThere` | backend/app/application/ingestion_service.py:156-172 | the commits of the loop are a run of the protocol to where the loop leaves the document |
| `IngestionService.IngestionService.RunStage` | backend/app/workers/tasks/ingest.py:78-104 | after a retryable error with retries left a retry is asked for, and granted or refused; otherwise the stage is marked failed; the whole is a run of the protocol |
| `IngestionAttempts.AttemptLeadsTo` | backend/app/application/ingestion_service.py:75-174 | wherever a run has brought the document, an attempt, whatever faults it meets, ends in exactly the world that the table of its stage says: the final error of a provider fails the stage after the batches before it, and a retryable error of parse or chunk is queued again after fewer than three retries and fails the stage after three |
| `IngestionAttempts.LoopLeadsTo` | backend/app/application/ingestion_service.py:156-172 | the embed loop embeds whole batches until the first answer that is not vectors, if that comes while chunks are left; it raises exactly if that is a retryable or an unforeseen error, fails the stage if it is final, and otherwise makes the document ready after ceil(n / batch) batches |
| `IngestionAttempts.ClaimLeadsTo` | backend/app/application/ingestion_service.py:178-195 | a stage is claimed exactly from its entry status or from failed |
| `IngestionService.IngestionService.CloseAttempt` | backend/app/workers/tasks/ingest.py:92-104 | what the task shell does with an exception: marked failed, queued again, or, when the runner or the broker refuses the retry, left as it is |
| `IngestionService.IngestionService.Consume` | backend/app/workers/tasks/ingest.py:78-137 | a message makes at most as many attempts as stage and runner allow; chunk and embed leave the working status behind if and only if some attempt asks for a retry in vain before its final commit; parse leaves parsing behind exactly if it found it or the first attempt met a retryable error before its final commit |
| `Uploads.PrefixIffSameId` | backend/app/application/document_service.py:137 | a storage prefix covers a document key exactly if both belong to the same document |
| `Uploads.RemovalKeepsRows` | backend/app/infrastructure/storage/local_fs.py:30-33 | removing the prefix of an id without a row leaves every row its object |
| `Uploads.CreateSafe` | backend/app/application/document_service.py:140-160 | the insert, with the unique index deciding the race, keeps the invariant |
| `Uploads.RefuseSafe` | backend/app/application/document_service.py:152-158 | so does an insert that another constraint refuses |
| `Uploads.CleanupSafe` | backend/app/application/document_service.py:152-155 | a losing upload's cleanup, or an upload given up, removes nothing that a row needs |
| `Uploads.PurgeSafe` | backend/app/workers/tasks/ingest.py:147-151 | a purge, however late and however often, removes nothing that a row or an upload needs |
| `Uploads.StepSafe` | backend/app/application/document_service.py:114-163 | every step of every interleaving keeps the invariant |
| `Uploads.OthersSpareUpload` | backend/app/application/document_service.py:114-163 | other requests keep the invariant and leave an upload's own entry, and its unused id, alone |
| `Uploads.DocumentService.constructor` | backend/app/application/document_service.py:99-110 | an empty service satisfies the invariant |
| `Uploads.DocumentService.GetByChecksum` | backend/app/application/document_service.py:129 | finds a document of the owner with the checksum exactly if there is one |
| `Uploads.DocumentService.Upload` | backend/app/application/document_service.py:114-163 | with any other requests before each of its steps: the document returned has the owner and checksum and bytes to match; it is new exactly if neither check nor insert found another and no other constraint refused; none only if no such document is there at the end |
| `Uploads.DocumentService.Insert` | backend/app/application/document_service.py:140-152 | one row more, or an integrity error that changes nothing |
| `Uploads.DocumentService.GiveWay` | backend/app/application/document_service.py:152-160 | the bytes are removed, as far as the file system lets them, and the winner looked up |
| `Uploads.DocumentService.Delete` | backend/app/application/document_service.py:249-258 | the row goes at once, the object with the purge |
| `Uploads.DocumentService.Purge` | backend/app/workers/tasks/ingest.py:147-151 | removes what is stored under the id, or as much as it can, keeping the invariant |
| `Requests.DocumentService.FirstFailedStage` | backend/app/infrastructure/db/repositories/ingestion_jobs.py:68-77 | the earliest failed stage, none exactly if no stage has failed |
| `IngestionResults.RestartRuns` | backend/app/application/document_service.py:192-220 | the commits of a restart are a run of the protocol, to a document entering that stage, or failed again |
| `Requests.DocumentService.RestartFromFailedStage` | backend/app/application/document_service.py:192-220 | makes exactly these commits; a failed queueing leaves the document failed |
| `Requests.DocumentService.Retry` | backend/app/application/document_service.py:242-247 | restarts its owner's failed document and no other |
| `Requests.DocumentService.Delete` | backend/app/application/document_service.py:249-253 | its owner's document is deleted, by a step of the protocol, and no other |
| `Requests.AcceptedRetryIsClaimed` | backend/app/application/document_service.py:192-220 | wherever a run leaves a failed document with no attempt running, an accepted retry leads to a claim of its stage, with the chunks kept, which then has its input exactly if it is not the chunk stage after a torn write |
| `Uploads.EveryDocumentIsBacked` | backend/app/infrastructure/db/models.py:180 | in every run there is at most one row per owner and checksum, and each row's key holds bytes with its checksum |
| `Uploads.ObjectsAreAccountedFor` | backend/app/application/document_service.py:152-155 | in every run an object in the store belongs to a row, to an upload in flight, to an upload given up, or to a deleted document not purged since |
| `Uploads.RemovalIsExact` | backend/app/infrastructure/storage/local_fs.py:30-33 | a cleanup or purge that works removes exactly the objects of its document |
| `Uploads.RowsChangeOneByOne` | backend/app/application/document_service.py:140-151 | the table changes by one row at an insert without duplicate, with owner, checksum and key of the upload, and at a deletion; by nothing else |
| `Retrieval.ScoreIsStrictlyMonotone` | backend/app/infrastructure/vector/pgvector_index.py:68-74 | a hit ranked no worse in either leg, and better in one, scores strictly more |
| `Retrieval.BothLegsWinIff` | backend/app/infrastructure/vector/pgvector_index.py:68-74 | two-leg hits outscore all one-leg hits, for all rankings, if and only if top_k <= rrf_k + 1 |
| `Retrieval.WorstCase` | backend/app/core/config.py:50-52 | for a larger top_k, two rankings that show it |
| `Retrieval.AssembledInOrder` | backend/app/infrastructure/vector/pgvector_index.py:155-170 | assembly keeps exactly the loaded chunks, once each, in score order, numbered from 1 |
| `Fusion.JoinIsFusion` | backend/app/infrastructure/vector/pgvector_index.py:68-71 | the full outer join of the numbered legs has one row for every hit of either leg, and its score is the sum of the reciprocal ranks |
| `Fusion.VecOnlyIsFusion` | backend/app/infrastructure/vector/pgvector_index.py:76-82 | the query without the full-text leg is the join with an empty one |
| `Fusion.SelectionExists` | backend/app/infrastructure/vector/pgvector_index.py:72-73 | the query has a result for any rows, of top_n rows or as many as there are |
| `Fusion.SelectionIsRanked` | backend/app/infrastructure/vector/pgvector_index.py:72-73 | whatever order ties come in, what the query returns are distinct hits with their scores, descending, and no better hit is left out |
| `Fusion.SearchResultIsRanked` | backend/app/infrastructure/vector/pgvector_index.py:122-170 | the result has no duplicates, descends in score, has at most top_n hits ranked 1..m with the scores of the query, two-leg hits first when top_k <= rrf_k + 1 |
| `Retrieval.BuildTsquery` | backend/app/infrastructure/vector/pgvector_index.py:92-103 | the loop collects the distinct terms in order and joins them quoted |
| `Retrieval.TermsAreTheLongTokens` | backend/app/infrastructure/vector/pgvector_index.py:98-101 | the terms are exactly the tokens of two or more characters, once each; the query is empty exactly if there are none |
| `Retrieval.EscapeRoundTrip` | backend/app/infrastructure/vector/pgvector_index.py:102 | undoing the escapes of a quoted term gives the term back |
| `Retrieval.QuotedEndsAtQuote` | backend/app/infrastructure/vector/pgvector_index.py:102 | a quoted term ends at its own closing quote, whatever it holds and whatever follows |
| `Retrieval.QueryReadsBack` | backend/app/infrastructure/vector/pgvector_index.py:102 | the query reads back as the terms, one alternative each, in order |
| `Prompts.FitBudget` | backend/app/application/prompts.py:52-61 | the chunks used are the longest prefix whose numbered blocks fit the budget; the next block would not fit |
| `Prompts.BlockHolds` | backend/app/application/prompts.py:35-40 | a block holds its rank, which can be read back, the file name, the headings in order if there are any, and the whole text of the chunk |
| `LlmStream.ReadBody` | backend/app/infrastructure/llm/openai_compat.py:131-166 | the parsing loop computes the events of EventsFrom, which ChatFollowsLines reads off the lines |
| `LlmStream.Chat` | backend/app/infrastructure/llm/openai_compat.py:96-121 | the adapter yields the specified events, with exceptions turned into one error event |
| `LlmStream.ChatFollowsLines` | backend/app/infrastructure/llm/openai_compat.py:133-166 | the text events are the non-empty contents of the lines up to the deciding one, in order, that line included; a normal stop carries the last counts and the last finish reason before the end mark, end of turn if there is none |
| `LlmStream.ChatIsInOrder` | backend/app/infrastructure/llm/openai_compat.py:96-166 | whatever arrives: non-empty deltas, at most one usage event right before a normal stop, then exactly one terminal event |
| `LlmStream.ChatStopsIffDone` | backend/app/infrastructure/llm/openai_compat.py:133-166 | the stream stops normally if and only if the end mark comes before anything unusable |
| `ChatTurn.ReplyStream.StreamReply` | backend/app/application/chat_orchestrator.py:139-253 | the generator sends the events and stores the rows of the specification, for every script of outside events |
| `ChatTurn.ReplyStream.StreamAnswer` | backend/app/application/chat_orchestrator.py:186-253 | its streaming part, with cancellation at every yield and await; the specification follows the provider by TurnFollowsProvider |
| `ChatTurn.ReplyStream.BreakStream` | backend/app/application/chat_orchestrator.py:201-210 | an error event of the provider: partial answer stored, then one error sent |
| `ChatTurn.ReplyStream.BreakRetrieval` | backend/app/application/chat_orchestrator.py:160-181 | a failed retrieval: one error event, with a usage row if it can be stored |
| `ChatTurn.ReplyStream.PersistSuccess` | backend/app/application/chat_orchestrator.py:344-379 | the full answer, its citations and an ok usage row |
| `ChatTurn.ReplyStream.PersistError` | backend/app/application/chat_orchestrator.py:381-406 | a usage row, and the partial answer with its citations if there is any text |
| `ChatTurn.ReplyStream.PersistCancelled` | backend/app/application/chat_orchestrator.py:432-448 | the partial answer if there is any text; a second row of the same id fails as a whole |
| `ChatTurn.SnapshotsAreRanked` | backend/app/application/chat_orchestrator.py:482-497 | the stored snapshots are the items of the citations event, in order: ranks 1..n, the ids, files and scores of the chunks used, at most 200 characters of text |
| `ChatTurn.EveryTurnIsGood` | backend/app/application/chat_orchestrator.py:139-253 | for every script: message_start, citations?, delta*, (done or error)?; exactly one terminal event unless cancelled; at most one assistant and one usage row, with the text and citations sent |
| `ChatTurn.TurnFollowsProvider` | backend/app/application/chat_orchestrator.py:186-253 | an uncancelled turn with its retrieval sends the provider's texts up to its first stop or error, one delta each, then the error, or done with the last token counts and the reason of the stop; the rows stored are given in full |
| `ChatTurn.TextIsProviders` | backend/app/application/chat_orchestrator.py:195-253 | so the text sent is the provider's text, and the turn ends in done if and only if no error comes before the provider's first stop and the answer is stored and acknowledged |
| `ChatTurn.FailedRetrievalEnds` | backend/app/application/chat_orchestrator.py:160-181 | a failed retrieval gives one error event and a usage row at most |
| `ChatTurn.CitationsIff` | backend/app/application/chat_orchestrator.py:182-184 | citations are sent exactly if knowledge is used and the block of the first chunk fits the budget, and then for as many leading chunks as fit it |
| `ChatTurn.CancelledIsCutOff` | backend/app/application/chat_orchestrator.py:214-229 | the events of a cancelled turn are the first ones of the same turn without cancellation, up to the one at whose yield the consumer leaves |
| `ChatTurn.PartialIsKept` | backend/app/application/chat_orchestrator.py:432-448 | a turn cancelled while the answer streams stores the text and citations sent as a partial answer, unless no text was sent or storing fails |
| `ChatTurn.CancelledWhileStoring` | backend/app/application/chat_orchestrator.py:201-229 | a turn cancelled while its answer is being stored leaves what that store leaves, and an interrupted answer not stored is stored once more |
| `ChatTurn.DoneIffStored` | backend/app/application/chat_orchestrator.py:231-253 | an uncancelled turn ends in done if and only if the answer is stored in full and its commit acknowledged |
| `ChatTurn.StoredButReportedAsError` | backend/app/application/chat_orchestrator.py:231-245 | a turn whose answer is committed but reported as an error, because the acknowledgement of the commit was lost |
| `Sse.ParseFrameLoop` | frontend/src/api/sse.ts:20-30 | the loop over the lines of a frame computes its event |
| `Sse.FrameGivesLastFields` | frontend/src/api/sse.ts:20-30 | any frame gives an event exactly if some line names one; of several lines with the same field the last counts, and comments and all other lines count for nothing |
| `Sse.TakeFrames` | frontend/src/api/sse.ts:51-58 | the inner loop takes exactly the complete frames and leaves the rest |
| `Sse.StreamChat` | frontend/src/api/sse.ts:44-59 | however the text is cut into reads, the events are those of the whole text |
| `Sse.FramesOfMore` | frontend/src/api/sse.ts:50-58 | more text never changes the frames already complete |
| `Sse.RoundTrip` | backend/app/api/routers/chat.py:28-30 | clean events printed with heartbeats anywhere between are read back exactly, however cut |
| `Sse.TruncatedRoundTrip` | frontend/src/api/sse.ts:44-59 | a stream that breaks off inside a frame yields exactly the events before it |
| `Sse.SurvivesIffClean` | backend/app/api/routers/chat.py:28-30 | an event survives the wire if and only if both fields are one line without outer blanks |
| `ChatClient.ChatStream.Send` | frontend/src/features/chat/useChatStream.ts:65-135 | send writes what the reducer gives, and ends outside streaming |
| `ChatClient.SendEndsIn` | frontend/src/features/chat/useChatStream.ts:110-125 | for any events: an unreadable event or a failure other than an abort ends in error, an abort in idle, and a stream that just ends in done exactly if its last done or error is a done; no streaming text is left |
| `ChatClient.UnknownIsIgnored` | frontend/src/features/chat/useChatStream.ts:111 | events of unknown name make no difference |
| `ChatEndToEnd.ReadsArePrefix` | backend/app/api/routers/chat.py:51-77 | any beginning of the wire, in any pieces, gives the first events sent |
| `ChatEndToEnd.ViewFollows` | frontend/src/features/chat/useChatStream.ts:88-109 | the view always shows the text and citations sent so far, and the answer once done has come |
| `ChatEndToEnd.DoneShowsWhatWasStored` | frontend/src/features/chat/useChatStream.ts:98-105 | if send ends in done, the appended message has the id, content, token counts and citations of the committed row and snapshots |
| `ChatEndToEnd.FullRunFinishes` | frontend/src/features/chat/useChatStream.ts:65-135 | an uncancelled turn read to its end finishes in done exactly if the answer is stored in full and its commit acknowledged, else in error |
| `Paging.CursorSelectsRest` | backend/app/core/pagination.py:31-38 | the keyset condition of a row selects exactly the rows after it |
| `Paging.PageAfter` | backend/app/infrastructure/db/repositories/messages.py:46-59 | a page is the next limit rows, and has a cursor exactly if more follow |
| `Paging.PagesNeeded` | backend/app/core/pagination.py:41-50 | following cursors ends after max(1, ceil(n / limit)) pages, and then all rows are there |
| `Paging.CacheIsNewestRows` | frontend/src/features/chat/useMessages.ts:26-48 | after j loads the cache is the ascending list of the newest limit * (j + 1) rows |
| `Paging.NewRowsDoNotDisturb` | backend/app/core/pagination.py:31-38 | rows that arrive later do not change the pages after a cursor |
| `Paging.RecentIsFirstLoad` | backend/app/infrastructure/db/repositories/messages.py:33-44 | the prompt's history and the client's first page are the same rows in the same order |
| `Paging.CursorRoundTrip` | backend/app/core/pagination.py:17-28 | splitting at the first bar gives back both parts of a cursor; text without a bar is refused |
| `Paging.MessagesView.constructor` | frontend/src/features/chat/useMessages.ts:26-33 | the first load |
| `Paging.MessagesView.Start` | frontend/src/features/chat/useMessages.ts:35-38 | a load starts exactly if there is a cursor and no load under way, and notes the cache |
| `Paging.MessagesView.Finish` | frontend/src/features/chat/useMessages.ts:39-47 | the page is put before the items noted at the start; a failed fetch changes nothing; the flag is cleared |
| `Paging.MessagesView.LoadMore` | frontend/src/features/chat/useMessages.ts:35-48 | a load with nothing in between prepends the next page |
| `Paging.LoadKeepsItemsIff` | frontend/src/features/chat/useMessages.ts:36-44 | a load keeps what is in the cache when it ends if and only if the patches meanwhile have left the items as they were |
| `Paging.AnswerIsLost` | frontend/src/features/chat/useChatStream.ts:98-105 | an answer appended while an earlier page loads is gone from the cache when the page arrives |
| `RefreshTokens.LoginStartsFamily` | backend/app/application/auth_service.py:66-81 | the token a login issues is live and the only one of its family; every earlier token is as it was |
| `RefreshTokens.AuthService.LoginUser` | backend/app/application/auth_service.py:79-81 | a login starts a new family |
| `RefreshTokens.AuthService.RefreshToken` | backend/app/application/auth_service.py:83-105 | refresh performs its step: refusal, grace, revocation of the family, or rotation |
| `RefreshTokens.AuthService.LogoutToken` | backend/app/application/auth_service.py:107-112 | logout revokes the family of a known token |
| `RefreshTokens.RunsAreChained` | backend/app/application/auth_service.py:83-139 | in every run each family is one chain in order of issue, and every token but the last is revoked |
| `RefreshTokens.AtMostOneLive` | backend/app/application/auth_service.py:83-139 | a family has at most one live token, the latest issued |
| `RefreshTokens.EveryTokenReplacesOne` | backend/app/application/auth_service.py:101-103 | every token but the first of its family is the successor of exactly one earlier token |
| `RefreshTokens.RevokedOnce` | backend/app/infrastructure/db/repositories/refresh_tokens.py:44-50 | tokens are only added; a revocation time and a successor are written once |
| `RefreshTokens.RefreshSucceedsIff` | backend/app/application/auth_service.py:83-105 | refresh succeeds exactly for a known, unexpired, live token of an active user, whose successor is then the one live token |
| `RefreshTokens.ReplayOfRotated` | backend/app/application/auth_service.py:88-94 | within 60 seconds a replay changes nothing; later it kills the family |
| `RefreshTokens.RevocationKillsFamily` | backend/app/application/auth_service.py:107-112 | logout, and the replay of a token revoked without successor, leave no live token in the family |
| `RefreshTokens.RevocationIsExact` | backend/app/infrastructure/db/repositories/refresh_tokens.py:43-50 | logout, a late replay, and the replay of a token revoked without successor revoke, now, the live tokens of that family and leave every other row as it is |
| `RefreshTokens.OthersAreUntouched` | backend/app/application/auth_service.py:83-105 | any other refresh or logout that issues nothing changes nothing, and one that issues a token touches only the row it replaces |
| `RefreshTokens.FamiliesAreIsolated` | backend/app/application/auth_service.py:83-112 | through any calls that present no token of a family, the family keeps its rows exactly as they are |
| `RefreshTokens.DeadStaysDead` | backend/app/application/auth_service.py:83-139 | a family without a live token never gets one again |

## Left out

- PDF, DOCX and HTML parsing, the encoding chain and the plain-text parser: in ingestion `parse` is an arbitrary function.
- The stand-alone port entry of the table chunker, and the constant `kind` in a chunk's metadata.
- Attempt counters, timestamps and error texts of jobs and documents; back-off times; log output.
- IngestionService.IngestionService.Consume: runs without interference; for arbitrary interleavings `IngestionProgress.WaitingHasMessage` says when a message is still there.
- IngestionProgress.WaitingCanStillFinish: that the queue delivers the message is not promised; the lemma gives a run in which it does.
- Real overlap of two workers on one document, and of two refreshes of one token: the code has no lock there, and seriality is assumed.
- Uploads.DocumentService.Upload: the file name and content checks and the default source; the restart of a failed duplicate and the queueing of the parse message are requests of module `Ingestion`.
- Requests.DocumentService.Retry: other requests between its own commits, which the transition system covers.
- Requests.AcceptedRetryIsClaimed: other steps between the retry and its claim; `IngestionInputs.MessageIsClaimed` is about any such run.
- jieba, `ts_rank_cd`, the access filters and the HNSW index: a leg is an arbitrary ranking of distinct ids.
- Retrieval.BothLegsWinIff: scores are exact reals, not the database's numerics.
- The reading of status codes into error codes and the JSON decoding of a provider chunk: a response line arrives as one of four kinds.
- LlmStream.Chat: the provider adapter never raises, so a stream that raises into the reply generator is not modelled.
- The heartbeat timer and the queue between producer and response: their effect on the wire, heartbeats anywhere between events, is all that is modelled.
- UTF-8 decoding across reads: the wire is a sequence of characters.
- The transaction before `message_start`, titles, the chat history in the prompt, and the query invalidations after `send`.
- Paging.CursorRoundTrip: the base64 layer of the cursor, and the text forms of its timestamp and id.
- Paging.MessagesView.Finish: a refetch of the whole conversation while an earlier page is loading.
- The queueing of the title task, which never raises (`backend/app/infrastructure/tasks/celery_queue.py:22-26`).
- Passwords, registration, access tokens and cookies.
- Routing, schemas, middleware, wiring, migrations and the user interface.
