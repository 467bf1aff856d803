# A verified model of the website's text, rating and chat logic

This project models, in Dafny, the logic at the core of a personal writing
website:

- **The text chunker.** `splitParagraphs`, `packParagraphs` and
  `chunkComposition` are identical in src/lib/rag-utils.js and
  scripts/rag-utils.mjs. They cut a composition into paragraph-aware chunks
  for embedding.
- **The indexing script.** scripts/reindex.mjs reads every composition,
  embeds its chunks in one batched call, then replaces the composition's
  rows in the `CompositionChunk` table with a DELETE and a numbered INSERT.
- **The rating head and `POST /api/rate`.** A 768-weight linear head is
  validated and applied to the normalised embedding of a description.
- **The rating label ladders.** The synopsis page has five tiers; the plot
  page has six.
- **`POST /api/chat`.** The system instruction is assembled from every
  composition and the page context. The history is mapped to model turns.
  Generation is retried at most three times with growing delays, and errors
  are mapped to 429, 503 or 500.
- **Tab session storage.** A single JSON item holds the tab's state; a
  legacy chat item is migrated into it.
- **The chat provider's transcript.** A message is appended optimistically
  and rolled back when the send fails.
- **The easter-egg button.** Three clicks within 600 ms of each other open
  a modal.
- **The bouncing crab.** The wall-bounce step and its n-fold simulation.

Code that only computes is modelled as functions with lemmas. Code that
updates state step by step is modelled imperatively:

- `packParagraphs`, the `contents` loop, the retry loop, the reindex loops
  and `simulateBounce` are methods with loop invariants. Each is proved
  equal to a specification function, and the properties are proved about
  that function.
- The chat provider, the easter-egg button, the database pool and the
  browser's session storage are classes whose methods update their fields.

Outside services are parameters of the model:

- the Gemini embedding and generation calls;
- the database listing, and which statements the database refuses;
- `normalizeEmbedding` and `toVectorLiteral`;
- the fetch outcome;
- the storage environment.

Thrown exceptions become `Result`/`Option` values, and `null`/`undefined`
become `Option`. Files:

| file | module | source |
|---|---|---|
| wrappers.dfy | Wrappers | `Option`, `Result` |
| text.dfy | Text | JavaScript `trim`, `join`, `split`, `toLowerCase`, `includes` |
| chunker.dfy | Chunker | src/lib/rag-utils.js, scripts/rag-utils.mjs |
| reindex.dfy | Reindex | scripts/reindex.mjs |
| rating_head.dfy | RatingHead | src/lib/rating-head.ts |
| rate_route.dfy | RateRoute | src/app/api/rate/route.ts |
| rating_labels.dfy | RatingLabels | the two `ratingToLabel` ladders |
| chat_route.dfy | ChatRoute | src/app/api/chat/route.ts |
| session_storage.dfy | SessionStorage | src/lib/session-storage.ts |
| chat_context.dfy | ChatContext | src/lib/chat-context.tsx |
| easter_egg.dfy | EasterEgg | src/components/EasterEggButton.tsx |
| bouncing_crab.dfy | BouncingCrab | src/components/BouncingCrab.tsx |

## Model

| member | source | states |
|---|---|---|
| Text.Trim | src/lib/rag-utils.js:16 | The result has no white space at either end, is no longer than the input, and is empty exactly when the input is all white space (the JavaScript white-space set). |
| Text.TrimSpec | src/lib/rag-utils.js:12 | Trimming the start and then the end yields a trimmed string that is empty exactly when the input is all white space. |
| Text.TrimStartSlice | src/lib/rag-utils.js:12 | `trimStart` removes exactly an all-white-space prefix: the result is a suffix of the input. |
| Text.TrimEndSlice | src/lib/rag-utils.js:12 | `trimEnd` removes exactly an all-white-space suffix: the result is a prefix of the input. |
| Text.TrimTrimmed | src/lib/rag-utils.js:44 | Trimming is idempotent: a trimmed string is its own trim. |
| Text.TrimKeepsOut | src/lib/rag-utils.js:50 | Trimming never introduces a character, so a line without `\n` stays without one. |
| Text.JoinTrimmed | src/lib/rag-utils.js:38 | Joining non-empty trimmed pieces gives a non-empty trimmed string that starts with the first piece's first character. |
| Text.SplitOn | src/lib/rag-utils.js:50 | `split('\n')` yields at least one piece, and no piece contains the separator. |
| Text.JoinCons | src/lib/rag-utils.js:50 | Joining a head before a non-empty tail puts exactly one separator between them. |
| Text.SplitOnJoin | src/lib/rag-utils.js:50 | Joining the pieces of `split(c)` with `c` gives the string back, so the pieces are exactly the text between consecutive separators. |
| Text.TrimIsSlice | src/lib/rag-utils.js:16 | `trim` keeps the slice between an all-white-space prefix and an all-white-space suffix. |
| Text.NonSpaceAppend | src/lib/rag-utils.js:11-18 | The non-white-space characters of a concatenation are those of each part, in order. |
| Text.NonSpaceTrim | src/lib/rag-utils.js:16 | Trimming removes white space only. |
| Text.SplitOnNonSpace | src/lib/rag-utils.js:50 | Splitting on a white-space character keeps every other character, in order, across the pieces. |
| Text.SplitOnKeepsText | src/lib/rag-utils.js:50 | Splitting text that is not all white space on a white-space character leaves some piece that is not all white space. |
| Text.AsciiLower | src/lib/rag-utils.js:100 | `toLowerCase` keeps the length and lowers each ASCII capital. |
| Text.NatToString | scripts/reindex.mjs:61 | A count prints as a non-empty string of decimal digits. |
| Text.NatToStringValue | scripts/reindex.mjs:61 | The digits spell the count back in decimal, with no leading zero. |
| Chunker.NormalizeNewlines | src/lib/rag-utils.js:12 | The result is the text with exactly the `\r` characters directly followed by `\n` removed (so `"\r\r\n"` becomes `"\r\n"`). It is never longer, and text without `\r` is unchanged. |
| Chunker.NormalizeNewlinesNonSpace | src/lib/rag-utils.js:12 | Normalising line ends removes white space only. |
| Chunker.DropEmpty | src/lib/rag-utils.js:17 | `filter(Boolean)` keeps exactly the non-empty entries, and keeps a list without empty entries as it is. |
| Chunker.DropEmptyAppend | src/lib/rag-utils.js:17 | The filter works entry by entry: filtering a concatenation concatenates the filtered parts, so order and repetitions are kept. |
| Chunker.DropEmptyNonSpace | src/lib/rag-utils.js:17 | Dropping empty entries loses no character. |
| Chunker.MapTrimNonSpace | src/lib/rag-utils.js:16 | Trimming every entry loses no character but white space. |
| Chunker.SpaceRunEnd | src/lib/rag-utils.js:15 | The `\s*` part of the paragraph separator: the end of the white-space run that starts at a position. |
| Chunker.BlankLineMatch | src/lib/rag-utils.js:15 | A match of `/\n\s*\n+/` is at least two characters long, all white space, and starts and ends with a newline. |
| Chunker.BlankLineMatchSpec | src/lib/rag-utils.js:15 | A match starts at a position exactly when a newline, white space and another newline start there. It is greedy: no newline of the white-space run is left after it. |
| Chunker.SeparatorInSlice | src/lib/rag-utils.js:15 | A separator inside a slice of the text is a separator of the text. |
| Chunker.SliceSeparatorFree | src/lib/rag-utils.js:15 | A stretch of text where no match starts contains no separator. |
| Chunker.TrimSeparatorFree | src/lib/rag-utils.js:16 | Trimming keeps a piece free of separators. |
| Chunker.SplitFromSeparatorFree | src/lib/rag-utils.js:15 | `split` cuts at every separator, so no piece contains one. |
| Chunker.SplitFromNonSpace | src/lib/rag-utils.js:15 | The pieces of `split` hold every character of the text but the separators' white space, in order. |
| Chunker.SplitFromKeepsText | src/lib/rag-utils.js:15 | Every separator is white space, so each character that is not white space lands in some piece. |
| Chunker.SplitParagraphs | src/lib/rag-utils.js:11-18 | The result is empty exactly when the CRLF-normalised trimmed text is empty (null included), and every paragraph is non-empty and trimmed. |
| Chunker.ParagraphsSeparatorFree | src/lib/rag-utils.js:11-18 | No paragraph contains a blank-line separator. |
| Chunker.ParagraphsKeepText | src/lib/rag-utils.js:11-18 | The paragraphs, in order, hold exactly the characters of the text that are not white space. |
| Chunker.SplitFromInterleave | src/lib/rag-utils.js:15 | `split` cuts only at separators: the pieces, interleaved with the matched separators (each a newline, white space and a newline), give back the text from the start position. |
| Chunker.TrimDropInterleave | src/lib/rag-utils.js:16-17 | Trimming the pieces and dropping the empty ones only moves white space into the gaps: the text is leading white space, the kept pieces interleaved with gaps that each hold two newlines, and trailing white space. If no piece is kept, the text is all white space. |
| Chunker.ParagraphsBetweenGaps | src/lib/rag-utils.js:11-18 | For text that is not blank, the paragraphs interleaved with white-space gaps, each holding at least two newlines, rebuild the CRLF-normalised trimmed text exactly. |
| Chunker.OneParagraph | src/lib/rag-utils.js:11-18 | Text that is not blank and holds no blank-line separator is one paragraph: the normalised text itself. |
| Chunker.Lines | src/lib/rag-utils.js:50 | The lines of an over-long paragraph are non-empty, trimmed and free of `\n`, and there is at least one when the paragraph is not blank. |
| Chunker.LinesKeepText | src/lib/rag-utils.js:50 | The lines, in order, hold exactly the characters of the paragraph that are not white space. |
| Chunker.LineFoldInv | src/lib/rag-utils.js:52-60 | Inner-loop invariant: every pushed chunk is the `\n`-join of its lines and is at most `maxChars` unless it is a single line. The buffer is the join of the lines after them. The lines are covered in order. |
| Chunker.LongParagraphChunksGood | scripts/rag-utils.mjs:33-48 | An over-long paragraph becomes `\n`-joined groups of its lines, in order and without loss. Each group is at most `maxChars`, or is a single over-long line. |
| Chunker.LongCover | src/lib/rag-utils.js:48-63 | An over-long paragraph first flushes the buffer, then appends its line chunks; the loop invariant is kept with the paragraph's lines covered. |
| Chunker.ShortCover | scripts/rag-utils.mjs:50-67 | The buffer path keeps `currentLen` equal to the `\n\n`-joined length of `current`. It keeps every emitted chunk within `max(targetChars, maxChars)`. |
| Chunker.PushCover | src/lib/rag-utils.js:65-72 | Appending a paragraph that fits adds `separator + length` to `currentLen`, which stays the joined length. |
| Chunker.FlushCover | src/lib/rag-utils.js:36-41 | `flush` emits the trimmed `\n\n`-join of `current` as one chunk, empties the buffer and keeps the invariant. |
| Chunker.StepCover | src/lib/rag-utils.js:43-84 | One iteration of the outer loop keeps the invariant, covering exactly the pieces of that paragraph. A blank paragraph is skipped. |
| Chunker.PackFoldInv | src/lib/rag-utils.js:43-84 | After any prefix of the paragraphs, the emitted chunks and the buffer cover the pieces of that prefix in order. |
| Chunker.PackCorrect | scripts/rag-utils.mjs:29-71 | Every returned chunk is the join of its group. Taken in order, the groups are exactly the non-empty paragraphs (or the lines of the over-long ones) in input order. |
| Chunker.PackChunksBounded | src/lib/rag-utils.js:86-87 | Every returned chunk is non-empty and trimmed. It is at most `max(targetChars, maxChars)` long, or it is a single line. |
| Chunker.PackNonEmpty | src/lib/rag-utils.js:43-87 | When some paragraph is not blank, at least one chunk is returned. |
| Chunker.PackMerges | src/lib/rag-utils.js:65-84 | Packing merges greedily: when a chunk of buffered paragraphs is followed by another one, the first paragraph of the next chunk did not fit, so chunk length + 2 + that paragraph's length exceeds `targetChars`. |
| Chunker.PartsNonEmpty | src/lib/rag-utils.js:44-45 | Non-empty trimmed paragraphs always contribute pieces. |
| Chunker.PackParagraphs | src/lib/rag-utils.js:27-88 | The loop computes `Pack` with the given budgets, or 3500/4500 when absent. Every chunk is non-empty and within the budget, or a single line. |
| Chunker.SplitLongParagraph | src/lib/rag-utils.js:48-63 | The chunks pushed for an over-long paragraph are the line groups of `LongParagraphChunks`, each non-empty and within `maxChars` or a single line. |
| Chunker.PackLines | src/lib/rag-utils.js:51-60 | The inner loop over lines computes the line fold's chunks and its final buffer. |
| Chunker.FlushBuffer | src/lib/rag-utils.js:36-41 | `flush` appends the trimmed `\n\n`-join of a non-empty buffer and resets it; an empty buffer changes nothing. |
| Chunker.ChunkComposition | src/lib/rag-utils.js:98-110 | Empty exactly when the normalised content is blank; otherwise every chunk is non-empty and trimmed. Poetry content is one chunk, the normalised content. So is content with at most one paragraph. Otherwise the paragraphs are packed with 3200/4800. |
| Reindex.RequiredEnv | scripts/reindex.mjs:13-17 | A variable that is missing or empty is an error naming it; otherwise its value is returned. |
| Reindex.RowParams | scripts/reindex.mjs:81 | A row's six parameters are `(id, i, title, genre, chunk, vec)` and decode back to the row. |
| Reindex.ParamNumbers | scripts/reindex.mjs:77-80 | Placeholder tuple i numbers its parameters `6i+1` to `6i+6`. |
| Reindex.ParamsOf | scripts/reindex.mjs:70-82 | `values` has six entries per row. |
| Reindex.ParamsOfIndex | scripts/reindex.mjs:81 | Entry `6i+k` of `values` is parameter k of row i. |
| Reindex.BindTupleRow | scripts/reindex.mjs:77-81 | Placeholder tuple i, bound against `values`, reads back exactly row i. |
| Reindex.BindParams | scripts/reindex.mjs:84-88 | The INSERT of the numbered placeholders with `values` inserts exactly the rows, in order. |
| Reindex.InsertRowsOne | scripts/reindex.mjs:84-88 | Inserting rows of one composition appends them to that composition's group only. |
| Reindex.ReplaceGroup | scripts/reindex.mjs:66-88 | DELETE then INSERT of one composition's rows makes them its whole group and changes no other group. |
| Reindex.Pool.Execute | scripts/reindex.mjs:66-88 | A statement the database accepts is applied to the table and appended to the log. A refused one throws the database's error and changes neither. |
| Reindex.Pool.constructor | scripts/reindex.mjs:23 | The pool starts open on the initial table with an empty log, and refuses what the database refuses. |
| Reindex.Pool.End | scripts/reindex.mjs:96-98 | `pool.end()` closes the pool and changes neither the table nor the log. |
| Reindex.EmbedText | scripts/reindex.mjs:47 | The text embedded for a chunk is exactly `Title: <title>`, a blank line and the chunk: it starts with the first two, ends with the chunk, and has their combined length. |
| Reindex.EmbedTexts | scripts/reindex.mjs:47 | One embedded text per chunk, in chunk order. |
| Reindex.ChunkRows | scripts/reindex.mjs:72-81 | One row per chunk, numbered from 0, with the composition's id, title, genre, the chunk and the vector of its embedding. |
| Reindex.StoreChunks | scripts/reindex.mjs:39-88 | The table after a step is its logged statements applied to the table before it, and no group but the composition's changes. |
| Reindex.StoreChunksOutcome | scripts/reindex.mjs:39-88 | No chunks: skipped with no call and no statement. Otherwise one batched call with one input per chunk. A thrown call, a count mismatch or a refused DELETE fails with the table unchanged. A refused INSERT fails after the DELETE, leaving the composition with no rows. Otherwise the group is exactly one row per chunk. |
| Reindex.StoreChunksMatched | scripts/reindex.mjs:66-88 | With one embedding per chunk, the step is the DELETE and then the INSERT, each of which may be refused. |
| Reindex.PlaceholderFor | scripts/reindex.mjs:78-80 | The placeholder text for row i is built from its parameter numbers. |
| Reindex.BuildInsert | scripts/reindex.mjs:70-82 | The index loop builds `values` equal to the rows' parameters, and one placeholder per chunk with tuple i numbered `6i+1`..`6i+6`. |
| Reindex.StoreComposition | scripts/reindex.mjs:47-88 | The per-composition body changes the table and the log exactly as `StoreChunks` says. |
| Reindex.IndexComposition | scripts/reindex.mjs:34-88 | The loop body for one composition reads its fields (null as "") and chunks it, then acts as `StoreChunks`. |
| Reindex.RunSteps | scripts/reindex.mjs:33-93 | The table after the run is the log's queries applied to the initial table. |
| Reindex.RunStepsCons | scripts/reindex.mjs:33 | The run is the first composition's step followed, unless it failed, by the run over the rest. |
| Reindex.ApplyAllAppend | scripts/reindex.mjs:66-88 | Applying two batches of queries is applying them one after the other. |
| Reindex.FailureIgnoresLater | scripts/reindex.mjs:33-104 | A failing step aborts the run: compositions after it change nothing and are never embedded. |
| Reindex.RefusedInsertLosesRows | scripts/reindex.mjs:66-93 | A refused INSERT ends the run with the database's error after its DELETE took effect. The composition's old rows are gone, no rows replace them, and no later composition is processed. |
| Reindex.RunKeepsUnlisted | scripts/reindex.mjs:33-93 | The run leaves the group of a composition that is not in the listing exactly as it was. |
| Reindex.AgreeOutside | scripts/reindex.mjs:66-68 | Tables equal outside one group agree on every other group. |
| Reindex.IndexAll | scripts/reindex.mjs:33-93 | The loop over compositions leaves the pool in the state `RunSteps` computes, and returns its calls and first error. |
| Reindex.RunReindex | scripts/reindex.mjs:19-104 | The two variables are checked in order: a missing one exits 1 before the pool exists. A failed listing exits 1 with the table unchanged. Otherwise the table and log are those of the run against the database's verdicts, and the pool is always ended. The exit is 1 with the first error (a refused statement included), or 0. |
| RatingHead.GetHead | src/lib/rating-head.ts:10-16 | The head is valid exactly when `W` is present with 768 entries and `b` is present; otherwise the fixed error message. |
| RatingHead.Predict | src/lib/rating-head.ts:21-31 | The weights are checked before the embedding's length. A length other than 768 is the `Expected 768-dim embedding` error. Otherwise the loop returns `b` plus the dot product. |
| RatingHead.DotZero | src/lib/rating-head.ts:26-30 | The dot product of an all-zero embedding is 0. |
| RatingHead.PredictZero | src/lib/rating-head.ts:21-31 | An all-zero embedding predicts exactly `b`. |
| RatingHead.DotScale | src/lib/rating-head.ts:26-30 | The sum is linear: scaling the embedding scales the dot product. |
| RatingHead.WeightsCheckedFirst | src/lib/rating-head.ts:22-25 | A malformed head fails with its own message, whatever the embedding. |
| RatingHead.PredictAcceptsLength | src/lib/rating-head.ts:23-25 | With a valid head, a prediction exists exactly for embeddings of length 768. |
| RateRoute.Description | src/app/api/rate/route.ts:22-23 | The description is trimmed. |
| RateRoute.RatePost | src/app/api/rate/route.ts:11-69 | A missing key gives 500 before anything else. A 400 means exactly an empty or over-long description, with no embedding. Only a description within 10000 characters is embedded. Only a 768-length vector reaches `predict`, normalised; any other length is a 500. An unparsable body, a thrown embedding call or a failing head gives a 500 with the error's message, or "Unknown error" for a non-Error. A 200 carries exactly the head's prediction. |
| RateRoute.LengthBoundary | src/app/api/rate/route.ts:32-37 | A trimmed description of length at most 10000 is embedded; one longer gives 400 before any embedding. |
| RateRoute.RatedWhenWellFormed | src/app/api/rate/route.ts:39-60 | With a key, a valid head, a proper description and a 768-length embedding, the answer is 200. |
| RatingLabels.Label | src/app/rate-my-plot/page.tsx:5-12 | Every tier has a non-empty label. |
| RatingLabels.SynopsisTier | src/app/rate-your-synopsis/page.tsx:5-11 | Each of the five tiers is exactly its interval: above 4.5, [4.0, 4.5], [3.5, 4.0), [3.0, 3.5), below 3.0. There is no "Average". |
| RatingLabels.PlotTier | src/app/rate-my-plot/page.tsx:5-12 | Each of the six tiers is exactly its interval, with "Average" on [2.0, 3.0) and "Needs work" below 2.0. |
| RatingLabels.LabelInjective | src/app/rate-my-plot/page.tsx:6-11 | Distinct tiers show distinct labels. |
| RatingLabels.SynopsisMonotone | src/app/rate-your-synopsis/page.tsx:5-11 | A higher rating never gets a lower synopsis tier. |
| RatingLabels.PlotMonotone | src/app/rate-my-plot/page.tsx:5-12 | A higher rating never gets a lower plot tier. |
| RatingLabels.LaddersAgree | src/app/rate-my-plot/page.tsx:5-12 | The two ladders show the same label everywhere except on [2.0, 3.0), where plot says "Average" and synopsis "Needs work". |
| RatingLabels.PlotNeverBelowSynopsis | src/app/rate-my-plot/page.tsx:10-11 | The plot tier is the synopsis tier or one above it. |
| ChatRoute.Block | src/app/api/chat/route.ts:57-61 | A block is the header line `[genre] "title" (id: id)`, then exactly the content, then a newline and `---`. |
| ChatRoute.Blocks | src/app/api/chat/route.ts:57-61 | One block per composition, in listing order. |
| ChatRoute.CompositionsBlobPush | src/app/api/chat/route.ts:62 | Blocks are joined by a blank line: one more composition appends a blank line and its block. |
| ChatRoute.CompositionsBlobSmall | src/app/api/chat/route.ts:62 | No compositions give an empty blob; one gives its block alone. |
| ChatRoute.FindById | src/app/api/chat/route.ts:69-72 | `find` returns the first composition with the id, and nothing exactly when no composition has it. |
| ChatRoute.BuildContextBlob | src/app/api/chat/route.ts:64-76 | The genre sentence appears only when a genre is set. The viewing sentence appears only when the id names a loaded composition. The context is empty exactly when neither applies, and the prefix appears exactly when it is not empty. |
| ChatRoute.Contents | src/app/api/chat/route.ts:87-92 | There are \|history\|+1 entries. The history keeps its order and text, an entry is the model's exactly when it was the assistant's, and the new message comes last as the user's. |
| ChatRoute.BuildContents | src/app/api/chat/route.ts:87-92 | The push loop builds exactly `Contents`. |
| ChatRoute.ErrorResponse | src/app/api/chat/route.ts:115-146 | 429 exactly for a rate limit, 503 exactly for an overload that is not a rate limit, and 500 otherwise, with the error's message or the default. |
| ChatRoute.RetryableIsMapped | src/app/api/chat/route.ts:105-127 | An error is retried exactly when the final mapping would not make it a 500. |
| ChatRoute.ClassifyIgnoresCase | src/app/api/chat/route.ts:110 | The retry test ignores the case of the message. |
| ChatRoute.RetryFrom | src/app/api/chat/route.ts:95-114 | At most 3 attempts. Every attempt but the last failed with a retryable error and was followed by a delay of 1500·(k+1) ms. The last attempt succeeded with its text (or ""), or failed with an error that is not retryable or came on the third attempt. |
| ChatRoute.GenerateWithRetry | src/app/api/chat/route.ts:95-114 | The retry loop produces the run `RetryFrom` describes, with 1 to 3 attempts and one delay fewer than attempts. |
| ChatRoute.NonRetryableStopsAtOnce | src/app/api/chat/route.ts:111 | A first error that is not retryable is rethrown after one attempt, with no delay. |
| ChatRoute.AllRetryableFail | src/app/api/chat/route.ts:95-114 | When every attempt fails retryably, there are 3 attempts with delays 1500 and 3000, and the third error is rethrown. |
| ChatRoute.HandleChat | src/app/api/chat/route.ts:21-147 | A missing key gives the configuration 500. An unreadable body is handled as a thrown error. A 400 means exactly a missing message. A request goes out exactly for a valid message with compositions loaded, carrying `Contents` and the instruction built from the blobs. The answer is the retry run's text, or its mapped error. |
| SessionStorage.FilterMessages | src/lib/session-storage.ts:22-28 | Keeps exactly the entries with string `role` and `content`, and nothing else. |
| SessionStorage.FilterStrings | src/lib/session-storage.ts:31-33 | Keeps exactly the string entries, and nothing else. |
| SessionStorage.FilterStringsAppend | src/lib/session-storage.ts:31-33 | The filter works entry by entry, in order. |
| SessionStorage.FilterMessagesAppend | src/lib/session-storage.ts:22-28 | The filter works entry by entry, in order. |
| SessionStorage.FilterMessagesKeepsMessages | src/lib/session-storage.ts:22-28 | A list of well-formed messages passes the filter unchanged. |
| SessionStorage.FilterStringsKeepsStrings | src/lib/session-storage.ts:31-33 | A list of strings passes the filter unchanged. |
| SessionStorage.SessionOf | src/lib/session-storage.ts:19-35 | The session holds only the two known keys, each exactly when the object holds an array there. Its value is that array filtered to well-formed messages or to strings. |
| SessionStorage.ParseSession | src/lib/session-storage.ts:14-39 | Always a well-formed session: `{}` for a missing or empty item, invalid JSON or a non-object, and the object's filtered session otherwise. |
| SessionStorage.DefinedPart | src/lib/session-storage.ts:80 | `JSON.stringify` keeps exactly the properties whose value is not `undefined`. |
| SessionStorage.ParseStringified | src/lib/session-storage.ts:14-39 | Parsing a stringified well-formed session gives it back. |
| SessionStorage.ReadSession | src/lib/session-storage.ts:42-66 | No window or a storage error gives `{}`. A present new item is the only one read. Storage changes only by migrating a legacy array: written unfiltered under the new key, legacy item removed. A refused write ends the migration with `{}` and no change. |
| SessionStorage.Merge | src/lib/session-storage.ts:73-76 | Every updated key takes its update and every other key keeps its current value. |
| SessionStorage.WriteSession | src/lib/session-storage.ts:69-85 | No window or no storage access: no change. An empty merge removes the session item. A non-empty merge is written as the stringified session, or changes nothing when writing is refused. No other item changes. |
| SessionStorage.ReadAfterWrite | src/lib/session-storage.ts:69-85 | After an update, reading gives the merge of the old session with the updates, without the keys set to `undefined`. |
| SessionStorage.ReadAfterMigration | src/lib/session-storage.ts:48-61 | After a migration the legacy item is gone, and the next read gives the legacy messages filtered. |
| SessionStorage.BrowserSessionStore.GetSession | src/lib/session-storage.ts:42-66 | `getSession` returns the session `ReadSession` describes and leaves the storage it describes. |
| SessionStorage.BrowserSessionStore.UpdateSession | src/lib/session-storage.ts:69-85 | `updateSession` leaves the storage `WriteSession` describes: the merged session, its removal when empty, or no change on an error. |
| ChatContext.DropLast | src/lib/chat-context.tsx:92 | `slice(0, -1)` keeps every entry but the last, and gives `[]` for `[]`. |
| ChatContext.DropLastPush | src/lib/chat-context.tsx:73-92 | Rolling back right after an append restores the transcript. |
| ChatContext.FailureMessage | src/lib/chat-context.tsx:88-102 | A send fails exactly when the request threw or the response is not ok. A thrown request gives the retry message. A non-ok response gives its string `error`, or the default. |
| ChatContext.ChatProvider.constructor | src/lib/chat-context.tsx:32-52 | The provider starts with no messages, not loading, no error and no context. |
| ChatContext.ChatProvider.SetCurrentContext | src/lib/chat-context.tsx:54-65 | All three context fields are set; the transcript, loading flag and error are kept. |
| ChatContext.ChatProvider.ClearError | src/lib/chat-context.tsx:67 | The error is cleared and nothing else changes. |
| ChatContext.ChatProvider.BeginSend | src/lib/chat-context.tsx:69-86 | Blank text changes nothing and sends nothing. Otherwise the error is cleared, the trimmed user message appended and loading set. The request carries the trimmed text, the context and the earlier transcript. |
| ChatContext.ChatProvider.FinishSend | src/lib/chat-context.tsx:87-105 | A failure removes the last message and sets the error; success appends the assistant's text (or ""). Loading is off either way. |
| ChatContext.ChatProvider.SendMessage | src/lib/chat-context.tsx:69-106 | A failed send leaves the transcript as it was and sets the error. A successful one appends the user message and the reply. Loading ends off. Blank text changes nothing. |
| EasterEgg.StepValid | src/components/EasterEggButton.tsx:18-37 | Every event keeps the invariant: the count is in 0..2, and a reset timer is pending exactly when the count is not 0. That timer is the one the ref holds. |
| EasterEgg.RunValid | src/components/EasterEggButton.tsx:18-37 | Any sequence of clicks, timer firings and closes keeps the invariant. |
| EasterEgg.InitialValid | src/components/EasterEggButton.tsx:6-8 | The initial state (closed, count 0, no timer) satisfies the invariant. |
| EasterEgg.AtMostOneTimer | src/components/EasterEggButton.tsx:20-33 | At most one reset timer is ever pending. |
| EasterEgg.ThreeClicksOpen | src/components/EasterEggButton.tsx:24-30 | Three clicks from rest open the modal, reset the count and leave no timer. |
| EasterEgg.ResetForgetsClicks | src/components/EasterEggButton.tsx:33-36 | Once the reset timer fires, two more clicks do not open the modal. |
| EasterEgg.OnlyCloseCloses | src/components/EasterEggButton.tsx:54 | Only the close button closes an open modal. |
| EasterEgg.EasterEggButton.constructor | src/components/EasterEggButton.tsx:6-8 | The button starts in the initial state, which is valid. |
| EasterEgg.EasterEggButton.HandleClick | src/components/EasterEggButton.tsx:18-37 | A click performs the click step, keeps the invariant and never closes the modal. |
| EasterEgg.EasterEggButton.TimeoutFired | src/components/EasterEggButton.tsx:33-36 | A firing timer performs the reset step and leaves count 0 and no pending timer. |
| EasterEgg.EasterEggButton.CloseModal | src/components/EasterEggButton.tsx:54 | The close button closes the modal and changes nothing else. |
| EasterEgg.EasterEggButton.Unmount | src/components/EasterEggButton.tsx:10-16 | Unmounting cancels the pending timer and changes nothing else. |
| BouncingCrab.StepAxis | src/components/BouncingCrab.tsx:24-40 | One axis keeps its speed. Reaching the lower wall clamps to it heading up, reaching the upper wall clamps to it heading down, otherwise it moves by its velocity. It stays within ordered bounds. |
| BouncingCrab.StepPhysics | src/components/BouncingCrab.tsx:15-43 | Within ordered bounds the new position is inside them. Both speeds are kept, and the two axes are computed independently. |
| BouncingCrab.SimulateBounce | src/components/BouncingCrab.tsx:45-59 | The loop is the n-fold step: the start state for 0 or fewer steps, and inside ordered bounds after any step. |
| BouncingCrab.SimulateAdd | src/components/BouncingCrab.tsx:53-57 | Simulating n steps then k steps is simulating n+k steps. |
| BouncingCrab.SimulateKeepsSpeed | src/components/BouncingCrab.tsx:45-59 | Any number of steps keeps both speeds. |
| BouncingCrab.GetBounds | src/components/BouncingCrab.tsx:73-83 | Bounds exist exactly when the container does, and are always ordered. The minimum is -80 on both axes. On each axis the maximum is the container's extent less the crab plus the overshoot when the container is large enough, and the minimum otherwise. |
| BouncingCrab.TeleportInside | src/components/BouncingCrab.tsx:88-95 | The 360-step look-ahead (6 s at 60 fps) predicts a position inside the container's bounds. |
| BouncingCrab.CrabKeepsSpeed | src/components/BouncingCrab.tsx:7-68 | Starting at SPEED on both axes, the crab moves at SPEED on each axis after any number of steps. |

## Left out

- String lengths are counted in characters, where JavaScript counts UTF-16 code units. This matters for the chunk budgets, the 10000-character limit and the white-space set outside the Basic Multilingual Plane.
- Numbers are modelled as `real`, so the model has no floating-point rounding, NaN or infinity. This covers the rating sum, the rating thresholds and the crab's positions; `toFixed(2)` of the displayed rating is left out.
- `normalizeEmbedding` and `toVectorLiteral` (src/lib/rag-utils.js:117-134) are parameters of the model, not definitions: they are square roots, division and `toFixed(8)`.
- The regular expressions are predicates on the text, not a regex engine. `/\n\s*\n+/` is matched by `BlankLineMatch`. The retry and rate-limit patterns become `ContainsGapped` and `Contains` over the ASCII-lowered message.
- `toLowerCase` lowers ASCII letters only; the rest of Unicode case mapping is not modelled.
- The Gemini embedding and generation calls, the Postgres pool, Prisma's composition listing and `fetch` are parameters. Their results are inputs, and their failures are limited to the ones the code distinguishes: a thrown error or a malformed answer.
- The retry delays are recorded as values, not slept. `setTimeout` in the easter egg is the explicit `Fire` event, so its 600 ms delay is not measured, and `requestAnimationFrame` is not modelled.
- Console logging (`console.log`, `console.warn`, `console.error`) is left out.
- JSX rendering, the crab's fade and teleport animation, and the rest of BouncingCrab.tsx's component are left out; only `stepPhysics`, `simulateBounce`, `getBounds` and the step count are modelled.
- `CHATBOT_ROLE` is a parameter of `HandleChat`; src/lib/chatbot-config.ts is not part of this model.
- The model name, `taskType` and `outputDimensionality` passed to the embedding service are configuration, not behaviour.
- ChatContext.ChatProvider.SendMessage: models one send at a time. Overlapping sends, and a `ctxRef` that lags the latest render, are not modelled; the request's history is the transcript before the new message.
- The chat body's `history` is taken as a list of role/content entries; a `history` that is not an array is not modelled.
- SessionStorage.ReadSession: the legacy array is migrated unfiltered, as the code does. Only the next read filters it (`ReadAfterMigration`).
- Whether the database refuses a statement is a function of the statement alone (`Pool.reject`): it does not depend on the table, so a connection that drops part-way is modelled only as a refusal.
- `JSON.parse` and `JSON.stringify` are modelled on a small JSON value type. Invalid JSON is its own stored value, and no text-level serialisation is modelled.
- Retrieval over stored chunks is not modelled: the chat route sends every composition.
