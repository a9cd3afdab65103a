# Knowledge bases, prospects and theme of the WhatsApp setter panel, in Dafny

This project models the core of the setter panel's back office.

- **Knowledge bases.** A base is a named set of text points. Its points are embedded in batches by an embedding service and written to a vector index collection (Qdrant). The model covers:
  - the embedding manager: token counting, single and batch embedding, chunking, cost;
  - the vector-index manager: collections and points;
  - the knowledge-base handlers: bases, points, import, listing;
  - the synchronisation of a base to its collection.
- **Prospects.** Raw prospects are listed with filters and activated into leads. Activation normalises the phone to the session id, reads the experience and maps the urgency to an intent level.
- **Active prospects.** Leads are listed with search and filters. Their estado is changed in bulk, their chat history is turned into messages, and per-estado statistics are computed.
- **File processing.** The upload's extension is checked, a column mapping is suggested from synonyms, and rows are mapped to records.
- **Theme.** The client-side theme manager handles hex colours, brightness adjustment, the saved theme and the custom colour list.

External services are parameters of the operations that use them:
- the tokenizer's encode and decode;
- the embedding service;
- the index service's reachability;
- its similarity ranking;
- the embedder and upserter that the sync calls;
- the server's answers to the theme requests.

The database tables are values: a map of bases, a sequence of points in insertion order, a map of leads keyed by session id, and the raw prospects as a sequence.

Where state is updated in place, the model uses classes:
- `VectorIndex.IndexManager` (the index's collections);
- `KnowledgeBases.KnowledgeStore` (the two tables, the id counter and the clock);
- `Theme.ThemeManager` (current theme, colour list, stored list).

Each modelled loop of the source is a method, proved equal to a specification function, and the properties are lemmas about those functions. Three kinds of loop are not methods:
- the row-formatting loop of `list_points` (modules/knowledge_base/__init__.py:332) is a sequence comprehension inside `KnowledgeBases.PageOf`;
- the per-base loop of `list_bases` (modules/knowledge_base/__init__.py:66) is modelled only through `KnowledgeBases.ClassifySync` on one base;
- the loops of the listings under "## Left out" are not modelled.

| file | module | source |
|---|---|---|
| common.dfy | `Common` | Python string and integer built-ins the handlers use (`strip`, `lower`, `in`, `join`, `//`, `%s` binding) |
| embedding.dfy | `Embedding` | modules/knowledge_base/embedding_manager.py |
| chunking.dfy | `Chunking` | `chunk_text` of modules/knowledge_base/embedding_manager.py |
| vector_index.dfy | `VectorIndex` | modules/knowledge_base/qdrant_manager.py |
| kb_store.dfy | `KnowledgeBases` | modules/knowledge_base/__init__.py, except the sync |
| kb_sync.dfy | `KnowledgeSync` | `sync_base_to_qdrant` of modules/knowledge_base/__init__.py |
| prospectos.dfy | `Prospects` | modules/prospectos/__init__.py |
| prospectos_activos.dfy | `ActiveProspects` | modules/prospectos_activos/__init__.py |
| file_processor.dfy | `FileProcessing` | utils/file_processor.py |
| theme.dfy | `Theme` | static/js/theme.js |

## Model

| member | source | states |
|---|---|---|
| Common.StripIsSlice | modules/knowledge_base/__init__.py:126-128 | `strip()` keeps a contiguous slice of its input with no whitespace at either end and whitespace only outside it |
| Common.Strip | modules/knowledge_base/__init__.py:126-128 | `strip()` never lengthens its input and leaves no whitespace at either end |
| Common.Lower | modules/knowledge_base/__init__.py:135 | `lower()` keeps the length, maps only upper-case letters, and leaves nothing that lower-cases further |
| Common.StripEmptyIffBlank | modules/knowledge_base/embedding_manager.py:60-64 | a text strips to the empty string exactly when it is empty or whitespace only (the blank test of the handlers) |
| Common.StripIdempotent | modules/knowledge_base/__init__.py:126-128 | stripping twice gives what stripping once gives |
| Common.FilterKeepsOrder | modules/knowledge_base/__init__.py:675-683 | a sub-list selected by a filter keeps the order of the list it came from |
| Common.PlaceholdersJoin | modules/prospectos/__init__.py:142 | the `%s` count of `' AND '.join(parts)` is the sum over the parts |
| Common.Paginate | modules/prospectos_activos/__init__.py:87-88 | a page size of 0 fails (division by zero); otherwise the offset is `(page - 1) * page_size` and the number of pages is the ceiling of total / page_size |
| Embedding.CountTokens | modules/knowledge_base/embedding_manager.py:48-55 | the tokenizer's token count, or `len(text) // 4` when the tokenizer raises |
| Embedding.GenerateEmbedding | modules/knowledge_base/embedding_manager.py:57-99 | a blank text and a text over 8000 tokens are rejected; success returns the service's first vector, its length as dimensions and the token count |
| Embedding.ValidationPrecedesRequest | modules/knowledge_base/embedding_manager.py:60-74 | both rejections are decided before the service is asked: the answer is the same for every service |
| Embedding.NonBlank | modules/knowledge_base/embedding_manager.py:111 | the texts kept for the request are exactly the non-blank inputs |
| Embedding.NonBlankAppend | modules/knowledge_base/embedding_manager.py:111 | the kept texts of a concatenation are those of each part, in input order |
| Embedding.NonBlankCounts | modules/knowledge_base/embedding_manager.py:111 | every non-blank text is kept as many times as it occurs, a blank text never |
| Embedding.FirstOversize | modules/knowledge_base/embedding_manager.py:127-135 | none exactly when no text exceeds 8000 tokens; otherwise a count over 8000 |
| Embedding.FirstOversizeAt | modules/knowledge_base/embedding_manager.py:127-135 | the error reports the token count of the first oversize text |
| Embedding.EmbedBatch | modules/knowledge_base/embedding_manager.py:101-162 | empty list, all blank, over 2048 texts and an oversize text are rejected in that order; success sends the non-blank texts in order and returns the service's vectors with the token total |
| Embedding.OneEmbeddingPerValidText | modules/knowledge_base/embedding_manager.py:138-153 | with a full answer from the service there is one embedding per non-blank input |
| Embedding.GenerateEmbeddingsBatch | modules/knowledge_base/embedding_manager.py:101-162 | the validation and token loop compute exactly `EmbedBatch` |
| Embedding.EstimateCost | modules/knowledge_base/embedding_manager.py:227-249 | the cost is tokens times 0.13 USD per million |
| Chunking.Windows | modules/knowledge_base/embedding_manager.py:185-206 | the loop emits a window exactly when its start is inside the sequence |
| Chunking.WindowSizes | modules/knowledge_base/embedding_manager.py:185-206 | every window holds between 1 and `max_tokens` tokens |
| Chunking.ChunkTextSpec | modules/knowledge_base/embedding_manager.py:164-225 | chunk_text returns no chunk only for an empty text the tokenizer refuses; the first character chunk is a non-empty prefix of the text of at most `4 * max_tokens` characters |
| Chunking.StitchWindows | modules/knowledge_base/embedding_manager.py:185-206 | once the overlaps are removed, the windows concatenate to the input: nothing lost, nothing duplicated |
| Chunking.WindowCount | modules/knowledge_base/embedding_manager.py:185-206 | the number of windows in closed form, `1 + (L - max(overlap, 1)) // (max - overlap)` for long enough inputs |
| Chunking.ThreeWindowsForTen | modules/knowledge_base/embedding_manager.py:185-206 | 10 tokens with windows of 6 and overlap 2 give 3 windows, the last inside the second |
| Chunking.TokenChunks | modules/knowledge_base/embedding_manager.py:164-206 | a text over `max_tokens` gives at least two chunks, each the decoding of one window |
| Chunking.CharFallbackChunks | modules/knowledge_base/embedding_manager.py:208-225 | when the tokenizer raises, the chunks are non-empty slices of at most `4 * max_tokens` characters that reassemble the text, and there is none only for the empty text |
| Chunking.DecodeAll | modules/knowledge_base/embedding_manager.py:196-200 | one decoded chunk per window, in order |
| Chunking.ChunkText | modules/knowledge_base/embedding_manager.py:164-225 | the method computes the chunking specification: one chunk when it fits, the token windows otherwise, the character windows when the tokenizer raises |
| Chunking.ChunkTokens | modules/knowledge_base/embedding_manager.py:185-206 | the token loop emits the decoded windows |
| Chunking.ChunkChars | modules/knowledge_base/embedding_manager.py:208-225 | the character loop emits the character windows |
| VectorIndex.Create | modules/knowledge_base/qdrant_manager.py:47-75 | an existing name is an error and changes nothing; otherwise an empty cosine collection of the requested size is added |
| VectorIndex.Drop | modules/knowledge_base/qdrant_manager.py:77-97 | a missing name is an error; otherwise exactly that collection is removed |
| VectorIndex.UpsertOne | modules/knowledge_base/qdrant_manager.py:127-168 | the point is stored under its id in its collection, created with the vector's size if missing, and all other points and collections are kept |
| VectorIndex.UpsertAll | modules/knowledge_base/qdrant_manager.py:187-206 | a batch touches only its own ids and keeps every other point |
| VectorIndex.UpsertAllLast | modules/knowledge_base/qdrant_manager.py:187-206 | an id written by the batch holds the value of its last entry |
| VectorIndex.LastWith | modules/knowledge_base/qdrant_manager.py:187-206 | the last position of the batch holding an id |
| VectorIndex.UpsertAllIdempotent | modules/knowledge_base/qdrant_manager.py:187-206 | writing a batch twice leaves what writing it once did |
| VectorIndex.Structs | modules/knowledge_base/qdrant_manager.py:187-194 | one struct per entry, in order, or a failure when an entry has no vector |
| VectorIndex.UpsertBatch | modules/knowledge_base/qdrant_manager.py:170-215 | on success the count is the batch length and the collection holds the batch written in order; otherwise the index is unchanged, or only the auto-created collection was added |
| VectorIndex.DeleteOne | modules/knowledge_base/qdrant_manager.py:217-240 | the id is absent afterwards, absent ids are no error, and everything else is kept |
| VectorIndex.DeleteBatch | modules/knowledge_base/qdrant_manager.py:242-270 | exactly the listed ids are removed, and the count reported is the number of ids asked for |
| VectorIndex.CollectionInfo | modules/knowledge_base/qdrant_manager.py:99-125 | the info of an existing collection: its name and its point count, with one vector per point; a missing collection, or an unreachable server, gives the "does not exist" error |
| VectorIndex.Count | modules/knowledge_base/qdrant_manager.py:355-375 | the number of points of an existing collection |
| VectorIndex.Fetch | modules/knowledge_base/qdrant_manager.py:317-353 | the stored payload of an existing point, or "not found" |
| VectorIndex.Returned | modules/knowledge_base/qdrant_manager.py:296-302 | at most `limit` ids, each one the service ranked and one the collection stores |
| VectorIndex.CreateThenCount | modules/knowledge_base/qdrant_manager.py:47-75 | a new collection is empty, and the stored collection has the requested size and cosine distance |
| VectorIndex.CreateTwice | modules/knowledge_base/qdrant_manager.py:55-57 | creating the same collection again fails and changes nothing |
| VectorIndex.UpsertThenFetch | modules/knowledge_base/qdrant_manager.py:127-168 | `get_point` returns what `upsert_point` stored |
| VectorIndex.DeleteThenFetch | modules/knowledge_base/qdrant_manager.py:217-240 | after `delete_point` the point is not found, and deleting again succeeds without change |
| VectorIndex.UpsertBatchIdempotent | modules/knowledge_base/qdrant_manager.py:170-215 | repeating a batch upsert leaves the index as the first one did |
| VectorIndex.DeleteBatchCountsRequest | modules/knowledge_base/qdrant_manager.py:262-265 | the deleted count is the request's length even when no id was present |
| VectorIndex.IndexManager.constructor | modules/knowledge_base/qdrant_manager.py:17-21 | the manager starts from the given collections |
| VectorIndex.IndexManager.CollectionExists | modules/knowledge_base/qdrant_manager.py:38-45 | true exactly for a listed collection of a reachable service; nothing changes |
| VectorIndex.IndexManager.CreateCollection | modules/knowledge_base/qdrant_manager.py:47-75 | the collections become those of `Create` |
| VectorIndex.IndexManager.DeleteCollection | modules/knowledge_base/qdrant_manager.py:77-97 | the collections become those of `Drop` |
| VectorIndex.IndexManager.GetCollectionInfo | modules/knowledge_base/qdrant_manager.py:99-125 | returns `CollectionInfo` and changes nothing |
| VectorIndex.IndexManager.UpsertPoint | modules/knowledge_base/qdrant_manager.py:127-168 | the collections become those of `UpsertOne` |
| VectorIndex.IndexManager.UpsertPointsBatch | modules/knowledge_base/qdrant_manager.py:170-215 | the auto-create step, then the struct loop, then one write: the result and collections of `UpsertBatch` |
| VectorIndex.IndexManager.DeletePoint | modules/knowledge_base/qdrant_manager.py:217-240 | the collections become those of `DeleteOne` |
| VectorIndex.IndexManager.DeletePointsBatch | modules/knowledge_base/qdrant_manager.py:242-270 | the collections become those of `DeleteBatch` |
| VectorIndex.IndexManager.SearchSimilar | modules/knowledge_base/qdrant_manager.py:272-315 | for a missing collection or wrong query size, the service's error; otherwise one hit (id, payload) per returned point, in the service's order |
| VectorIndex.IndexManager.GetPoint | modules/knowledge_base/qdrant_manager.py:317-353 | returns `Fetch` and changes nothing |
| VectorIndex.IndexManager.CountPoints | modules/knowledge_base/qdrant_manager.py:355-375 | returns `Count` and changes nothing |
| KnowledgeBases.ClassifySync | modules/knowledge_base/__init__.py:67-85 | empty for no points, synced when all are, partial with the pending count when some are, pending otherwise, each with its caption and colour |
| KnowledgeBases.ClassifyDerivedCounters | modules/knowledge_base/__init__.py:67-85 | with counters derived from the points, partial means some but not all are synced and its caption counts a positive number pending |
| KnowledgeBases.ReplaceChar | modules/knowledge_base/__init__.py:133-136 | `replace` of one character: same length, that character swapped and every other kept |
| KnowledgeBases.KeepCollectionChars | modules/knowledge_base/__init__.py:133-136 | only alphanumerics and `_` are kept |
| KnowledgeBases.DerivedNameShape | modules/knowledge_base/__init__.py:133-136 | a derived collection name holds only alphanumerics and `_`, no capital, space or acute vowel, and is no longer than the base name |
| KnowledgeBases.DeriveCollectionName | modules/knowledge_base/__init__.py:133-136 | a derived collection name holds only alphanumerics and `_` and is no longer than the base name |
| KnowledgeBases.DeriveKeepsCleanName | modules/knowledge_base/__init__.py:133-136 | a name already made of lower-case alphanumerics and `_` without acute vowels is derived unchanged |
| KnowledgeBases.KeptCharsFrom | modules/knowledge_base/__init__.py:133-136 | every character kept by the filter comes from its input |
| KnowledgeBases.DeriveCollectionNameIdempotent | modules/knowledge_base/__init__.py:133-136 | deriving from a derived name changes nothing |
| KnowledgeBases.Preview | modules/knowledge_base/__init__.py:334 | contents over 150 characters become their first 150 and "...", shorter ones are shown whole |
| KnowledgeBases.ItemContent | modules/knowledge_base/__init__.py:451-476 | an item is accepted with its stripped, non-blank content, or skipped as empty or malformed |
| KnowledgeBases.ImportPartition | modules/knowledge_base/__init__.py:482-487 | every item is inserted or logged: imported + len(errors) == len(points) |
| KnowledgeBases.ImportOutcomeShape | modules/knowledge_base/__init__.py:451-476 | error positions are 1-based, within the request and increasing; inserted contents are non-blank |
| KnowledgeBases.ImportedPoints | modules/knowledge_base/__init__.py:451-476 | the inserted rows get fresh consecutive ids, are unsynced and carry the item's content and metadata |
| KnowledgeBases.ImportLoop | modules/knowledge_base/__init__.py:451-476 | the loop inserts exactly the accepted items and logs exactly the rejected ones |
| KnowledgeBases.View | modules/knowledge_base/__init__.py:330-345 | the row shown for a point: its id, full content and preview |
| KnowledgeBases.ConsistentGrow | modules/knowledge_base/__init__.py:159-164 | adding bases, advancing the clock and the id counter keep the tables consistent |
| KnowledgeBases.ConsistentAppend | modules/knowledge_base/__init__.py:388-393 | appending fresh, well-formed points keeps the tables consistent |
| KnowledgeBases.ConsistentReplace | modules/knowledge_base/__init__.py:564-572 | replacing a point by one with the same id and creation time keeps the tables consistent |
| KnowledgeBases.ConsistentRemove | modules/knowledge_base/__init__.py:601-640 | removing a point keeps the tables consistent |
| KnowledgeBases.ConsistentDropBase | modules/knowledge_base/__init__.py:240-279 | dropping a base with its points keeps the tables consistent |
| KnowledgeBases.Unsynced | modules/knowledge_base/__init__.py:675-683 | the pending points are exactly the base's unsynced points, in table order |
| KnowledgeBases.ImportedPointsOk | modules/knowledge_base/__init__.py:451-476 | imported rows are unique, oldest first and well formed |
| KnowledgeBases.PageOf | modules/knowledge_base/__init__.py:313-334 | page `page` shows the rows from `(page - 1) * page_size` on, newest first; a non-positive page size or a page before the first fails |
| KnowledgeBases.OffsetSign | modules/knowledge_base/__init__.py:313-314 | the offset is negative exactly before the first page |
| KnowledgeBases.Matching | modules/knowledge_base/__init__.py:303-306 | the listed points are exactly those whose content contains the search text, case-insensitively (the metadata arm is left out) |
| KnowledgeBases.MatchesSearch | modules/knowledge_base/__init__.py:303-306 | an empty search text matches every point; a matching point's content is at least as long as the search text |
| KnowledgeBases.MatchingEverything | modules/knowledge_base/__init__.py:303 | without a search text every point is listed, in order |
| KnowledgeBases.BaseAdded | modules/knowledge_base/__init__.py:145-164 | a new base with a fresh id and an unused collection name keeps the bases well formed |
| KnowledgeBases.KnowledgeStore.PointsOf | modules/knowledge_base/__init__.py:322 | the points of a base, in insertion order |
| KnowledgeBases.KnowledgeStore.SyncedPoints | modules/knowledge_base/__init__.py:67-85 | `synced_points` is at most `total_points` |
| KnowledgeBases.KnowledgeStore.PendingOf | modules/knowledge_base/__init__.py:675-683 | the points sync selects: this base's unsynced points |
| KnowledgeBases.KnowledgeStore.PendingOldestFirst | modules/knowledge_base/__init__.py:675-683 | the pending points come out by `created_at` ascending |
| KnowledgeBases.KnowledgeStore.CreateBase | modules/knowledge_base/__init__.py:120-186 | a blank name is refused and a collection name in use is refused, both without change; otherwise one base with a fresh id and the chosen collection name is added |
| KnowledgeBases.KnowledgeStore.DeleteBase | modules/knowledge_base/__init__.py:240-279 | a missing base is "not found"; otherwise the base and exactly its points are removed |
| KnowledgeBases.KnowledgeStore.CreatePoint | modules/knowledge_base/__init__.py:362-416 | blank content and a missing base are refused; otherwise one unsynced point with the stripped content is appended |
| KnowledgeBases.KnowledgeStore.ImportPoints | modules/knowledge_base/__init__.py:419-496 | a missing or empty array and a missing base are refused; otherwise the imported rows are appended and reported with the errors |
| KnowledgeBases.KnowledgeStore.IndexOf | modules/knowledge_base/__init__.py:499-543 | the position of the point with that id, none when absent |
| KnowledgeBases.KnowledgeStore.GetPoint | modules/knowledge_base/__init__.py:499-543 | the point with that id, none when absent |
| KnowledgeBases.KnowledgeStore.UpdatePoint | modules/knowledge_base/__init__.py:545-599 | blank content and a missing id are refused; otherwise only that point changes: new content and metadata, unsynced |
| KnowledgeBases.KnowledgeStore.DeletePoint | modules/knowledge_base/__init__.py:601-640 | a missing id is "not found"; otherwise exactly that row is removed |
| KnowledgeBases.KnowledgeStore.ListPoints | modules/knowledge_base/__init__.py:285-360 | one page of the base's points whose content matches the stripped search text, newest first, with the total; a blank search text filters nothing (the metadata arm is left out) |
| KnowledgeBases.KeptDistinct | modules/knowledge_base/__init__.py:270 | removing rows from a table with unique ids keeps them unique |
| KnowledgeSync.UpsertBatchWrites | modules/knowledge_base/qdrant_manager.py:170-215 | a batch upsert stores each entry's vector and payload under its id and keeps the other points |
| KnowledgeSync.NumBatchesCovers | modules/knowledge_base/__init__.py:710 | the batches of 50 cover the pending list and the last is not empty |
| KnowledgeSync.BatchAt | modules/knowledge_base/__init__.py:711 | batch j is `pending[50 * j : 50 * j + 50]` |
| KnowledgeSync.Inputs | modules/knowledge_base/__init__.py:732-741 | one entry per point of the batch: its id, the vector at its position, its content and metadata |
| KnowledgeSync.MarkSynced | modules/knowledge_base/__init__.py:750-755 | the batch's points become synced with their own id as index id; all others are unchanged |
| KnowledgeSync.MarkSyncedTwice | modules/knowledge_base/__init__.py:750-755 | two updates in one transaction equal one over both id lists |
| KnowledgeSync.AbortSticks | modules/knowledge_base/__init__.py:710-760 | once the loop has stopped on an IndexError, later batches change nothing |
| KnowledgeSync.RunCounts | modules/knowledge_base/__init__.py:710-760 | every point of the batches run is counted once, as synced or failed, and exactly the synced ones are marked |
| KnowledgeSync.RunBatch | modules/knowledge_base/__init__.py:716-760 | the loop stops only on an embedding answer with too few vectors; otherwise a batch is synced and marked whole, or fails whole with one failure entry |
| KnowledgeSync.RunUpTo | modules/knowledge_base/__init__.py:710-760 | while the loop runs, the synced count equals the number of marked ids and there is at most one failure entry per batch |
| KnowledgeSync.MarkedAreIndexed | modules/knowledge_base/__init__.py:744-760 | every marked point is in the collection with its own content and metadata, never overwritten by a later batch |
| KnowledgeSync.NoErrorsMarksAll | modules/knowledge_base/__init__.py:744-760 | with no failure, exactly the points run are marked, in order |
| KnowledgeSync.FullAnswersNeverAbort | modules/knowledge_base/__init__.py:732-741 | if every embedding request answers one vector per text, the loop never stops early |
| KnowledgeSync.RunBillsEveryBatch | modules/knowledge_base/__init__.py:716-729 | the run's billed tokens are the sum over all successful embedding requests |
| KnowledgeSync.SyncCost | modules/knowledge_base/__init__.py:773-775 | the corrected cost: every successful embedding request of the sync is billed, where the source bills only the last one (see Findings) |
| KnowledgeSync.SyncCostAsWritten | modules/knowledge_base/__init__.py:773-775 | the source's cost: from the last embedding result only |
| KnowledgeSync.CostAsWrittenUndercounts | modules/knowledge_base/__init__.py:773-775 | with two batches or more and a billed first batch, the as-written cost is below the tokens billed |
| KnowledgeSync.ReportOf | modules/knowledge_base/__init__.py:777-785 | the response holds the counters, the failures, the point total and the corrected cost `SyncCost` |
| KnowledgeSync.EnsureCollection | modules/knowledge_base/__init__.py:698-708 | an existing collection is kept; a missing one is created with the base's dimension |
| KnowledgeSync.Sync | modules/knowledge_base/__init__.py:642-794 | a missing base fails; nothing pending returns early without change; a failed collection step leaves the tables; otherwise the run is committed and the base stamped; the report carries the corrected cost |
| KnowledgeSync.SyncCountsEveryPendingPoint | modules/knowledge_base/__init__.py:777-785 | synced + errors == total == the number of pending points |
| KnowledgeSync.SyncWithoutErrorsLeavesNothingPending | modules/knowledge_base/__init__.py:744-771 | a sync with no failure leaves the base with nothing pending |
| KnowledgeSync.SyncedPointsAreIndexed | modules/knowledge_base/__init__.py:744-760 | every point a sync marks synced is in the base's collection with its content and metadata |
| KnowledgeSync.SyncKeepsConsistent | modules/knowledge_base/__init__.py:642-794 | the sync keeps the tables consistent |
| KnowledgeSync.SyncBase | modules/knowledge_base/__init__.py:642-794 | the store and the index end as `Sync` describes (with the corrected cost), and the store stays valid |
| KnowledgeSync.SyncTables | modules/knowledge_base/__init__.py:659-785 | the handler's steps on the tables compute `Sync`, with the corrected cost |
| KnowledgeSync.RunBatches | modules/knowledge_base/__init__.py:710-760 | the batch loop computes the run over all batches, with the copied table marked in step |
| KnowledgeSync.SyncBatch | modules/knowledge_base/__init__.py:716-760 | one pass computes one step of the run specification |
| KnowledgeSync.BatchInputs | modules/knowledge_base/__init__.py:732-741 | the entries of `Inputs`, or none when the answer is shorter than the batch |
| Prospects.PhoneDigits | modules/prospectos/__init__.py:40-41 | only the digits of the stripped text, in order |
| Prospects.Canonical | modules/prospectos/__init__.py:46-52 | nine digits starting with 9 gain `56`, eight gain `569`, anything else is refused |
| Prospects.NormalizePhoneAsWritten | modules/prospectos/__init__.py:35-52 | normalize_phone as written: a result is always `569` followed by eight digits |
| Prospects.NormalizePhone | modules/prospectos/__init__.py:35-52 | the corrected normalisation: a result is `569` followed by eight digits |
| Prospects.NormalizePhoneIdempotent | modules/prospectos/__init__.py:35-52 | a normalised number normalises to itself |
| Prospects.EightDigitsGetPrefix | modules/prospectos/__init__.py:49-50 | every eight-digit number gets the `569` prefix |
| Prospects.EightDigitsRefusedAsWritten | modules/prospectos/__init__.py:43-50 | as written, an eight-digit number starting with `56` is refused |
| Prospects.NormalizePhoneAgrees | modules/prospectos/__init__.py:35-52 | the two versions differ only on eight- and nine-digit strings starting with `56` |
| Prospects.SortColumn | modules/prospectos/__init__.py:72-75 | the column is whitelisted; an unknown one becomes `created_at` |
| Prospects.SortOrder | modules/prospectos/__init__.py:78-79 | the order upper-cases to ASC or DESC; anything else becomes DESC |
| Prospects.BuildFilterWhere | modules/prospectos/__init__.py:119-142 | the filter loop builds the filter clauses in order, joined by AND, with their parameters |
| Prospects.PlaceholderListCount | modules/prospectos/__init__.py:132 | `','.join(['%s'] * n)` holds n placeholders |
| Prospects.ListClausePlaceholders | modules/prospectos/__init__.py:128-140 | one list filter adds as many `%s` as parameters |
| Prospects.WherePlaceholders | modules/prospectos/__init__.py:119-144 | the WHERE text holds exactly one `%s` per parameter |
| Prospects.FirstKey | modules/prospectos/__init__.py:445-448 | the first entry whose key occurs in the text, or the table's length when none does |
| Prospects.FirstMatch | modules/prospectos/__init__.py:443-448 | the loop returns the level of the first key found, none when no key occurs |
| Prospects.AsWrittenNeverListo | modules/prospectos/__init__.py:435-448 | with the table as written, no urgency yields `listo` |
| Prospects.AsWrittenMisreadsMuyAlta | modules/prospectos/__init__.py:435-448 | as written, "muy alta" yields `decidido` |
| Prospects.AsWrittenMisreadsInmediata | modules/prospectos/__init__.py:435-448 | as written, "inmediata" yields `explorando` |
| Prospects.IntentListoIffUrgent | modules/prospectos/__init__.py:435-448 | with specific keys first, `listo` is given exactly to texts holding "muy alta" or "inmediata" |
| Prospects.IntentAgreesOtherwise | modules/prospectos/__init__.py:435-448 | on every other text the reordered table agrees with the written one |
| Prospects.FirstNumber | modules/prospectos/__init__.py:428-430 | the first maximal run of digits, none when there is no digit |
| Prospects.DecimalValueOfNat | modules/prospectos/__init__.py:430 | `int(str(n)) == n` |
| Prospects.Experience | modules/prospectos/__init__.py:423-432 | none for an empty column or one without digits, else the first number |
| Prospects.ExperienceReadsNumber | modules/prospectos/__init__.py:423-432 | a number between digit-free text is read back as that number |
| Prospects.UpsertLead | modules/prospectos/__init__.py:451-480 | a new session id gets a lead with estado `nuevo`; an existing one is overwritten except its estado; other leads are kept |
| Prospects.LeadOf | modules/prospectos/__init__.py:451-478 | the lead carries the given estado, a non-empty channel (`importacion` by default), an experience only from a text with a digit, and an intent among the four levels |
| Prospects.Fetched | modules/prospectos/__init__.py:395-403 | the rows whose id was asked for, in table order |
| Prospects.MarkActivated | modules/prospectos/__init__.py:483-487 | exactly the rows of activated ids get estado `activado` |
| Prospects.ActivateProspects | modules/prospectos/__init__.py:378-530 | an empty id list is refused; otherwise the fetch, loop and response of `Activation`, under the corrected phone rule and urgency map |
| Prospects.ActivationLoop | modules/prospectos/__init__.py:405-499 | the per-prospect loop computes the tally specification, under the corrected phone rule and urgency map |
| Prospects.Upsert | modules/prospectos/__init__.py:435-480 | one prospect's upsert, with its intent found by the urgency loop over the corrected map |
| Prospects.StepFields | modules/prospectos/__init__.py:409-489 | an invalid phone (corrected rule) adds one skip and its error; a valid one adds one activation, its lead and its id |
| Prospects.TalliedCounts | modules/prospectos/__init__.py:405-499 | activated + skipped == fetched, with one error per skip |
| Prospects.TalliedErrors | modules/prospectos/__init__.py:411-417 | the errors are exactly the invalid-phone messages (corrected rule) of the skipped prospects |
| Prospects.TalliedDone | modules/prospectos/__init__.py:483-489 | exactly the prospects with a valid phone (corrected rule) are marked activated |
| Prospects.TalliedLeads | modules/prospectos/__init__.py:451-480 | earlier leads keep their estado, new leads are keyed by a canonical mobile number and start as `nuevo`, every valid phone (corrected rule) has a lead |
| Prospects.SinCambiosIffNothingFetched | modules/prospectos/__init__.py:506-517 | "Sin cambios" exactly when no asked id was in the table |
| Prospects.MessageSinCambios | modules/prospectos/__init__.py:505-516 | the message is "Sin cambios" exactly when nothing was activated or skipped |
| Prospects.Respond | modules/prospectos/__init__.py:505-520 | the response repeats the counters, says "Sin cambios" exactly when both are 0, and carries the errors as warnings only when there are one to five |
| Prospects.Activation | modules/prospectos/__init__.py:378-520 | refused exactly for an empty id list; otherwise every fetched prospect is counted once, the prospect table keeps its rows and no lead is dropped |
| Prospects.WarningsIffFewSkipped | modules/prospectos/__init__.py:519-520 | warnings are attached exactly when one to five prospects were skipped |
| ActiveProspects.AppendSearch | modules/prospectos_activos/__init__.py:60-66 | a non-blank search adds the ILIKE clause and its pattern four times |
| ActiveProspects.AppendEquals | modules/prospectos_activos/__init__.py:69-79 | a non-blank filter adds `column = %s` and its value |
| ActiveProspects.BuildActiveWhere | modules/prospectos_activos/__init__.py:57-81 | the appends build the WHERE text and parameters of the filters in order, `1=1` when none applies |
| ActiveProspects.SearchClauseMarkers | modules/prospectos_activos/__init__.py:62-65 | the search clause holds four `%s` |
| ActiveProspects.ActiveWherePlaceholders | modules/prospectos_activos/__init__.py:57-84 | the WHERE text holds exactly one `%s` per parameter |
| ActiveProspects.ActiveWhereTrivialIffBlank | modules/prospectos_activos/__init__.py:81 | the WHERE text is `1=1` exactly when every filter is blank |
| ActiveProspects.SearchAddsFourPatterns | modules/prospectos_activos/__init__.py:61-66 | a search binds `%search%` four times, before any other parameter |
| ActiveProspects.SortColumn | modules/prospectos_activos/__init__.py:100-109 | only whitelisted SQL reaches ORDER BY; unknown keys sort by `l.dias_transcurridos` |
| ActiveProspects.SortDirection | modules/prospectos_activos/__init__.py:110 | ASC exactly when the order upper-cases to ASC, DESC otherwise |
| ActiveProspects.SetEstado | modules/prospectos_activos/__init__.py:469-479 | exactly the listed existing rows get the estado and are reported; the others keep theirs |
| ActiveProspects.ChangeEstado | modules/prospectos_activos/__init__.py:433-490 | a change is accepted exactly for a non-empty id list and one of the six estados, and then touches only the estado of the listed rows |
| ActiveProspects.ChangeMessage | modules/prospectos_activos/__init__.py:487 | the message starts with the count in digits and ends with the new estado |
| ActiveProspects.ChangeEstadoKeepsValid | modules/prospectos_activos/__init__.py:447-457 | a table whose estados are all valid stays so |
| ActiveProspects.ActivateIsChangeToEnProceso | modules/prospectos_activos/__init__.py:379-422 | activating is changing the estado to `en_proceso` |
| ActiveProspects.ActivateLeads | modules/prospectos_activos/__init__.py:379-422 | refused exactly without ids; otherwise the listed rows, and only they, move to `en_proceso` |
| ActiveProspects.Role | modules/prospectos_activos/__init__.py:303-310 | `human` reads as `user`, `ai` as `assistant`, a missing type as `user`, any other type is kept |
| ActiveProspects.MapMessages | modules/prospectos_activos/__init__.py:295-320 | the loop computes the message list specification |
| ActiveProspects.Messages | modules/prospectos_activos/__init__.py:295-320 | no more messages than rows, and none with an n8n role name |
| ActiveProspects.ObjectRows | modules/prospectos_activos/__init__.py:296-302 | only rows holding a JSON object, from the input |
| ActiveProspects.MessagesFollowRows | modules/prospectos_activos/__init__.py:295-320 | one message per object row, in row order, none with an n8n role name |
| ActiveProspects.Stats | modules/prospectos_activos/__init__.py:572-580 | one entry per grouped row, in query order, with its name and colour |
| ActiveProspects.BuildStats | modules/prospectos_activos/__init__.py:572-580 | the loop computes `Stats` |
| ActiveProspects.StatLabels | modules/prospectos_activos/__init__.py:553-578 | the tables cover the six estados; an unknown estado keeps its key as name and gets `secondary` |
| FileProcessing.LastIndexOf | utils/file_processor.py:13-14 | the last position of the character, none when absent |
| FileProcessing.AllowedFileIff | utils/file_processor.py:9-14 | a name is accepted exactly when it is a stem, a dot and a dot-free extension that lower-cases to csv, xlsx, xls or tsv |
| FileProcessing.AllowedFile | utils/file_processor.py:11-14 | an accepted name holds a dot and at least four characters |
| FileProcessing.LastIndexOfSkips | utils/file_processor.py:13-14 | characters other than the dot after a name do not move its last dot |
| FileProcessing.NormalizeIdempotent | utils/file_processor.py:70-75 | normalising a normalised column name changes nothing |
| FileProcessing.NormalizeColumnName | utils/file_processor.py:70-75 | a missing name gives `""`; a normalised name is no longer than the name and has no whitespace at either end |
| FileProcessing.NormalizedColumns | utils/file_processor.py:92-95 | the keys are exactly the normalised column names |
| FileProcessing.LastColumnWins | utils/file_processor.py:92-95 | when columns collide after normalising, the last one is kept |
| FileProcessing.FirstSynonym | utils/file_processor.py:98-102 | none when no synonym names a column; else the column of the first synonym that does |
| FileProcessing.MatchSynonym | utils/file_processor.py:98-102 | the inner loop computes `FirstSynonym` |
| FileProcessing.IndexColumns | utils/file_processor.py:92-95 | the comprehension computes `NormalizedColumns` |
| FileProcessing.SuggestMappingLoop | utils/file_processor.py:77-104 | the nested loops compute the suggestion specification |
| FileProcessing.SuggestedKeys | utils/file_processor.py:97-102 | exactly the fields with a synonym that names a column are mapped |
| FileProcessing.SuggestedValue | utils/file_processor.py:97-102 | every suggested column is a file column named by one of the field's synonyms |
| FileProcessing.SuggestedFirstSynonymWins | utils/file_processor.py:98-102 | a field's column is the one its first matching synonym names |
| FileProcessing.SuggestMapping | utils/file_processor.py:77-104 | every suggested key is a target field and every suggested value a column of the file |
| FileProcessing.SuggestedInColumns | utils/file_processor.py:97-102 | every key of the suggestion is a target field, every value a file column |
| FileProcessing.Json | utils/file_processor.py:135-140 | timestamps become text; everything else is kept |
| FileProcessing.FieldValue | utils/file_processor.py:125-142 | a value exactly when the source names a file column holding a value |
| FileProcessing.MapRow | utils/file_processor.py:124-159 | the two inner loops build the record of one row |
| FileProcessing.ProcessAndMap | utils/file_processor.py:106-163 | the row loop builds one record per row |
| FileProcessing.MappedFollowsRows | utils/file_processor.py:123-161 | one record per row, in row order |
| FileProcessing.FieldsKeys | utils/file_processor.py:124-142 | the record's fields are exactly the mapping's target fields |
| FileProcessing.RecordOf | utils/file_processor.py:124-161 | a record has a field for exactly the mapping's targets, and additional data only when some unmapped file column holds a value |
| FileProcessing.FieldsValues | utils/file_processor.py:125-142 | a field's value comes from its source column |
| FileProcessing.AdditionalColumns | utils/file_processor.py:144-159 | `datos_adicionales` holds exactly the present values of the unmapped columns, and is absent when there are none |
| Theme.HexDigits | static/js/theme.js:63 | six hex digits after an optional `#`, or none |
| Theme.HexToRgb | static/js/theme.js:62-69 | three bytes, black for a non-matching text |
| Theme.Clamp | static/js/theme.js:75 | the result is a byte, and a byte is left unchanged |
| Theme.Adjust | static/js/theme.js:73-76 | the adjusted channel is a byte |
| Theme.Hex2 | static/js/theme.js:78-80 | two hex digits that read back as the byte |
| Theme.RgbToHex | static/js/theme.js:82 | `#` and six lower-case hex digits |
| Theme.AdjustBrightness | static/js/theme.js:71-83 | the result is `#` and six lower-case hex digits |
| Theme.HexRoundTrip | static/js/theme.js:62-83 | reading back a written colour gives the colour |
| Theme.AdjustReadsBack | static/js/theme.js:71-83 | the adjusted colour read back has each channel scaled, rounded and clamped |
| Theme.AdjustZero | static/js/theme.js:73-76 | 0 percent keeps every byte |
| Theme.AdjustDirection | static/js/theme.js:73-76 | a negative percent never brightens; a positive one never darkens |
| Theme.RgbToHexOfDigits | static/js/theme.js:62-83 | a valid colour, read and written again, is its lower-case form |
| Theme.AdjustZeroIsLowerCase | static/js/theme.js:71-83 | with 0 percent a valid colour comes back lower-cased with its `#` |
| Theme.AddColor | static/js/theme.js:127-132 | every colour and the order are kept, the colour is added once at the end when new, and the list stays duplicate-free |
| Theme.ThemeManager.constructor | static/js/theme.js:3-7 | no theme and no colours |
| Theme.ThemeManager.LoadTheme | static/js/theme.js:18-29 | the server's theme, or `#25D366` when it is empty or the request fails |
| Theme.ThemeManager.LoadCustomColors | static/js/theme.js:119-125 | the stored list replaces the list when there is one |
| Theme.ThemeManager.SaveTheme | static/js/theme.js:31-49 | the theme changes exactly when the server reports success |
| Theme.ThemeManager.AddCustomColor | static/js/theme.js:127-134 | a new colour is appended and stored; the theme is then saved either way |

## Left out

- Database access is left out: connections, cursors, commits, rollbacks, and the exceptions raised by the driver or the SQL itself (`except Exception` branches that answer 500). The tables are values and every statement succeeds.
- Per-prospect SQL failures in the activation loop (the `except` that counts a skip with the exception text) are left out. Only the invalid-phone skip is modelled.
- SQL text is not modelled character for character. ILIKE is a case-insensitive substring test over ASCII and Latin-1. `ORDER BY` is the table's insertion order, and `created_at` ties are broken by insertion.
- Unicode is modelled only for ASCII and Latin-1. `lower`, `isalnum` and `strip` follow Python on U+0000..U+00FF.
- Common.Upper: only `a`..`z` are mapped; Latin-1 lower-case letters are left unchanged. The source applies `upper()` only to a sort order before comparing it with `ASC` and `DESC`, so no other letter changes that outcome.
- Listing the raw prospects and the active leads (the SELECT, the LEFT JOIN on the chat table, row formatting, filter options) is left out. Its WHERE builder, sort whitelist and pagination arithmetic are modelled.
- The prospect detail formatting of `get_mensajes` (dates with `strftime`, the followup blocks) is left out. The message loop is modelled.
- An empty JSON list as a prospect filter yields `IN ()`, which PostgreSQL rejects. The model builds that text and leaves its execution out.
- A filter value that is not a JSON list is ignored, as in the source. JSON parsing is replaced by the already-parsed value.
- The leads table read by `prospectos_activos` needs an `estado` column that the schema script does not create. The model assumes the column exists.
- Prospects.MarkActivated: the `UPDATE prospectos_raw SET estado = 'activado'` needs an `estado` column on `prospectos_raw`, which the schema script (`init_db.py`) does not create either. Against that schema the statement raises, every valid prospect is counted as skipped with the exception text, and the transaction rolls back. The model assumes the column exists, as the `Prospect.estado` field does.
- Deleting a base or a point does not remove its vectors from the index; the source leaves that as a TODO. The model keeps the index untouched.
- KnowledgeBases.KnowledgeStore.ListPoints: the search is a plain substring test. In the source's ILIKE pattern `%` and `_` in the search text act as wildcards; the model matches them literally.
- KnowledgeBases.Matching, KnowledgeBases.KnowledgeStore.ListPoints: points are searched only by content. The source's second arm, `metadata::text ILIKE` the search pattern, is left out, so a point whose metadata alone contains the search text is listed by the source and not by the model.
- VectorIndex.CollectionInfo, VectorIndex.IndexManager.GetCollectionInfo: the service's `status` and `optimizer_status` fields are left out, as they depend on the server's internal state. `vectors_count` is taken to be the point count, since every point carries one vector.
- Vector search: `score_threshold` is left out. Similarity scores come from an oracle ranking, not from cosine arithmetic.
- The tokenizer's decode is total. An exception from it is not modelled.
- Embedding.EstimateCost: exact rationals; the 6-decimal rounding and formatting of the response are not modelled.
- Embedding.EmbedBatch: the embedding service is an oracle; network errors, rate limits and retries are one failed answer.
- KnowledgeSync.Sync: the embedder and upserter are parameters; `BatchEmbedder` and `IndexUpsert` are the ones the service uses, and the indexing lemmas assume only `Upholds`, which `IndexUpsertUpholds` proves for the real upsert.
- KnowledgeBases.ItemContent: every per-item exception of the import (a non-object item, a bad metadata value) is the single `Malformed` case.
- The import's surrounding transaction (one commit for all inserts) is the single state change of `ImportPoints`.
- ActiveProspects.BuildActiveWhere: the search clause's whitespace and line breaks are not reproduced; the clause text is a single line with the same columns and markers.
- FileProcessing.ProcessAndMap: the file is already decoded into a table; reading CSV, TSV and Excel files, encoding detection and the delimiter retry (`read_file`, `detect_encoding`, `get_columns`, `get_preview`) are left out. Cell values are text, numbers, flags or timestamps; pandas dtypes and NaN detection are a `Missing` cell.
- A mapping target named `datos_adicionales` would be overwritten by the additional data. The model keeps the two apart in the record.
- Theme: the DOM, localStorage serialisation, `fetch`, the asynchronous `init`, event listeners, `applyTheme`, `setActiveColorButton`, `openColorPicker` and `renderCustomColors` are left out. Server answers are parameters.
- Theme.Adjust: JavaScript floating point is modelled by exact rationals with an integer percent. `Math.round` rounds half up.
- `test_connection` and `get_model_info` of the two managers only report configuration and connectivity, and are left out.
- Concurrency between requests is left out: every handler runs alone.
- Chunking.ChunkText: requires `overlap < max_tokens`. The source's loop sets `start = end - overlap`; with `overlap >= max_tokens` and a text longer than `max_tokens` tokens (say 200 and 200) the start never advances and the loop does not terminate. A negative overlap is excluded by the `nat` type. Those configurations are outside the model.
- KnowledgeSync.SyncCost: models the corrected cost of the Findings row. The source's response reports `estimate_cost` of the last batch's `total_tokens` only: for 60 pending points in two batches the source bills the second batch, the model both. `SyncCostAsWritten` and `CostAsWrittenUndercounts` state the source's figure.
- KnowledgeSync.ReportOf: reports the corrected `SyncCost`, not the last batch's cost the source reports.
- KnowledgeSync.Sync: its report carries the corrected cost, not the source's last-batch cost.
- KnowledgeSync.SyncBase: computes `Sync`, so its report carries the corrected cost.
- KnowledgeSync.SyncTables: accumulates the billed tokens of every batch for the corrected cost, where the source keeps only the last result.
- Prospects.ActivateProspects: runs under the corrected phone rule and the corrected urgency map of the Findings rows. The source differs on urgency "muy alta" (source `decidido`, model `listo`), urgency "inmediata" (source `explorando`, model `listo`) and phone "56123456" (source skips it, model activates it as `56956123456`). `NormalizePhoneAsWritten`, `IntentMapAsWritten` and their lemmas state the source's behaviour.
- Prospects.ActivationLoop: the loop of `ActivateProspects`, under the same corrected phone rule and urgency map.
- Prospects.Upsert: finds the intent in the corrected urgency map; the source's map order sends "muy alta" to `decidido` and "inmediata" to `explorando`.
- Prospects.StepFields: uses the corrected phone rule; the source skips "56123456".
- Prospects.TalliedErrors: the skipped prospects are those the corrected phone rule refuses.
- Prospects.TalliedDone: the activated prospects are those the corrected phone rule accepts.
- Prospects.TalliedLeads: leads are keyed by the corrected phone rule and carry intents of the corrected urgency map.
- Prospects.LeadOf, Prospects.UpsertLead, Prospects.Activation: these use the corrected urgency map, and `Activation` also the corrected phone rule. On urgency "muy alta" the source writes `decidido` where they give `listo`, and on "inmediata" `explorando` where they give `listo`. On phone "56123456" the source skips the prospect, while `Activation` activates it as `56956123456`.
- ActiveProspects.Role: a history message whose JSON `type` is `null` keeps `None` as its role in the source; the model reads a null `type` like a missing one and gives `user`. A null `content` is likewise read as a missing one.
- Chunking.WindowCount: the count is what the loop emits. A loop that stops on a short tail yields one window more than `ceil((n - overlap) / (max - overlap))` when `n - overlap` is a multiple of `max - overlap` (see `ThreeWindowsForTen`). The model follows the code.

## Findings

| source | as written | input that shows it | evidently intended | confidence | as-written member | corrected member |
|---|---|---|---|---|---|---|
| modules/knowledge_base/__init__.py:773-775 | the reported cost uses the token total of the last embedding result only | a sync of 60 pending points: two batches, and only the second batch's tokens are billed in the report | the cost of every embedding request of the sync | not executed | KnowledgeSync.CostAsWrittenUndercounts | KnowledgeSync.RunBillsEveryBatch |
| modules/prospectos/__init__.py:435-448 | the dictionary is searched in order with `key in urgencia`; "alta" and "media" come before "muy alta" and "inmediata" | urgency "muy alta" gives `decidido`, "inmediata" gives `explorando` | `listo` for "muy alta" and "inmediata" | not executed | Prospects.AsWrittenNeverListo | Prospects.IntentListoIffUrgent |
| modules/prospectos/__init__.py:43-50 | a leading "56" is always taken for the country code | the eight-digit number "56123456" is refused | an eight-digit subscriber number gets the `569` prefix | not executed | Prospects.EightDigitsRefusedAsWritten | Prospects.EightDigitsGetPrefix |
