# MevzuatAI retrieval core in Dafny

This project models the retrieval half of MevzuatAI, a question-answering
system over Turkish legislation. Five parts are covered:

- **Chunking and the embedding job.** Each law text is split into chunks.
  Article (`MADDE N`) units are packed greedily under a 7000-token ceiling,
  with a sentence-packing fallback. Every chunk is stamped with
  `<law number>_<index>`. The chunks are then sent to an embeddings
  endpoint with exponential back-off on rate limits. A law whose chunk
  fails keeps the chunks embedded before the failure, and the job moves
  on to the next law (`create_embeddings.py`).
- **`RAGSystem`.** It loads the newest local snapshot of
  embeddings and chunks. It ranks chunks by similarity to the query and
  keeps one hit per law name, numbered by rank (`rag_integration.py`).
- **`LawMatcher`.** It resolves law names against the dataset. It tries
  a case-insensitive substring match first and then the name's first
  word. It also builds summaries and a combined text truncated to a
  character budget (`utils/law_matcher.py`).
- **`LegalRAGQuerySystem`.** It loads the newest snapshot, returns
  the top-k chunks without law de-duplication, and formats them for
  display (`query_rag_system.py`).
- **`LegalRAGDatabase`.** This is the SQLite store.
  - `chunks` and `laws_metadata` are filled by `INSERT OR REPLACE` on a
    unique key.
  - Embeddings are computed in batches for rows still holding `NULL`.
  - Search filters by law type and chunk type, ranks by similarity, and
    logs every search.
  - It also reports metadata and statistics (`build_vector_database.py`).

Several things become parameters of the model:

- the tokenizer (`count_tokens`);
- the embedding providers;
- the similarity function;
- the file system (glob and load);
- the elapsed search time.

Scores are `real`. Tables are sequences of rows kept in id order.

Modules:

- `Base`: Option, Result, Outcome and Python slicing.
- `Text`: strip, case folding, substring search, split and join, decimal
  numbers, ellipsis.
- `Snapshots`: Python string order and `sorted(x)[-1]`.
- `Ranking`: rankings and a stable ranking.
- `Dedup`: first occurrence of each key.
- `Tables`: `INSERT OR REPLACE` tables.
- `Chunker` and `EmbeddingJob` model `create_embeddings.py`, `Retrieval`
  models `rag_integration.py`, `LawMatcher` models `utils/law_matcher.py`,
  `QuerySystem` models `query_rag_system.py` and `VectorDatabase` models
  `build_vector_database.py`.

## Model

| member | source | states |
|---|---|---|
| Base.PySliceTo | rag_system/rag_integration.py:177 | `[:k]` keeps the first `min(k, n)` elements for `k >= 0` and drops the last `-k` for negative `k`; the result is always a prefix |
| Text.Strip | rag_system/create_embeddings.py:112 | the stripped text is empty exactly when the input is blank, and otherwise starts and ends with a non-space |
| Text.StripMeaning | rag_system/create_embeddings.py:112 | the input is a blank run, then the stripped text starting at the first non-space, then a blank run |
| Text.SplitJoin | rag_system/create_embeddings.py:88 | splitting on `". "` and joining back restores the text |
| Text.ParseNatToString | rag_system/create_embeddings.py:111 | the decimal index written into a chunk id reads back as the same number |
| Text.FirstWordMeaning | utils/law_matcher.py:65-67 | `split()[0]` is missing exactly for a blank name; otherwise it is the non-empty run of non-spaces that starts at the name's first non-space and ends at the next space or at the end |
| Text.ContainsFirstWord | utils/law_matcher.py:48-67 | a law that contains the whole name case-insensitively also contains its first word |
| Text.Ellipsize | rag_system/query_rag_system.py:111-113 | texts up to the width are kept whole; longer texts become the first `n` characters followed by `"..."` |
| Snapshots.Latest | rag_system/rag_integration.py:119-120 | `sorted(paths)[-1]` is a listed path that every listed path precedes in Python string order |
| Snapshots.LatestIsUnique | rag_system/query_rag_system.py:37-38 | any listed path that all others precede is the one picked |
| Ranking.StableRanking | rag_system/build_vector_database.py:277 | a permutation of the indexes with non-increasing scores, equal scores keeping input order (Python's stable `sort(reverse=True)`) |
| Ranking.StableRankingUnique | rag_system/build_vector_database.py:277 | only one stably ordered permutation exists, so the ranking is determined by the scores |
| Ranking.TopKAreBest | rag_system/rag_integration.py:177 | cutting a ranking after `k` entries keeps the best: every index kept scores at least as high as every index of the scores that is not kept |
| Ranking.PermutationCovers | rag_system/rag_integration.py:177 | an argsort of `n` scores lists every index below `n` |
| Dedup.FirstPositionsDistinct | rag_system/rag_integration.py:182-196 | the kept positions carry pairwise distinct keys (law names) |
| Dedup.FirstPositionsCover | rag_system/rag_integration.py:182-196 | every examined key is kept at its first or an earlier position |
| Dedup.FirstPositionsIncreasing | rag_system/rag_integration.py:182-196 | kept positions are increasing and inside the examined prefix |
| Tables.InsertAll | rag_system/build_vector_database.py:172-194 | the insert loop's table equals loading the entries one by one, one id per entry |
| Tables.UpsertFind | rag_system/build_vector_database.py:173-180 | after `INSERT OR REPLACE` the key reads the new row with the new id; every other key reads what it read before |
| Tables.UpsertKeyed | rag_system/build_vector_database.py:47 | an upsert keeps ids increasing and keys unique (`UNIQUE` column) |
| Tables.UpsertCount | rag_system/build_vector_database.py:173-180 | reloading an existing key replaces its row; a new key adds one |
| Tables.LoadedFind | rag_system/build_vector_database.py:172-194 | after a load, a key reads the row of its last entry with that entry's id; keys not loaded are unchanged |
| Tables.LoadedKeyed | rag_system/build_vector_database.py:172-194 | a load keeps the table keyed and advances the id counter by the entry count |
| Tables.FindNone | rag_system/build_vector_database.py:173-194 | the conflict `INSERT OR REPLACE` looks for on the `UNIQUE` key (`chunk_id` at :47, `law_id` at :64) is absent exactly when no row holds the key |
| Chunker.ChunkText | rag_system/create_embeddings.py:43-85 | the chunks are the article packing when articles were found, and the sentence packing otherwise, stamped with their indexes |
| Chunker.ChunkByArticles | rag_system/create_embeddings.py:60-79 | the loop emits exactly the greedy packing of preamble and article units, as stamped chunks |
| Chunker.ChunkBySentences | rag_system/create_embeddings.py:87-106 | the loop emits exactly the greedy packing of `". "`-separated sentences, as stamped chunks |
| Chunker.ChunkIdEncodesIndex | rag_system/create_embeddings.py:111 | a chunk id is the law number, `_`, and the decimal chunk index, which parses back to the index |
| Chunker.StampedIdsDistinct | rag_system/create_embeddings.py:108-123 | the chunks of one law carry their position as index and pairwise distinct ids |
| Chunker.ArticleChunkCeiling | rag_system/create_embeddings.py:66-75 | a chunk holding two or more non-blank units sums to at most 7000 tokens |
| Chunker.PackUnitsGreedy | rag_system/create_embeddings.py:69-72 | a chunk is closed only when the next unit would overflow the ceiling and the chunk is not blank |
| Chunker.ArticleUnitsInOrder | rag_system/create_embeddings.py:60-79 | the chunk groups, concatenated, are the preamble followed by every article unit in order; nothing is lost or reordered |
| Chunker.SentenceChunkCeiling | rag_system/create_embeddings.py:87-106 | a sentence chunk is within 7000 tokens unless it is a single sentence that alone exceeds it |
| Chunker.BlankTextNoChunks | rag_system/create_embeddings.py:81-106 | a blank text with no articles yields no chunks |
| EmbeddingJob.GetEmbedding | rag_system/create_embeddings.py:125-146 | returns the first attempt's vector, re-raises the last attempt's error, or fails after all retries; at most `retries` calls; waits are `5*2^k` after a rate limit and 2 after other errors, none after the last raise |
| EmbeddingJob.EmbeddingOutcomeMeaning | rag_system/create_embeddings.py:125-146 | succeeds exactly when some attempt embeds, with the first such vector; a raised provider error is the last attempt's |
| EmbeddingJob.EmbedLaw | rag_system/create_embeddings.py:184-192 | keeps the longest prefix of chunks whose embedding succeeds, each paired with its own vector |
| EmbeddingJob.ProcessDataset | rag_system/create_embeddings.py:148-205 | collects, law by law, the chunks embedded before each law's first failure, each paired with its vector; a law whose name is `NaN` contributes nothing |
| EmbeddingJob.BlankNameSkipped | rag_system/create_embeddings.py:180-200 | a row whose `mevAdi` is `NaN` is skipped whole, even when every chunk would embed: the rest of the dataset is processed as if it were absent |
| EmbeddingJob.ProcessedAppend | rag_system/create_embeddings.py:164-200 | processing laws is compositional: two datasets processed in turn give the concatenation |
| EmbeddingJob.ProcessedAllWhenServiceUp | rag_system/create_embeddings.py:164-200 | when every first call embeds, every chunk of every law is kept |
| Retrieval.LocalLoadOutcome | rag_system/rag_integration.py:96-134 | nothing is loaded when either glob is empty; otherwise the greatest embeddings path and the greatest chunks path are chosen |
| Retrieval.GlobSnapshots | rag_system/rag_integration.py:110-113 | the loop collects the embeddings and chunk files of every search path, in order |
| Retrieval.RAGSystem.constructor | rag_system/rag_integration.py:28-38 | starts empty and holds the local snapshot when it loads |
| Retrieval.RAGSystem.TryLoadFromLocal | rag_system/rag_integration.py:96-134 | reports success exactly when both files load; a failed matrix load changes nothing; a failed chunks load keeps the matrix |
| Retrieval.RAGSystem.LoadEmbeddings | rag_system/rag_integration.py:40-59 | holds the local snapshot, or ends with no embeddings and no chunks |
| Retrieval.RAGSystem.SearchLaws | rag_system/rag_integration.py:148-215 | nothing without embeddings, chunks or query vector; at most `top_k` hits; law names pairwise distinct; similarities non-increasing |
| Retrieval.RankLaws | rag_system/rag_integration.py:182-208 | the de-duplication loop returns the first hit per law name among the examined indexes, numbered from 1 |
| Retrieval.SearchLawsDistinct | rag_system/rag_integration.py:182-208 | no two hits name the same law |
| Retrieval.SearchLawsShape | rag_system/rag_integration.py:177-208 | ranks are 1, 2, …; at most `top_k` hits, at most one for a negative `top_k` |
| Retrieval.SearchLawsOrdered | rag_system/rag_integration.py:177-208 | hit similarities are non-increasing for any ranking |
| Retrieval.SearchLawsCovers | rag_system/rag_integration.py:177-208 | every law among the top `k` chunks is represented by a hit scoring at least as high |
| Retrieval.Similarities | rag_system/rag_integration.py:174 | one score per stored vector, its similarity to the query |
| Retrieval.PreviewShape | rag_system/rag_integration.py:202 | the preview is the first 300 characters followed by `"..."`, even for short texts |
| Retrieval.RAGSystem.GetLawNames | rag_system/rag_integration.py:217-229 | the hit law names in rank order, pairwise distinct |
| Retrieval.LawNames | rag_system/rag_integration.py:229 | one name per hit, in order |
| LawMatcher.FirstMatchFromMeaning | utils/law_matcher.py:48-51 | `iloc[0]`: the first row whose name contains the needle ignoring case, or none when no row does |
| LawMatcher.FoundLawFields | utils/law_matcher.py:50-62 | a law is found exactly when the sheet has a `law_type` column and the resolved row's `full_text` is a string (a missing column or a `NaN` text raises); every other column is read as `.get` reads it: a filled cell is copied, an empty cell gives `NaN`, a missing column gives its default (`''`, or the text's length for `text_length`) |
| LawMatcher.ResolveExact | utils/law_matcher.py:48-62 | when some row contains the whole name, the earliest such row is chosen |
| LawMatcher.ResolveFallback | utils/law_matcher.py:64-89 | with no full match, the first-word match decides, and a blank name finds nothing |
| LawMatcher.ResolvedNameMatches | utils/law_matcher.py:48-82 | the chosen row contains the name or its first word |
| LawMatcher.FallbackCoversExact | utils/law_matcher.py:64-71 | the first-word search finds a row no later than any full match |
| LawMatcher.FindMultipleLaws | utils/law_matcher.py:91-109 | the loop returns the found laws in the order of the names, skipping misses |
| LawMatcher.ResolveAllSources | utils/law_matcher.py:91-109 | each result comes from its own name, in increasing name order, and every skipped name finds nothing |
| LawMatcher.ResolveAllAppend | utils/law_matcher.py:91-109 | resolving two name lists in turn gives the concatenation of the results |
| LawMatcher.GetLawsSummary | utils/law_matcher.py:111-135 | one summary per found law, in order |
| LawMatcher.SummaryPreview | utils/law_matcher.py:131 | the preview is the whole text up to 200 characters; longer texts give 200 characters and `"..."` |
| LawMatcher.CombineLaws | utils/law_matcher.py:143-176 | the loop builds the whole sections that fit, plus at most one truncated section |
| LawMatcher.KeepWhole | utils/law_matcher.py:146-174 | the loop appends sections while the text with the next one stays within `max_length`, and stops at the end or at the first that would not |
| LawMatcher.CombineOverflow | utils/law_matcher.py:159-172 | at the first section that does not fit, the truncated section is appended when more than 200 characters remain, and nothing otherwise |
| LawMatcher.GetCombinedLawText | utils/law_matcher.py:137-176 | the combined text of the laws the names resolve to |
| LawMatcher.CombinedNoLaws | utils/law_matcher.py:143-176 | no laws give the empty text |
| LawMatcher.CombinedAllFit | utils/law_matcher.py:161 | when every section fits, the text is all sections in order |
| LawMatcher.AllSectionsFit | utils/law_matcher.py:158-161 | when every section together fits the limit, the loop adds every section whole |
| LawMatcher.CombinedLength | utils/law_matcher.py:161-172 | the text stays within the limit, or exceeds `max - 100` only by one header and the truncation marker |
| LawMatcher.CombinedSmallLimit | utils/law_matcher.py:161-172 | when the first section alone overflows a limit of at most 300, the text is empty |
| LawMatcher.FitFromBounds | utils/law_matcher.py:161 | the sections kept whole fit, and one more would not |
| LawMatcher.LeadPieceEmpty | utils/law_matcher.py:163 | `split('\n\n')[0]` of a section is empty, so the reserve subtracts no header length |
| QuerySystem.LatestSnapshot | rag_system/query_rag_system.py:25-50 | nothing when either glob is empty; otherwise the greatest path of each list |
| QuerySystem.LatestSnapshotOrderFree | rag_system/query_rag_system.py:37-38 | the pick depends only on which files the glob lists, not on their order |
| QuerySystem.LegalRAGQuerySystem.constructor | rag_system/query_rag_system.py:18-23 | starts with no chunks and no embeddings |
| QuerySystem.LegalRAGQuerySystem.LoadLatestEmbeddings | rag_system/query_rag_system.py:25-50 | succeeds exactly when both files load and the matrix has a row; `FileNotFoundError` for no snapshot; a read error for the file that fails; an empty matrix (`np.array([])`, saved by a run that embedded nothing) raises `IndexError` on `shape[1]` after both fields are assigned |
| QuerySystem.LegalRAGQuerySystem.Search | rag_system/query_rag_system.py:64-95 | the ranked top-k chunk hits, nothing without a query embedding, or `IndexError` at the first top index with no chunk |
| QuerySystem.LegalRAGQuerySystem.DisplayResults | rag_system/query_rag_system.py:97-116 | no results say so; otherwise one entry per result with rank, law, type, score and a 200-character preview |
| QuerySystem.SearchCount | rag_system/query_rag_system.py:69-80 | no hits without a query vector; with as many chunks as embedding rows the search succeeds, with `min(top_k, rows)` hits for a non-negative `top_k` and all but the last `-top_k` for a negative one |
| QuerySystem.SearchRaises | rag_system/query_rag_system.py:78-82 | `self.chunks[idx]` raises exactly when some kept index has no chunk, and the error names such an index |
| QuerySystem.QueryRanked | rag_system/query_rag_system.py:78-93 | ranks are 1, 2, … and similarities non-increasing |
| QuerySystem.QueryFields | rag_system/query_rag_system.py:82-92 | each hit copies its chunk's text, law name and metadata and its own score |
| QuerySystem.QueryDistinctChunks | rag_system/query_rag_system.py:78-93 | no chunk appears twice |
| QuerySystem.QueryMayRepeatLaw | rag_system/query_rag_system.py:78-93 | unlike `search_laws`, two chunks of one law both appear |
| QuerySystem.DedupKeepsSubset | rag_system/rag_integration.py:177-208 | every law-level hit is one of the chunk-level hits, with the same score and a rank no worse |
| QuerySystem.PreviewRule | rag_system/query_rag_system.py:111-113 | previews keep texts up to 200 characters and cut longer ones to 200 plus `"..."` |
| VectorDatabase.ModelChoice | rag_system/build_vector_database.py:99-128 | a model loads exactly when the requested kind's library is installed; otherwise `ValueError` |
| VectorDatabase.DispatchMatchesModel | rag_system/build_vector_database.py:130-155 | the recorded embedding type dispatches encoding to the loaded model's kind |
| VectorDatabase.LegalRAGDatabase.constructor | rag_system/build_vector_database.py:31-37 | empty tables, no model |
| VectorDatabase.LegalRAGDatabase.LoadEmbeddingModel | rag_system/build_vector_database.py:99-128 | installs the chosen model and type, or raises and changes nothing |
| VectorDatabase.LegalRAGDatabase.LoadData | rag_system/build_vector_database.py:157-199 | both tables equal the loaded ones, stay keyed, and the counts are returned; chunks start without embedding |
| VectorDatabase.ReloadClearsEmbedding | rag_system/build_vector_database.py:185-194 | reloading a chunk id replaces its row and drops its stored embedding |
| VectorDatabase.LastWriteUnembedded | rag_system/build_vector_database.py:185-194 | the last load entry of a key is the same with or without the embedding column |
| VectorDatabase.PendingMeaning | rag_system/build_vector_database.py:210-211 | the selected rows are exactly those whose embedding is `NULL`, in id order |
| VectorDatabase.LegalRAGDatabase.GenerateEmbeddings | rag_system/build_vector_database.py:201-235 | raises without a model or with batch size 0; a negative size does nothing; otherwise stores the batch embeddings, counts the committed batches, and raises exactly when an embedding call raised; the table stays keyed |
| VectorDatabase.EmbedBatches | rag_system/build_vector_database.py:216-233 | the batch loop computes exactly the batched update, stops at the first call that raises, and counts the batches committed before it |
| VectorDatabase.StoreEmbeddings | rag_system/build_vector_database.py:225-230 | `zip` stores as many vectors as both the batch and the reply hold |
| VectorDatabase.GeneratedByLoop | rag_system/build_vector_database.py:216-233 | the batched update stores the `k`-th vector of the batched replies into the `k`-th pending row |
| VectorDatabase.RangesTile | rag_system/build_vector_database.py:216 | `range(0, n, b)` batches tile `0..n` in order, each at most `b` long |
| VectorDatabase.RangesCount | rag_system/build_vector_database.py:216 | the number of batches is the ceiling of `n / b` |
| VectorDatabase.ApplyAt | rag_system/build_vector_database.py:225-230 | a pending row receives its vector when one came back and is unchanged otherwise |
| VectorDatabase.BatchedUpTo | rag_system/build_vector_database.py:216-230 | when each reply holds one vector per text, a pending text receives a vector exactly when its batch comes before the first call that raises |
| VectorDatabase.ReachedEnd | rag_system/build_vector_database.py:216-233 | when no call raises, the loop runs through every batch |
| VectorDatabase.GeneratedUpToStop | rag_system/build_vector_database.py:210-233 | after a call raises, the batches committed before it keep their embeddings and the later rows stay `NULL`, to be selected again next run |
| VectorDatabase.GeneratedFillsAll | rag_system/build_vector_database.py:201-235 | with an encoder that never raises and answers every text, every chunk has an embedding afterwards |
| VectorDatabase.GeneratedChangesOnlyPending | rag_system/build_vector_database.py:201-235 | rows keep id, key and columns, and rows already embedded are untouched |
| VectorDatabase.GeneratedKeyed | rag_system/build_vector_database.py:201-235 | the chunks table stays keyed |
| VectorDatabase.CandidatesMembers | rag_system/build_vector_database.py:247-267 | the fetched rows are exactly the embedded rows matching every truthy filter |
| VectorDatabase.CandidatesOrdered | rag_system/build_vector_database.py:258-267 | the fetched rows come in increasing id order |
| VectorDatabase.ScoreAll | rag_system/build_vector_database.py:270-274 | one similarity per fetched row, in order |
| VectorDatabase.FormatTop | rag_system/build_vector_database.py:277-293 | the result dictionaries for the first `top_k` ranked rows |
| VectorDatabase.LegalRAGDatabase.Search | rag_system/build_vector_database.py:237-305 | succeeds exactly when a model is loaded and the embedding call returns a vector; a raising call or an empty reply is an error and logs nothing; otherwise the ranked filtered hits, with one search log appended |
| VectorDatabase.SearchCount | rag_system/build_vector_database.py:277-278 | `min(top_k, matches)` hits for a non-negative `top_k`, slice semantics for a negative one |
| VectorDatabase.SearchHitSource | rag_system/build_vector_database.py:281-293 | each hit is a stored, filter-matching row formatted with its own score |
| VectorDatabase.SearchOrdered | rag_system/build_vector_database.py:277-278 | scores non-increasing; equal scores in id order |
| VectorDatabase.SearchTopAreBest | rag_system/build_vector_database.py:277-278 | every hit scores at least as high as every matching row left out |
| VectorDatabase.FirstNamedMeaning | rag_system/build_vector_database.py:310-317 | `fetchone` yields the first law with that name, or none when no law has it |
| VectorDatabase.LegalRAGDatabase.GetLawMetadata | rag_system/build_vector_database.py:307-329 | a returned record carries the requested name |
| VectorDatabase.LawMetadataMeaning | rag_system/build_vector_database.py:307-329 | none exactly when no law has the name; otherwise the first such law's metadata, with `[]` sections when none were stored |
| VectorDatabase.LegalRAGDatabase.GetStatistics | rag_system/build_vector_database.py:331-359 | embedded chunks never exceed all chunks, and with no searches the average time is 0 |
| VectorDatabase.ByLawTypeMeaning | rag_system/build_vector_database.py:348-349 | `GROUP BY law_type` lists a type exactly when it has chunks, with its count |
| VectorDatabase.StatisticsByType | rag_system/build_vector_database.py:348-349 | a type is reported exactly when some chunk has it, with the number of its chunks |
| VectorDatabase.CountTypePositive | rag_system/build_vector_database.py:348-349 | a type's count is positive exactly when some chunk has it |

## Left out

- The tokenizer and the embedding providers are parameters. Token counts
  come from a `string -> nat` function. Providers are a per-attempt reply
  function (`EmbeddingJob`), an `Option` per query (`Retrieval`,
  `QuerySystem`) or a batch encoder (`VectorDatabase`).
- Floating-point vectors and cosine similarity are abstract. Vectors are
  opaque, scores are `real`, and similarity is a parameter.
- Regular-expression semantics are not modelled. The article split in
  `chunk_text` is an input (`ArticleSplit`: the preamble and the matched
  articles).
- LawMatcher.Matches and LawMatcher.Resolve match the law name literally.
  `str.contains` treats it as a regular expression (`regex=True` by
  default), so in the source `.` matches any character, a parenthesised
  part such as `(TCK)` is a group that does not match its own
  parentheses, and an unbalanced `(` raises, which the `except` at
  utils/law_matcher.py:87 turns into `None`.
- Case-insensitive matching uses `Text.Fold`: ASCII letters, the Latin-1
  capitals `À`–`Þ` (except `×`), `Ğ`, `Ş`, and both Turkish i's folding
  to `i`. Python's full Unicode case folding is not modelled.
- `np.argsort(...)[::-1]` orders ties in an implementation-defined way.
  The search properties hold for any non-increasing ranking, and the
  methods use the stable one.
- `_try_load_from_cloud` is not modelled. It calls `os.getenv` without
  importing `os`, so it always fails and falls back to the local load.
  `load_embeddings` is modelled as the local load alone.
- Printing, logging, progress bars and sleeping are left out.
  `get_embedding` returns the list of waits instead of sleeping.
- File I/O and file formats are abstract. Globbing and loading are
  `Files` parameters. Intermediate and final saves, pickling and Excel
  reading are not modelled.
- Exceptions are modelled as `Result`/`Outcome` values with an error
  datatype, or, inside `process_dataset`, as a law that contributes no
  chunks.
- A missing column of the spreadsheet read by `process_dataset` raises
  for every row; the model's rows always have every column.
- TF-IDF fitting and the OpenAI per-text loop of `get_embeddings` are
  not modelled. Encoding is one pure function per loaded model.
- SQLite fetch order is assumed to be id order. An update addressed by
  the integer `id` is modelled by the row's position, and `created_at`
  timestamps are not kept.
- VectorDatabase.LegalRAGDatabase.GetStatistics: the rounding of the
  average search time to 4 decimal places is not modelled; the average is
  the exact mean.
- VectorDatabase.LegalRAGDatabase.constructor: it starts from empty
  tables, not from a database file that already holds rows.
- The search time of a logged search is a parameter.
- QuerySystem.LegalRAGQuerySystem.constructor: `__init__` also loads the
  snapshot and raises on failure. The model splits this into the
  constructor and `LoadLatestEmbeddings`.
- LawMatcher.CombinedSmallLimit follows the code. The docstring of
  `get_combined_law_text` (utils/law_matcher.py:139-140) says the text is
  truncated when it is too long, but lines 163-165 add nothing for the
  overflowing law once `remaining_space` is at most 200, so with a limit
  of 300 or less a first law that does not fit gives the empty text.
- `max_tokens` (rag_system/create_embeddings.py:33) is set from the model
  name but never read by the chunker, so it is not modelled.
- VectorDatabase.SectionsOf: `json.loads` of the stored `sections`
  (rag_system/build_vector_database.py:323) is the parameter `decode`,
  which is total; a malformed stored value, on which the source raises
  uncaught, is not modelled.
- EmbeddingJob.Service: a reply depends only on the text and the
  attempt number, so two chunks with the same text get the same outcome;
  a transient failure that hits only one of them is not modelled.
- `interactive_search`, `test_rag_system`, `test_law_matcher` and the
  `main` functions are interactive drivers and are not modelled.
