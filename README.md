# Incremental PDF indexing for the financial-report assistant, in Dafny

This project models the indexing core of a retrieval assistant over company
financial reports. The assistant runs in four stages:

- A folder of PDF reports is listed.
- Every `.pdf` is fingerprinted with SHA-256 and compared against a ledger of
  already indexed files (`processed_hashes`).
- The new or changed files are turned into text chunks.
- Each chunk is embedded and stored in a faiss flat L2 index beside a chunk
  file with one line per chunk. Vector i must stay the embedding of chunk i.

A question is answered by searching the index, mapping the returned labels back
to chunk texts and wrapping those in a fixed prompt.

The model follows the Python code as written, module by module:

- `Outcomes`: `Option`, `Result` and the Python exceptions that can escape
  (`ValueError`, `RuntimeError`, `IndexError`, and a failed
  embedding call).
- `PyText`: the `str` operations the core relies on. `strip()` (the 29
  `isspace` code points), `startswith`, `endswith` and `replace` of one
  character follow CPython. `lower()` is narrowed to the code points that
  lower to ASCII (A-Z and U+212A KELVIN SIGN); every other code point is kept,
  so the model's `lower()` keeps the length, which CPython's does not (U+0130
  lowers to two code points).
- `ChunkFile`: the chunk file as text. Writing is `chunk.replace("\n", " ") +
  "\n"` per chunk. Reading is `readlines()` in text mode with universal
  newlines (`"\r"` and `"\r\n"` read as `"\n"`), then `strip()` per line.
- `Storage`: a `Disk` class with one slot per persisted artifact and a log of
  writes. The artifacts are the faiss index, the chunk file and the ledger.
  The module also holds the line-by-line chunk-file writer and the two loaders.
- `Hashing`: `file_hash`, a loop reading blocks of at most 8192 bytes into a
  SHA-256 hasher.
- `VectorStore`: the `VectorDB` class (`build_index`, `save_index`,
  `load_index`, `search`) and an embedding client that logs every request. It
  also holds pure specifications of a build and of the search loop.
- `ChangeDetection`: the listing loop that queues new or changed PDFs, and the
  processing loop that chunks them and records their digests. Both
  `ReportAgent.build_or_load_index` and the standalone `build_index` contain
  the same two loops.
- `Agent`: the `ReportAgent` class and the prompt of `ask_question`.
- `IndexBuilder`: the standalone builder `build_index`.
- `Scraper`: three pure pieces of `FinancialReportScraper`:
  - the report filter `_is_relevant_report`;
  - the case-insensitive company dispatch;
  - the rule that makes a link absolute.

Several things the code calls but this model does not contain are passed in as
parameters:

- the SHA-256 function;
- the PDF text extractor and `chunk_text` (from a `utils` module that is not
  part of this model);
- the embedding service;
- faiss's nearest-neighbour search;
- the language-model completion;
- the per-site scrapers.

The model follows the code as written; in particular:

- `load_index` does not compare the vector count with the chunk-line count.
- Embeddings of unequal length make numpy raise `ValueError`. There is no
  dedicated dimension error.
- `ReportAgent.build_or_load_index` keeps every persisted chunk, including
  stale chunks of a modified file. It re-embeds the whole list instead of
  appending only the new vectors.
- The standalone builder drops the chunks of files indexed earlier.
- The in-memory ledger records the queued digests before the build, and keeps
  them when the build fails. Only the ledger *file* is written after the index
  and the chunk file.
- No chunks at all raises `ValueError("No text chunks found in PDFs.")`. A
  search before any index raises `RuntimeError("Index not loaded")`.

`file_hash` and the change-detection loop appear twice in the source. Each is
modelled once: `Hashing.FileHash` and `ChangeDetection.FindChangedFiles`. The
table cites both copies.

## Model

| member | source | states |
|---|---|---|
| PyText.Lower | agent.py:41 | the model's `lower()` keeps the length (CPython's need not; see "## Left out") |
| PyText.LStrip | agent.py:115 | `lstrip()` returns a suffix of its argument that does not start with whitespace, and everything removed is whitespace |
| PyText.RStrip | agent.py:115 | `rstrip()` returns a prefix of its argument that does not end with whitespace, and everything removed is whitespace |
| PyText.StripEnds | vector_db.py:45 | a stripped string neither starts nor ends with whitespace |
| PyText.StripShape | vector_db.py:45 | `strip()` returns one contiguous slice of its argument, starting where the leading whitespace ends |
| PyText.StripDropsTrailingSpace | agent.py:115 | stripping a line with its trailing `"\n"` equals stripping the line alone |
| PyText.StripIdempotent | agent.py:115 | stripping twice equals stripping once |
| PyText.ReplaceChar | agent.py:109 | `replace` of one character keeps the length |
| PyText.ReplaceCharRemoves | agent.py:109 | after `replace("\n", " ")` no `"\n"` is left |
| PyText.ReplaceCharAbsent | agent.py:109 | replacing a character that does not occur changes nothing |
| ChunkFile.SerializeSnoc | vector_db.py:33-34 | writing one more chunk appends exactly that chunk's line to the file |
| ChunkFile.LineLength | agent.py:115 | the first line of a text ends at its first `"\n"`, or runs to the end when there is none |
| ChunkFile.StripEach | vector_db.py:45 | `[line.strip() for line in lines]` keeps one entry per line |
| ChunkFile.TranslateIdentity | agent.py:114 | text without `"\r"` is unchanged by universal-newline reading |
| ChunkFile.ReadFirstLine | agent.py:115 | `readlines()` splits off the first line with its `"\n"` and continues on the rest |
| ChunkFile.ReadTerminated | agent.py:115 | reading back `"\n"`-terminated lines that contain no line break gives exactly those lines, each with its `"\n"` |
| ChunkFile.ParseTerminated | vector_db.py:42-45 | loading such a file gives the stripped lines, one per line |
| ChunkFile.SerializeIsTerminated | vector_db.py:31-34 | the chunk file is the chunks with `"\n"` replaced by spaces, each followed by `"\n"` |
| ChunkFile.ReloadAfterSave | agent.py:105-116 | save then load, for chunks without `"\r"`: as many lines as chunks, and line i is chunk i with newlines turned into spaces, then stripped |
| ChunkFile.PersistedIsStable | agent.py:109 | a chunk that has been saved and loaded once comes back unchanged from a second round |
| ChunkFile.ReloadIsStable | vector_db.py:31-45 | saving loaded chunks and loading them again reproduces them exactly |
| ChunkFile.CarriageReturnSplitsChunk | vector_db.py:34 | the single chunk `"a\rb"` is written as one line and read back as two chunks |
| ChunkFile.SerializeFixedIsTerminated | vector_db.py:34 | the corrected encoding also turns `"\r"` into a space and yields `"\n"`-terminated plain lines |
| ChunkFile.ReloadAfterSaveFixed | vector_db.py:31-45 | with the corrected encoding the line count equals the chunk count for every input, and line i is chunk i with line breaks turned into spaces, then stripped |
| Storage.Disk.WriteIndex | vector_db.py:28 | the index file is replaced, the other artifacts are unchanged, and one index write is logged |
| Storage.Disk.OpenChunksForWriting | vector_db.py:32 | opening with `"w"` truncates the chunk file and logs one chunk-file write |
| Storage.Disk.AppendToChunks | vector_db.py:34 | a write appends text to the open chunk file and touches nothing else |
| Storage.Disk.WriteLedger | agent.py:24-27 | the ledger file is replaced, the other artifacts are unchanged, and one ledger write is logged |
| Storage.WriteChunkFile | index_builder.py:59-63 | the line-by-line writer leaves exactly `Serialize(chunks)` in the chunk file, the other artifacts are unchanged, and it logs one write |
| Storage.LoadLedger | agent.py:18-22 | a missing ledger file loads as the empty ledger, and a saved ledger loads back as saved |
| Storage.LoadChunks | agent.py:111-116 | a missing chunk file loads as no chunks |
| Storage.LoadChunksAfterWrite | agent.py:105-116 | `load_chunks` after any writer gives one entry per chunk, in order, for chunks without `"\r"` |
| Hashing.Sha256.Update | index_builder.py:12 | each `update` appends its block to what the hasher has been fed |
| Hashing.ReadBlock | index_builder.py:11 | `f.read(8192)` returns at most 8192 bytes: exactly 8192 while they remain, the rest of the file otherwise, and nothing only at the end |
| Hashing.ReadStep | index_builder.py:11-12 | one more block read before the end of the file keeps the loop state: the blocks fed are the file's first bytes in order, all full-size but possibly the last, and a short block only at the end |
| Hashing.FileHash | index_builder.py:8-13 | the hasher it creates is fed the file in blocks that are non-empty, at most 8192 bytes, all but the last exactly 8192, and together are the file's bytes in order; the result is that hasher's digest, the digest of the whole file (`ReportAgent.file_hash`, agent.py:29-35, is the same loop) |
| VectorStore.EmbeddingClient.Embed | vector_db.py:17 | each `get_embedding` call returns the service's answer for its text and is logged in order |
| VectorStore.EmbedAllAligned | vector_db.py:17 | embedding succeeds exactly when every call succeeds, and then vector i is the embedding of text i |
| VectorStore.EmbedCallsInOrder | vector_db.py:17 | the service sees a prefix of the texts in order: all of them when every call succeeds, otherwise up to and including the first failing one |
| VectorStore.EmbedFailureStops | vector_db.py:17 | the first failing call ends the comprehension at that text |
| VectorStore.BuildOutcomeAligned | vector_db.py:14-22 | a build succeeds exactly when there is a chunk, every call succeeds and all embeddings have one length; then the index holds one vector per chunk, vector i is chunk i's embedding, and all have the recorded dimension |
| VectorStore.VectorDB.constructor | vector_db.py:8-12 | a new store has no index, no chunks and dimension 0 |
| VectorStore.VectorDB.BuildIndex | vector_db.py:14-23 | `text_chunks` is the argument even on failure; one embedding call per chunk, in order, up to the first failure; the failure cases as `BuildOutcome`; on success index, dimension and both files are set, and vectors align with chunks |
| VectorStore.VectorDB.SaveIndex | vector_db.py:25-34 | with the index that `build_index` has just set: the index file, then the chunk file with one line per chunk, and the ledger untouched |
| VectorStore.VectorDB.LoadIndex | vector_db.py:36-47 | returns false and changes nothing when no index file exists; otherwise true, with the stored index and dimension; `text_chunks` is replaced only when the chunk file exists, and counts are never compared |
| VectorStore.VectorDB.Search | vector_db.py:49-65 | raises `RuntimeError` without an index; otherwise embeds the query once and returns the search loop applied to faiss's rows; since faiss answers at most `top_k` rows, at most `top_k` pairs come back |
| VectorStore.StoreChunksAfterLoad | vector_db.py:42-45 | after a load the store's chunks are the chunk file's lines when it exists, otherwise the stale list it held; they agree with the agent's `load_chunks` if and only if the chunk file exists or the store held nothing |
| VectorStore.PyGet | vector_db.py:64 | Python list indexing succeeds exactly for indices from `-len` to `len - 1` |
| VectorStore.Kept | vector_db.py:63 | the rows passing the guard are at most all rows |
| VectorStore.PairHitsKeepsOrder | vector_db.py:61-65 | with non-negative labels, `search` keeps the rows whose label is below the chunk count, in faiss's order, each paired with its chunk |
| VectorStore.PairHitsPositional | vector_db.py:61-65 | when every label names a stored chunk, result j is row j's distance with the chunk at row j's label |
| VectorStore.PairHitsBounded | vector_db.py:61-65 | `search` returns at most as many pairs as faiss returned rows |
| VectorStore.PairHitsFailureSticks | vector_db.py:64 | an `IndexError` part-way through the loop is the result of the loop |
| VectorStore.PaddingRowAsWritten | vector_db.py:63-64 | a padding row with label -1 passes the guard: it adds the last chunk again, or raises `IndexError` when there are no chunks |
| VectorStore.PaddingDuplicatesLastChunk | vector_db.py:63-64 | two chunks and `top_k` = 3: the second chunk is returned twice |
| VectorStore.PairHitsGuardedSound | vector_db.py:63 | with the guard `0 <= idx < len`, every result is a real row paired with the chunk at its label |
| VectorStore.PairHitsGuardedAgrees | vector_db.py:63 | without padding, the guarded loop agrees with the loop as written |
| VectorStore.PaddingRowGuarded | vector_db.py:63 | with the guard, a padding row contributes nothing |
| ChangeDetection.FindChangedFiles | index_builder.py:32-38 | the listing loop hashes every `.pdf` and returns exactly the queue `Queued` describes (agent.py:39-45 is the same loop) |
| ChangeDetection.QueuedMembers | agent.py:40-45 | a file is queued if and only if its lower-cased name ends in ".pdf" and its name is missing from the ledger or has a different digest; the queued record carries the current digest |
| ChangeDetection.QueuedAppend | index_builder.py:33-38 | the queue follows the listing order |
| ChangeDetection.NothingQueued | index_builder.py:40-42 | when no entry needs indexing, the queue is empty |
| ChangeDetection.QueueChunksAppend | index_builder.py:47-50 | the chunks of a queue are those of its parts, in order |
| ChangeDetection.QueueChunksBlock | index_builder.py:46-51 | queued file k's chunks form one contiguous block, in their own order, right after the chunks of the files queued before it |
| ChangeDetection.RecordDigestsEffect | index_builder.py:47-51 | the ledger gains or overwrites entries for queued names only, every other entry is unchanged, and each queued name maps to the digest of a queued record |
| ChangeDetection.LedgerStep | agent.py:64-68 | one more listed file changes the recorded ledger only at that file's name, and only when the file is queued |
| ChangeDetection.LedgerRecordsListing | agent.py:64-68 | after a run over distinct names, every listed `.pdf` is recorded with its current digest |
| ChangeDetection.LedgerKeepsUnlisted | index_builder.py:47-51 | ledger entries of names that are not in the listing are untouched |
| ChangeDetection.RerunQueuesNothing | agent.py:40-51 | a second run over the same unchanged listing, with the ledger the first run recorded, queues nothing |
| Agent.PriorChunks | agent.py:59-61 | a rebuild starts from the persisted chunks when an index file exists, and from nothing otherwise |
| Agent.ReportAgent.constructor | agent.py:10-16 | a new agent has a fresh vector store over the same files (no index, no chunks, dimension 0), no chunks of its own, and the ledger read from its file, or an empty ledger |
| Agent.ReportAgent.SaveProcessedHashes | agent.py:24-27 | the ledger file is replaced by the in-memory ledger |
| Agent.ReportAgent.SaveChunks | agent.py:105-109 | the chunk file is rewritten with one line per chunk |
| Agent.ReportAgent.LoadIndex | agent.py:80-88 | returns whether an index file exists; if so, the store gets the stored index and its dimension, the store's chunks become the chunk file's lines or stay stale when that file is missing, and the agent's chunks are read from the chunk file (`[]` when missing); otherwise nothing changes |
| Agent.ReportAgent.CollectChunks | agent.py:64-68 | the chunks become the prior chunks followed by every queued file's chunks in queue order, and every queued digest is recorded |
| Agent.ReportAgent.Rebuild | agent.py:53-78 | old chunks are kept as a prefix and the queued chunks follow; the ledger records every queued digest; no chunks raises `ValueError` before any write or embedding call; the write order is index, chunk file, chunk file, ledger; the store ends with the built index and its dimension, or, when nothing is built, with what the reload left (the stored index and dimension if an index file exists, else its old ones) |
| Agent.ReportAgent.BuildOrLoadIndex | agent.py:37-78 | nothing queued with an index file present: chunks are loaded, the store gets the stored index, dimension and chunk lines (stale chunks when the chunk file is missing), with no embedding call and no write; otherwise the outcome of the rebuild on the queue, which includes the `ValueError` when nothing is queued and no index exists |
| Agent.ReportAgent.AskQuestion | agent.py:90-103 | without an index, `RuntimeError` before any embedding call; other search failures propagate; otherwise the completion is asked the prompt built from the question and the retrieved chunks in search order |
| Agent.Excerpts | agent.py:92 | the retrieved chunks are the search results' texts, in order |
| Agent.JoinAt | agent.py:99 | in `"\n\n".join(chunks)` every chunk appears whole at its offset, in list order |
| Agent.JoinSeparator | agent.py:99 | neighbouring chunks are separated by exactly `"\n\n"` |
| Agent.PromptContents | agent.py:94-101 | the prompt opens with the fixed instructions and "Question: ", then holds the question verbatim, then every retrieved chunk verbatim at its place in the joined excerpt block, and ends with the fixed closing instruction |
| IndexBuilder.ProcessQueue | index_builder.py:46-51 | the chunks are exactly the queued files' chunks in queue order, and the ledger records every queued digest |
| IndexBuilder.BuildIndex | index_builder.py:26-66 | nothing queued: no embedding call and no write; no chunks: `ValueError` before any write; otherwise only the queued chunks are embedded, and the index, chunk file, chunk file and ledger are written in that order |
| IndexBuilder.SecondBuildSkips | index_builder.py:33-42 | after a run, running the builder again over the same listing queues nothing and so builds nothing |
| Scraper.FirstYearFrom | app.py:126 | the leftmost `20\d{2}` match at or after a position, or none |
| Scraper.FirstYear | app.py:126 | the matched year has four characters |
| Scraper.RelevantReportIff | app.py:125-131 | a URL is relevant exactly when its leftmost `20\d{2}` is a target year, and, for 2025, the URL also names Q1 or Q2 in either case |
| Scraper.NoYearNotRelevant | app.py:127-128 | a URL without any `20\d{2}` is rejected |
| Scraper.FirstYearIgnoresSuffix | app.py:126 | only the first year counts: text after it cannot change the year the filter reads |
| Scraper.EarlierYearsNeedNoQuarter | app.py:131 | 2023 and 2024 reports are accepted with no quarter check |
| Scraper.Year2025NeedsQuarter | app.py:129-131 | a 2025 report is accepted exactly when the URL names Q1 or Q2 |
| Scraper.OtherYearsRejected | app.py:20 | a first year outside 2023, 2024 and 2025 rejects the URL |
| Scraper.ScraperFor | app.py:27-32 | a scraper is chosen only when the lower-cased name is its key |
| Scraper.ScrapeCompanyReports | app.py:26-33 | an unknown company gets no reports; a known one gets its scraper's reports |
| Scraper.DispatchIgnoresCase | app.py:32 | company c is chosen exactly when the lower-cased name is c's key, and a name and its lower-cased form choose the same scraper |
| Scraper.AbsolutizeSpec | app.py:48 | a link starting with "http" is kept, any other link gets the host as prefix; the result starts with "http", ends with the original link, and absolutising again changes nothing |
| Scraper.HostsAreAbsolute | app.py:85 | the three site hosts start with "http", so every kept link is absolute |

## Left out

- I/O is a `Disk` with one slot per artifact. Paths, `os.path.exists`, `os.makedirs`, file encodings and logging output are not modelled.
- Writing on a platform whose text mode turns `"\n"` into `"\r\n"` is not modelled. Reading translates it back anyway.
- JSON encoding of the ledger is not modelled: a saved ledger loads back unchanged, as it does for string keys and string values.
- `os.listdir` order is a given sequence. Entries that are directories named `*.pdf` are not modelled; the source would fail to open them.
- SHA-256 is not modelled: `Hashing.FileHash` states, through the hasher it returns, what is fed to the hasher, and the digest is an opaque function of those bytes.
- The PDF text extractor and `chunk_text` are opaque functions. Their own exceptions are not modelled.
- The `utils` module is not part of this model.
- faiss internals are not modelled. Float32 conversion and L2 distances are left out, and the search is an opaque function returning rows of distance and label.
- VectorStore.VectorDB.Search: does not model faiss's assertion that the query has the index's dimension. The `top_k` bound rests on faiss's contract that a query for k neighbours gets at most k rows, which `AnswersAtMost` states of the opaque search. `top_k` must be positive: faiss rejects a smaller `k`, and the program always passes the default 5 (main.py:20 calls `ask_question` without `top_k`, agent.py:90).
- VectorStore.BuildOutcome: numpy's `ValueError` message is abbreviated to "inhomogeneous embedding shape". A failed embedding call is one error value rather than the OpenAI client's exception types.
- VectorStore.VectorDB.SaveIndex: requires an index. Its only caller, `build_index`, sets one right before the call (vector_db.py:21-23), so what faiss does when handed `None` is not modelled.
- Agent.ReportAgent.AskQuestion: the completion is an opaque function; its failures are not modelled.
- llm_utils.py, config.py, main.py and test.py are not part of this model. Neither are the network scrapers `_scrape_acousort`, `_scrape_carlsberg` and `_scrape_stockwik`, nor `download_pdf` and `save_reports_to_csv`.
- Scraper.ScrapeCompanyReports: the chosen scraper's run is a parameter, so its retries and its network failures are not modelled.
- Scraper.IsRegexDigit: `\d` is Unicode general category Nd as of Unicode 15.0. Other Python versions may know more digits.
- PyText.Lower: only A-Z and U+212A are lowered. Every other code point is kept, which gives the same answer whenever the result is compared with ASCII text.
- The agent's console messages are not modelled.
- Python's aliasing of one list object between the agent, the store and the build is not modelled. The list is never mutated after that point, so values are enough.

## Findings

| source | as written | input that shows it | evidently intended | confidence | as-written member | corrected member |
|---|---|---|---|---|---|---|
| vector_db.py:63 | the guard `idx < len(self.text_chunks)` lets faiss's padding label -1 through, and `text_chunks[-1]` is the last chunk | two stored chunks, `top_k` = 3: labels 0, 1, -1 give chunks x, y, y; with no chunks the same row raises `IndexError` | padding rows are skipped (`0 <= idx < len`) | not executed | VectorStore.PaddingRowAsWritten | VectorStore.PairHitsGuardedSound |
| vector_db.py:34 | only `"\n"` is replaced before writing, but reading in text mode also breaks lines at `"\r"` | the single chunk `"a\rb"` is saved as one line and loaded as the two chunks `"a"` and `"b"`, which breaks chunk i = vector i | one line per chunk for every chunk (replace `"\r"` as well) | not executed | ChunkFile.CarriageReturnSplitsChunk | ChunkFile.ReloadAfterSaveFixed |

The classes follow the code as written: `VectorDB.Search` uses the unguarded
loop, and every writer uses the encoding that replaces only `"\n"`.
