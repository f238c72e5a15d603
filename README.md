# Legal Notebook: a verified model of the page-aware ingestion and citation core

Legal Notebook is a retrieval notebook for legal documents. It ingests PDFs as follows:

- It extracts each PDF page by page, building a *page map*. The map holds one `(start_char, end_char, page_num)` entry per page. An empty page is widened to width 1.
- It splits the text into token-bounded chunks.
- It gives each chunk the page range its character span overlaps.
- It uploads the chunk embeddings to a Qdrant collection, under one named vector per document.

At query time a hit's `start_page`/`end_page` are used to fetch the cited pages again.

Around this pipeline sit smaller parts:

- a record of processed files, so that a re-run skips finished files;
- a hash-partitioned JSON cache;
- a tool dispatcher for the language model;
- message history and client configuration lookup;
- the desktop panels that show results, filter sources and pick the number of chunks.

This project models those parts in Dafny and proves what they promise. Each source file maps to one module:

- `PageMap`: `get_text_with_pages`, `get_text_from_page_range` (scripts/filemanagement.py)
- `PageResolver`: `FileManager.find_page_range`
- `Chunking`: the cursor walk of `FileManager.text_splitter`, and the extract–split–fetch round trip
- `Hashing`: scripts/clients/caching/hashing.py
- `CacheManager`: `ClientCacheManager` (scripts/clients/caching/cachemanager.py)
- `BaseClient`: `BaseClient` (scripts/clients/base.py)
- `Tools`: `ToolManager` (scripts/clients/tools.py)
- `VectorDb`: `QdrantManager` (scripts/vectordb.py)
- `Ingestion`: `embedding_test` (main.py)
- `PdfProcessor`: the processing and clearing logic of ui/components/pdf_processor.py
- `ResultsDisplay`, `SourceFilter`, `ChunkSlider`: the three UI components of those names
- `Text`, `Sorting`, `Json`, `Wrappers`: stand-ins for Python built-ins: string methods, `sorted`, JSON values, exceptions as values

Here is how the model represents the source's inputs and effects:

- **Inputs.** A PDF is the sequence of its page texts, or `Unreadable` when PyMuPDF raises. The flat (Tika) extraction is a given string.
- **Abstract calls.** MD5, `to_dict`/`from_dict`, tool invocation and every Qdrant call are function parameters, each of which either answers or raises.
- **Stateful objects.** Objects whose fields the source updates are classes: the tool manager, a client's history, the processed-files store, the JSON cache files and the three panels.
- **Loops.** Loops are methods with loop invariants, proved against specification functions.

The central results:

- `Chunking.CitationCoversSpan`: any non-empty span of the extracted text resolves to real pages, and fetching those pages returns text that holds the span.
- `Chunking.ChunkCitationRoundTrip`: every non-empty chunk of a splitter whose chunks tile the content has this property.
- `Chunking.StartPagesMonotone`: the start pages of non-empty chunks never decrease.

Some properties one might expect of the pipeline hold only in part, or not at all. The model follows the code:

- **Page maps are not char-contiguous.** An entry ends where the next one starts only after a non-empty page (`PageMap.NonEmptyPageIsContiguous`). An empty page's widened slot ends one character past the start of the next page, so the two overlap (`PageMap.EmptyPageSharesNextStart`). A span crossing the slot therefore also resolves to the empty page (`PageResolver.WidenedPageExample`).
- **`start_page <= end_page` only holds on well-formed maps.** The resolver guarantees it only for page numbers that are at least 1 and never decrease (`PageResolver.ResolveWellFormed`). Page number 0 is falsy in Python and becomes 1, as in the code.
- **Fallbacks.** The containment fallback can never fire, because an entry containing `chunk_start` already overlaps the chunk (`PageResolver.ContainmentFallbackUnreachable`). The "distance 0" case of the nearest-page fallback is dead too (`PageResolver.NearestFallbackDistancePositive`).
- **Monotone start pages need non-empty chunks.** An empty chunk has an empty span, which resolves to (1,1). Start pages therefore never decrease only along the non-empty chunks (`Chunking.StartPagesMonotone`).
- **Overlap makes the cursor drift.** The cursor walk adds up the full lengths of overlapping chunks, so with overlap a chunk's span drifts past its text. `Chunking.OverlapDriftExample` shows such a chunk being credited to a later page. With the default overlap of 200 tokens (scripts/filemanagement.py:189) every long document hits this; see "## Findings".
- **`get_cached_entry` can raise.** Its docstring says it raises nothing. For an entry class without a configured directory, `get_partition_path` raises ValueError outside its `try` (`CacheManager.NoDirectoryRaises`).

## Model

| member | source | states |
|---|---|---|
| `PageMap.GetTextWithPages` | scripts/filemanagement.py:68-110 | A non-PDF path or an unreadable PDF yields the flat text and no page map. A readable PDF yields the concatenation of its pages and one entry per page. Each entry starts at the page's offset and ends at its end, widened to width 1 for an empty page, with the 1-based page number. |
| `PageMap.IsPdfPath` | scripts/filemanagement.py:68 | It accepts only paths of at least four characters with a `.` fourth from the end, and it accepts every path ending in `.pdf` or `.PDF`. |
| `PageMap.ExpectedEntry` | scripts/filemanagement.py:84-94 | Entry `i` starts at the offset of page `i`, is never empty, carries page number `i+1`, and ends at the next page's offset when the page has text. |
| `PageMap.EntriesOrdered` | scripts/filemanagement.py:84-94 | Every entry has `start_char < end_char`. Page numbers are `i+1` and strictly increasing. Starts and ends never decrease. |
| `PageMap.NonEmptyPageIsContiguous` | scripts/filemanagement.py:84-91 | A non-empty page ends exactly where the next one starts. |
| `PageMap.EmptyPageSharesNextStart` | scripts/filemanagement.py:88-91 | An empty page's slot `[s, s+1)` starts where the next page starts, so it overlaps that page by one character. |
| `PageMap.ExtractionMapCovers` | scripts/filemanagement.py:79-94 | The map starts at 0, leaves no gap between consecutive entries, and its last entry reaches the end of the content. |
| `PageMap.OffsetHasPage` | scripts/filemanagement.py:79-86 | Every character of the content lies in the text of some page. |
| `PageMap.PageRangeText` | scripts/filemanagement.py:267-285 | The page range is clamped to `[max(0,s-1), min(n,e))`. A range starting past the end, or an empty one, gives "". Otherwise the result equals the slice of the extracted content between the starts of the first and one-past-last pages. |
| `PageMap.GetTextFromPageRange` | scripts/filemanagement.py:244-296 | A non-PDF path returns the flat text and an unreadable PDF returns "". A readable PDF returns the page-range text. |
| `PageMap.PageRangeTextIsSlice` | scripts/filemanagement.py:268-285 | Inside the document the fetched text is the join of the pages of the clamped range. |
| `PageMap.FetchSinglePage` | scripts/filemanagement.py:282-285 | Fetching page `p` alone returns that page's text. That text is the part of the content its page-map entry points at. |
| `PageMap.FetchWholeDocument` | scripts/filemanagement.py:268-285 | Fetching pages 1..N returns the whole extracted content. |
| `PageMap.FetchEmptyRanges` | scripts/filemanagement.py:271-280 | A range starting past the last page, inverted, or ending before page 1 fetches "". |
| `PageResolver.Distance` | scripts/filemanagement.py:166-172 | The fallback's distance is never negative, and it is 0 exactly when the entry contains the offset. |
| `PageResolver.FirstOverlap` | scripts/filemanagement.py:142-147 | The index of an overlapping entry with no overlapping entry before it, or None when none overlaps. |
| `PageResolver.LastOverlap` | scripts/filemanagement.py:142-147 | The index of an overlapping entry with no overlapping entry after it, or None when none overlaps. |
| `PageResolver.FirstContaining` | scripts/filemanagement.py:153-158 | The first entry containing `chunk_start`, or None when none does. |
| `PageResolver.Nearest` | scripts/filemanagement.py:160-179 | An entry of minimum distance. Every earlier entry is strictly farther, matching the strict `<` of the scan. |
| `PageResolver.ScanOverlaps` | scripts/filemanagement.py:142-147 | The loop leaves `start_page` at the first overlapping entry's page and `end_page` at the last one's. |
| `PageResolver.ScanContaining` | scripts/filemanagement.py:153-158 | The loop finds the page of the first entry containing `chunk_start`. |
| `PageResolver.ScanNearest` | scripts/filemanagement.py:160-179 | The loop finds the page of the nearest entry, with ties going to the earliest. |
| `PageResolver.FindPageRange` | scripts/filemanagement.py:118-186 | It returns (1,1) for an empty map or an empty span. Otherwise it returns the overlap range, else the containing page, else the nearest page, with Python's `or 1` on falsy page numbers. |
| `PageResolver.Resolve` | scripts/filemanagement.py:118-186 | An empty map or an empty span gives (1,1). Otherwise each page is 1 or a page number of the map, and the end page is the start page or a page number of the map. |
| `PageResolver.ResolveOverlap` | scripts/filemanagement.py:142-184 | When entries overlap, the range runs from the first overlapping entry's page to the last one's. |
| `PageResolver.ContainmentFallbackUnreachable` | scripts/filemanagement.py:150-158 | For a non-empty span, no overlap implies that no entry contains `chunk_start`. |
| `PageResolver.NearestFallbackDistancePositive` | scripts/filemanagement.py:165-176 | When the nearest-page fallback runs, the winning distance is positive. |
| `PageResolver.ResolveWellFormed` | scripts/filemanagement.py:134-184 | On maps with page numbers at least 1 that never decrease, the result has `1 <= start_page <= end_page`, and both are page numbers of the map. |
| `PageResolver.OverlapExamples` | scripts/filemanagement.py:142-147 | On map `[(0,10,1),(10,20,2),(20,30,3)]`, the span (5,15) gives (1,2), (12,18) gives (2,2) and (25,35) gives (3,3). |
| `PageResolver.WidenedPageExample` | scripts/filemanagement.py:142-147 | A span across a widened empty page resolves to the pages on both sides of it and to the empty page itself. |
| `PageResolver.NearestExample` | scripts/filemanagement.py:160-179 | A span past every entry goes to the nearest page, and ties go to the earliest entry. |
| `Chunking.TextSplitter` | scripts/filemanagement.py:208-236 | One record per chunk, in order, with the chunk text unchanged. Each record's pages are the resolver's answer for the cursor span `[Σ earlier lengths, + len)`, or (1,1) without a page map. |
| `Chunking.NoPageMapDefaultsToFirstPage` | scripts/filemanagement.py:223-227 | Without a page map every chunk is attributed to pages (1,1). |
| `Chunking.SpansTileContent` | scripts/filemanagement.py:216-236 | Each span ends where the next one starts. When the chunks concatenate to the content, each span is exactly where its chunk sits. |
| `Chunking.OverlapDriftExample` | scripts/filemanagement.py:216-236 | With two overlapping chunks, the second chunk's span lies past its real text and resolves to a later page, whose fetched text does not hold the chunk. |
| `Chunking.TilingIsLocated` | scripts/filemanagement.py:216-236 | Without overlap, the chunks lie at the cursor offsets and the corrected records equal the ones the walk emits. |
| `Chunking.LocatedCitationRoundTrip` | scripts/filemanagement.py:216-236 | With located spans, overlapping or not, every non-empty chunk is credited to real pages `1 <= s <= e <= N` whose fetched text holds the chunk at its offset from page `s`. |
| `Chunking.LocatedDriftExample` | scripts/filemanagement.py:216-236 | On the drifting example, the located second chunk is credited to pages 1-2, whose fetched text holds it. |
| `Chunking.ExtractionStartPage` | scripts/filemanagement.py:142-147 | On an extraction map, a non-empty span starts on the first page that ends after its start. |
| `Chunking.StartIndexMonotone` | scripts/filemanagement.py:142-147 | That start page never moves back as the span start moves forward. |
| `Chunking.StartPagesMonotone` | scripts/filemanagement.py:216-236 | Along the chunk sequence, the start page of a non-empty chunk is never less than that of an earlier non-empty chunk. |
| `Chunking.SpanResolvesToCoveringPages` | scripts/filemanagement.py:142-184 | A non-empty span of the content resolves to real pages `1 <= s <= e <= N`. Page `s` starts at or before the span, and the page after `e` starts at or after its end. |
| `Chunking.FetchContainsSpan` | scripts/filemanagement.py:268-285 | Fetching pages `s..e` returns text that holds every span lying within those pages, at its offset from page `s`. |
| `Chunking.CitationCoversSpan` | scripts/filemanagement.py:118-186 | Resolving a non-empty span and fetching the resulting pages yields text that contains the span. |
| `Chunking.ChunkCitationRoundTrip` | scripts/filemanagement.py:216-236 | Suppose the chunks tile the content. Then each non-empty chunk's recorded pages are real pages, and fetching them returns text containing that chunk. |
| `Hashing.ComputePartitionIndex` | scripts/clients/caching/hashing.py:16-20 | ValueError exactly when the count is not positive, otherwise an index below the count. |
| `Hashing.BuildPartitionFilename` | scripts/clients/caching/hashing.py:34 | It gives `base.part_` + at least two decimal digits whose value is the index + `.json`. |
| `Hashing.Format02d` | scripts/clients/caching/hashing.py:34 | At least two characters. A non-negative index gives decimal digits whose value is the index, and a negative one starts with `-`. |
| `Hashing.ValidateArgs` | scripts/clients/caching/hashing.py:37-76 | A failure names one of the four parameters. A failure about a later parameter implies that the earlier ones passed their checks. |
| `Hashing.PartitionFilenameInjective` | scripts/clients/caching/hashing.py:34 | Different partitions never share a file name. |
| `Hashing.ValidateArgsSpec` | scripts/clients/caching/hashing.py:56-76 | Validation passes exactly for valid arguments. Once the earlier checks pass, each of the nine checks raises its own error: TypeError for a non-str key, a directory that is neither str nor Path, a non-str base name or a non-int count. ValueError for a blank key, a None or blank directory, a blank base name or a count <= 0. |
| `Hashing.JoinPath` | scripts/clients/caching/hashing.py:100 | The path starts with the directory and ends with the name. A `/` is put between them unless the directory already ends with one. |
| `Hashing.JoinPathInjective` | scripts/clients/caching/hashing.py:100 | Within one directory, different names give different paths. |
| `Hashing.GetPartitionPath` | scripts/clients/caching/hashing.py:97-100 | It succeeds exactly on valid arguments, failing with the first failing check's exception. A success joins the directory with the file name of `md5 % count`. |
| `Hashing.SamePathIffSamePartition` | scripts/clients/caching/hashing.py:97-100 | Two keys share a partition file exactly when their digests agree modulo the count. |
| `CacheManager.JsonStore.Load` | utils.py:197-204 | It returns the stored dictionary, or `{}` when the file is missing. |
| `CacheManager.JsonStore.Save` | utils.py:284-289 | The file holds the new dictionary, and no other file changes. |
| `CacheManager.GetCacheDirectory` | scripts/clients/caching/cachemanager.py:26-46 | The configured "summary" directory for the summary class, and None for any other class or a non-entry type. |
| `CacheManager.CacheKey` | scripts/clients/caching/cachemanager.py:49 | The key is the source file, a `#` and the client, so both parts can be read back at fixed positions. |
| `CacheManager.EntryPath` | scripts/clients/caching/cachemanager.py:49-53 | A path exists exactly when the key is not blank and the class has a configured directory that is not blank. Every path ends in `.json`. |
| `CacheManager.CacheEntryInStore` | scripts/clients/caching/cachemanager.py:48-67 | A path error leaves every file untouched. Otherwise only `cache_data[source#client]` of the entry's partition file changes. |
| `CacheManager.GetCachedEntry` | scripts/clients/caching/cachemanager.py:98-136 | It raises exactly when the path cannot be built. A miss gives None, and a hit gives `from_dict` of the stored value. |
| `CacheManager.NoDirectoryRaises` | scripts/clients/caching/cachemanager.py:50-53 | An entry class without a configured directory makes the path lookup raise ValueError for `base_dir`. |
| `CacheManager.SummaryPathDefined` | scripts/clients/caching/cachemanager.py:38-43 | The summary class has a path exactly when its configured directory is not blank. |
| `CacheManager.PutThenGet` | scripts/clients/caching/cachemanager.py:64-67 | A value put under a key is read back from the same file. |
| `CacheManager.PutLeavesOthersUnchanged` | scripts/clients/caching/cachemanager.py:64-67 | A put changes no other key and no other file. |
| `CacheManager.CacheRoundTrip` | scripts/clients/caching/cachemanager.py:98-126 | Caching an entry, then asking for it by client, source file and class, yields `from_dict(to_dict(entry))`. |
| `BaseClient.FirstSectionWith` | scripts/clients/base.py:71-72 | The first section in file order that has the client, or None when no section has it. |
| `BaseClient.AvailableClients` | scripts/clients/base.py:83-85 | It holds exactly the client names listed in some section. |
| `BaseClient.Client.constructor` | scripts/clients/base.py:31-41 | The history is the one given, or empty. |
| `BaseClient.Client.AddMessage` | scripts/clients/base.py:96-101 | A list extends the history in order, and a single message is appended. |
| `BaseClient.Client.ClearHistory` | scripts/clients/base.py:103-105 | The history becomes empty. |
| `BaseClient.Client.LoadClientConfig` | scripts/clients/base.py:71-89 | For sections that list exactly their own clients, as a JSON dict does, it returns the first matching section's configuration tagged with `_section`. Otherwise it raises a KeyError listing every client of every section. |
| `BaseClient.TaggedConfigKeepsSettings` | scripts/clients/base.py:73-76 | The returned configuration keeps every stored setting and adds only `_section`. |
| `BaseClient.TaggedConfig` | scripts/clients/base.py:72-75 | The copy has the stored keys plus `_section`, and `_section` names the section it came from. |
| `BaseClient.UnknownIffNotListed` | scripts/clients/base.py:82-89 | On well-formed sections, a client is not found exactly when the KeyError's list omits it. |
| `BaseClient.EarlierSectionWins` | scripts/clients/base.py:71-80 | A client listed in two sections is found in the earlier one. |
| `Tools.ToolMap` | scripts/clients/tools.py:23 | Every name maps to a tool of that name. |
| `Tools.ToolMapLastWins` | scripts/clients/tools.py:23 | A name is mapped exactly when some tool has it, and it maps to the last tool with that name. |
| `Tools.Respond` | scripts/clients/tools.py:43-94 | The answer always carries the call's id, or "unknown". |
| `Tools.RespondCases` | scripts/clients/tools.py:43-94 | A missing name, an unknown name and a raising tool each give their own error message and no record. A returning tool is recorded, and its `(content, tokens)` or `str` output is answered. |
| `Tools.RecordedIffInvoked` | scripts/clients/tools.py:59-71 | A call is recorded exactly when it names a registered tool whose invocation returns. |
| `Tools.ToolManager.constructor` | scripts/clients/tools.py:21-26 | The tool map is built, the counter is 0 and the history is empty. |
| `Tools.ToolManager.CallTool` | scripts/clients/tools.py:28-94 | It answers as `Respond` does and appends the call's record, if any. The counter stays equal to the history length. |
| `Tools.ToolManager.BatchToolCall` | scripts/clients/tools.py:96-102 | It gives one answer per call, in order, and the history grows by the records of the batch in order. |
| `Tools.ToolManager.GetToolUsageSummary` | scripts/clients/tools.py:111-128 | It says "No tool calls were made." for an empty history. Otherwise it lists one "name (N times)" item per tool in first-use order. |
| `Tools.UsageSummary` | scripts/clients/tools.py:111-128 | The text is "No tool calls were made." exactly when the history is empty, and otherwise starts with "Tools used: ". |
| `Tools.CountToolUses` | scripts/clients/tools.py:115-118 | Each name's count is its number of occurrences in the history, and names are listed in order of first use. |
| `Tools.FormatUsage` | scripts/clients/tools.py:121-126 | It gives one item per name, "1 time" or "N times" according to the name's count. |
| `Tools.FirstUseOrder` | scripts/clients/tools.py:122 | The distinct names of the history, each once. |
| `Tools.FirstUseOrderIsFirstUse` | scripts/clients/tools.py:118-122 | The names come in order of first use: a name listed earlier was first used earlier in the history, as a dict's keys are. |
| `Tools.UsageCountsSumToHistory` | scripts/clients/tools.py:115-128 | The listed counts add up to the number of recorded calls, and every recorded tool is listed once. |
| `Tools.AllSucceedingCallsRecorded` | scripts/clients/tools.py:59-71 | Calls that all succeed are all recorded, past `tool_call_limit`. |
| `VectorDb.PySlice` | scripts/vectordb.py:108-109 | A Python slice is clamped to the sequence length, element by element. |
| `VectorDb.BatchInRange` | scripts/vectordb.py:106 | Sub-batch `k` exists exactly when its start lies below the total. |
| `VectorDb.BatchesTile` | scripts/vectordb.py:106-107 | Sub-batches are non-empty, at most `max_batch_size` long, adjacent, and end at the total. |
| `VectorDb.BatchPoints` | scripts/vectordb.py:113-120 | `zip` stops at the shorter slice. Each point carries `{vector_name: embedding}` and `metadata or {}`. |
| `VectorDb.RetryFrom` | scripts/vectordb.py:123-141 | At most three attempts are made, and only ResponseHandlingException is retried. The result is the last attempt's, and a handled error survives only after three attempts. |
| `VectorDb.RetrySkipsHandledErrors` | scripts/vectordb.py:123-138 | Attempts that failed with a handled error do not change how the retry loop ends. |
| `VectorDb.FirstFailing` | scripts/vectordb.py:106-141 | The first sub-batch whose upload finally fails, with every earlier one succeeding. |
| `VectorDb.UploadedIsPrefix` | scripts/vectordb.py:106-120 | The first `k` sub-batches upload exactly the zip of the embeddings they reach. |
| `VectorDb.UploadsEveryEmbedding` | scripts/vectordb.py:106-120 | When every sub-batch succeeds and metadata is complete, exactly one point per embedding is uploaded, in order. |
| `VectorDb.UploadBatch` | scripts/vectordb.py:123-141 | The retry loop ends as `RetryFrom` says. |
| `VectorDb.AddEmbeddingsBatch` | scripts/vectordb.py:99-141 | A zero batch size raises and a negative one does nothing. Otherwise every point is uploaded, or the call raises at the first failing sub-batch with the earlier sub-batches' points already stored. |
| `VectorDb.SortByScore` | scripts/vectordb.py:252 | The result is a permutation of the hits with scores non-increasing. |
| `VectorDb.SearchVectors` | scripts/vectordb.py:225-259 | One name passes the answer through or raises. A list merges the hits of the searches that succeed, sorts them by score and keeps `[:limit]`. Any other argument raises. |
| `VectorDb.MergedSearchTopHits` | scripts/vectordb.py:236-253 | At most `limit` hits are kept, best first, all of them merged hits. No dropped hit scores higher than a kept one, and all hits are kept when there are few enough. |
| `VectorDb.GetVectorNames` | scripts/vectordb.py:271-277 | The collection's names as a sorted permutation, or [] when the lookup raises. |
| `VectorDb.IdsWithVector` | scripts/vectordb.py:183-186 | The ids of exactly the scrolled points that carry the vector. |
| `VectorDb.CountVectors` | scripts/vectordb.py:290-311 | The number of scrolled points carrying the vector, or -1 when the scroll raises. |
| `VectorDb.ClearVector` | scripts/vectordb.py:156-203 | It returns False for a missing collection or vector and for any raising call. A vector with no points gives True without a delete. Otherwise it deletes exactly the ids carrying the vector and reports whether the delete succeeded. |
| `Sorting.InsertionSort` | scripts/vectordb.py:252 | The result is a sorted permutation of the input under any total preorder. |
| `Sorting.LexOrderIsTotalPreorder` | scripts/vectordb.py:274 | Python's string order is total and transitive. |
| `Sorting.LexLeAntisymmetric` | scripts/vectordb.py:274 | Two strings each ordered before the other are equal. |
| `Sorting.SortedStrings` | scripts/vectordb.py:274 | `sorted(names)` is an ascending permutation of the names. |
| `Ingestion.Stem` | main.py:39 | The stem is a prefix of the file name. |
| `Ingestion.RemoveChars` | main.py:43 | The result contains no character of the class. |
| `Ingestion.RemoveCharsKeepsOthers` | main.py:43 | Every other character survives and nothing new appears. A string without punctuation is unchanged. |
| `Ingestion.NormalizeVectorName` | main.py:27-45 | A vector name holds no whitespace, none of the removed punctuation and no ASCII capital. |
| `Ingestion.NormalizeFixesPlainNames` | main.py:27-45 | A non-empty lower-case ASCII name is already normalised. |
| `Ingestion.CollectVectorNames` | main.py:58-63 | The names collected are exactly the normalised file names plus "chunk". |
| `Ingestion.BuildVectorConfig` | main.py:66-72 | Every collected name, and nothing else, gets size-3072 cosine parameters. |
| `Ingestion.ConfigCoversEveryFile` | main.py:58-72 | Every file's upload vector name, and "chunk", are configured in the collection. |
| `Ingestion.PageRangeLabelInjective` | main.py:132 | Different page ranges never share a `page_range` label. |
| `Ingestion.PageRangeLabel` | main.py:132 | For non-negative pages the label holds a dash exactly when the range spans more than one page. |
| `Ingestion.FilePayloads` | main.py:110-137 | A zero batch size raises and a negative one yields nothing. Otherwise there is one payload per chunk in order, carrying its global index `batch_start + i`, its pages, its label and the chunk total. |
| `Ingestion.Outcome` | main.py:88-168 | A file is skipped exactly when its key is already recorded. Otherwise it completes exactly when extraction yields non-empty content and the batch size is negative (no batch runs) or positive with every embedding and upload succeeding. It has no content exactly when extraction yields "". An extracted file fails only for batch size 0 or a failing embedding or upload. |
| `Ingestion.RecordAfter` | main.py:80-167 | The record after `n` files keeps every earlier key and gains at most `n` keys. |
| `Ingestion.Settled` | main.py:88-168 | At most `n` of the first `n` files are skipped or completed. |
| `Ingestion.EmbeddingRun` | main.py:78-168 | The record ends as the file-by-file run leaves it. `progress` ends as the file count minus the skipped and completed files. |
| `Ingestion.RecordOnlyGrows` | main.py:165-167 | No existing entry changes. Every new key is a completed file's key, marked True. |
| `Ingestion.CompletedStaysRecorded` | main.py:88-91 | A completed file stays recorded as True, so it is skipped when it is seen again. |
| `Ingestion.NotRecordedWithoutCompletion` | main.py:95-167 | A file that never completes is never recorded. |
| `PdfProcessor.ProcessedFilesStore.Save` | ui/components/pdf_processor.py:656-657 | The file holds the new record, and the write is counted. |
| `PdfProcessor.FilterUnprocessed` | ui/components/pdf_processor.py:536-555 | It keeps, in order, the files whose path matches no recorded path up to slashes and case. |
| `PdfProcessor.MatchKey` | ui/components/pdf_processor.py:542-548 | It keeps the length and leaves no backslash and no ASCII capital. |
| `PdfProcessor.Unprocessed` | ui/components/pdf_processor.py:536-555 | It keeps at most the given files, and every file it keeps matches no recorded path. |
| `PdfProcessor.UnprocessedMembers` | ui/components/pdf_processor.py:536-555 | A file is kept exactly when no recorded path matches it. |
| `PdfProcessor.UnprocessedAppend` | ui/components/pdf_processor.py:536-553 | Filtering preserves order: filtering `a + b` gives the filtered `a` followed by the filtered `b`. |
| `PdfProcessor.ProcessPdfs` | ui/components/pdf_processor.py:505-668 | With no files, or nothing left to do, it reports that and writes nothing. Otherwise it records each finished file as True, writes once per finished file, and reports finished out of tried. |
| `PdfProcessor.PdfOutcome` | ui/components/pdf_processor.py:583-668 | A listed file is never skipped. It finishes exactly when its extraction has content and every upload succeeds. |
| `PdfProcessor.RecordRun` | ui/components/pdf_processor.py:583-660 | The run keeps every key of the record, and every key it adds is marked True. |
| `PdfProcessor.UnprocessedKeyIsNew` | ui/components/pdf_processor.py:542-556 | A file the filter keeps is not yet recorded under its own key. |
| `PdfProcessor.RecordRunAdds` | ui/components/pdf_processor.py:652-660 | The run adds exactly the keys of the finished files, marked True, and changes no other entry. |
| `PdfProcessor.RunKeepsOldEntries` | ui/components/pdf_processor.py:536-660 | A run changes no entry it found in the record. |
| `PdfProcessor.FinishedFilesAreSkippedNextTime` | ui/components/pdf_processor.py:542-550 | A file finished by one run is filtered out by the next. |
| `PdfProcessor.SourceOf` | ui/components/pdf_processor.py:727-728 | A usable source is a non-empty path. |
| `PdfProcessor.GetFilesForVector` | ui/components/pdf_processor.py:711-744 | It collects the sources of the points carrying the vector. Any raise, including from a non-string source, gives the empty set. |
| `PdfProcessor.NormalizedSource` | ui/components/pdf_processor.py:727-736 | It keeps the length, and a backslash survives only in a source that starts with `scripts/data/pdfs/`. |
| `PdfProcessor.FilesForVector` | ui/components/pdf_processor.py:723-744 | The scan fails exactly when some scanned point carrying the vector has a bad source. Otherwise it reports at most one file per scanned point. |
| `PdfProcessor.BadSourceRaises` | ui/components/pdf_processor.py:724-744 | After a bad source raises, later points change nothing. |
| `PdfProcessor.FilesForVectorMembers` | ui/components/pdf_processor.py:723-740 | The reported files are exactly the normalised sources of the points carrying the vector. A reported file holds a backslash only if it lies in the default folder. |
| `PdfProcessor.UpdateProcessedFilesAfterClear` | ui/components/pdf_processor.py:746-768 | It removes exactly the listed paths and counts those it held. The file is written only when something was removed. |
| `PdfProcessor.ClearVectorRecords` | ui/components/pdf_processor.py:689-698 | The files behind the vector are forgotten only when clearing succeeds, and the record file is written once exactly when that forgets at least one recorded file. |
| `PdfProcessor.ClearedSourceMatchesRecord` | ui/components/pdf_processor.py:620-656 | For a file of the default folder, the normalised `source` of its chunks equals its record key exactly when the resolved folder, with forward slashes, is `scripts/data/pdfs` itself. |
| `PdfProcessor.RootedFolderKeepsRecord` | ui/components/pdf_processor.py:727-736 | With the folder resolved to `/srv/app/scripts/data/pdfs`, a finished file is recorded, but clearing its vector reports a source that misses its record key, so the key stays. |
| `PdfProcessor.IntendedNormalizedSource` | ui/components/pdf_processor.py:727-736 | With forward slashes, a source under the root path loses that prefix and any other source is kept whole. |
| `PdfProcessor.StripRoot` | ui/components/pdf_processor.py:727-736 | A path joined under the root path comes back as the part after the root, with forward slashes. |
| `PdfProcessor.IntendedClearMatchesRecord` | ui/components/pdf_processor.py:620-656 | With the root path stripped, the `source` of a default-folder file's chunks is its record key for any root path. |
| `ResultsDisplay.BeforeLastSpace` | ui/components/results_display.py:255 | `rsplit(' ', 1)[0]` is everything before the last space, or all of a string without one. |
| `ResultsDisplay.ContentPreview` | ui/components/results_display.py:234-256 | Empty text gives "Content not available". Text that fits after stripping is returned stripped. Longer text is cut to `max_length`, back to its last space, and followed by "...". |
| `ResultsDisplay.ResultsPanel.constructor` | ui/components/results_display.py:16-24 | The panel starts collapsed, with no cards, "0 results" and no handler. |
| `ResultsDisplay.ResultsPanel.SetWidthChangeHandler` | ui/components/results_display.py:283-290 | Notices are on exactly when the handler given is truthy; `None` switches them off. Nothing else changes. |
| `ResultsDisplay.ResultsPanel.ToggleExpansion` | ui/components/results_display.py:258-281 | The flag flips, and the handler, if any, is told the new state. |
| `ResultsDisplay.ResultsPanel.AutoExpandOnResults` | ui/components/results_display.py:292-295 | The panel ends expanded, and the handler is notified only when it was collapsed. |
| `ResultsDisplay.ResultsPanel.Clear` | ui/components/results_display.py:112-122 | It removes the cards, resets the count and collapses, notifying the handler only if the panel was expanded. |
| `ResultsDisplay.ResultsPanel.DisplayResults` | ui/components/results_display.py:124-147 | No results show "0 results" and leave the expansion alone. `n` results show `n` cards and "n results" and expand the panel. |
| `ResultsDisplay.CountText` | ui/components/results_display.py:140 | The label ends in " results", and the digits before it have the count as their value. |
| `ResultsDisplay.ResultsPanel.JumpToResult` | ui/components/results_display.py:297-343 | It expands the panel and highlights card `i` exactly when `1 <= i <= cards`. |
| `SourceFilter.Elements` | ui/components/source_filter.py:176 | `set(list)` holds exactly the list's names. |
| `SourceFilter.ElementsCount` | ui/components/source_filter.py:213-218 | The set is no larger than the list, and it is as large exactly when no name repeats. |
| `SourceFilter.SetToList` | ui/components/source_filter.py:229 | `list(set)` holds every element once. |
| `SourceFilter.SelectAllStatus` | ui/components/source_filter.py:208-220 | After "Select All" the status reads "All … selected" exactly when no name repeats. Otherwise it reads "k/n". |
| `SourceFilter.Filter.constructor` | ui/components/source_filter.py:17-23 | Nothing is offered or selected, and the status reads "No sources loaded". |
| `SourceFilter.Filter.Notify` | ui/components/source_filter.py:167-171 | The status matches the selection, and the callback receives the selection as a list. |
| `SourceFilter.Filter.OnSourceToggle` | ui/components/source_filter.py:152-171 | A tick adds the name and an untick discards it. Then the filter notifies. |
| `SourceFilter.Filter.SelectAllSources` | ui/components/source_filter.py:173-189 | The selection becomes exactly the offered names. Then the filter notifies. |
| `SourceFilter.Filter.SelectNoneSources` | ui/components/source_filter.py:191-206 | The selection becomes empty. Then the filter notifies. |
| `SourceFilter.Filter.LoadSources` | ui/components/source_filter.py:98-112 | It offers the given names and selects all of them. Then the filter notifies. |
| `SourceFilter.Filter.GetSelectedSources` | ui/components/source_filter.py:222-229 | It returns the selection as a list, each name once. |
| `SourceFilter.StatusText` | ui/components/source_filter.py:208-220 | It reads "No document types loaded" exactly when nothing is offered. An empty selection gives the warning, and a selection as large as the list gives "All document types selected". |
| `ChunkSlider.Clamp` | ui/components/chunk_slider.py:176 | The result lies in 1..30. A value in range is kept, and any other goes to the nearer bound. |
| `ChunkSlider.Slider.constructor` | ui/components/chunk_slider.py:15-21 | The initial value is taken unclamped, and the slider starts with no notifications. |
| `ChunkSlider.Slider.SetValue` | ui/components/chunk_slider.py:168-185 | The value becomes the clamped one. Only a change relabels the slider and calls the callback once. |
| `ChunkSlider.Slider.GetValue` | ui/components/chunk_slider.py:187-194 | It returns the current value. |
| `ChunkSlider.ValueLabel` | ui/components/chunk_slider.py:180 | The label starts with "Chunks: ", and for a non-negative value the rest is its decimal digits. |

## Left out

- The token splitter (`TokenTextSplitter`, o200k_base) is not modelled. Its chunk texts are an input to `Chunking.TextSplitter`, and the tokenizer itself is a third-party library.
- Logging and the progress bar's floating-point fractions are not modelled. They have no effect on the data.
- Token counting is taken to succeed. `count_tokens` raises ValueError when its encoding cannot be loaded (utils.py:244-250), and the model does not capture that case. It would make `PageMap.GetTextWithPages` fall back to the flat extraction, which then comes back empty (scripts/filemanagement.py:99-110), and `PageMap.GetTextFromPageRange` return "" (scripts/filemanagement.py:290-298). Because `text_splitter` calls it unguarded (scripts/filemanagement.py:239), a file with at least one chunk would fail in both `Ingestion.Outcome` and `PdfProcessor.PdfOutcome`, where the model completes it.
- PyMuPDF, Tika, Azure OpenAI embedding and chat calls, and the Qdrant client are abstract. Each is an input or a function parameter that either answers or raises, because they are foreign libraries and services.
- `Hashing.ComputePartitionIndex` takes MD5 as a parameter digest, so its results are not tied to real MD5 values.
- `CacheManager.JsonStore.Load` treats the JSON round trip as the identity. JSON parsing and encoding are not modelled.
- `PdfProcessor.ProcessedFilesStore.Save` always writes the new record. `save_to_json` swallows IOError and TypeError (utils.py:284-289), and the write is still counted. `save_to_json` opens the file with mode "w" (utils.py:285), which truncates it first, so a failed write may leave the file empty or partly written. The next `load_from_json` then gets a JSONDecodeError and returns `{}` (utils.py:201-203), so every recorded file is forgotten. The model does not capture this.
- `CacheManager.JsonStore.Save` always succeeds. `save_to_json` swallows IOError and TypeError, and that failure path is not modelled.
- The cache entry classes are parameters: cacheschema.py is not part of this model, so `to_dict`/`from_dict` are passed in.
- `CacheManager.CacheEntryInStore` assumes every cache file decodes. A malformed file loads as `{}` (utils.py:201-203). A file that is not UTF-8 raises UnicodeDecodeError out of `load_from_json` (utils.py:198-204), and `cache_entry` catches that in its own `except`. Either way `cache_entry` would then overwrite the file with this one entry (scripts/clients/caching/cachemanager.py:54-62). `CacheManager.GetCachedEntry` would give None.
- `PdfProcessor.GetFilesForVector` and `VectorDb.ClearVector` see only the first `scroll` page (limit 10000), as the code does. Later pages do not exist in the model.
- `VectorDb.ClearVector`, `VectorDb.CountVectors` and `PdfProcessor.GetFilesForVector` read a point's vectors as a set of names for the `vector_name in point.vector` test (scripts/vectordb.py:185, :303; ui/components/pdf_processor.py:725). The case where `point.vector` is a plain list is not modelled.
- `VectorDb.AddEmbeddingsBatch` returns the points whose upsert succeeded. A failed upsert is assumed to store nothing, and generated UUID point ids are not modelled.
- `VectorDb.SortByScore` does not state stability. Python's sort is stable, but the model does not prove that ties keep their merge order. Scores are integers, not floats.
- `VectorDb.NumBatches` is defined by repeated steps. Its equality with the ceiling of `total / max_batch_size` is not proved.
- `Hashing.JoinPath` is plain POSIX concatenation. pathlib's normalisation (`./`, repeated or trailing slashes, `.`) is not modelled, and neither is the Windows separator or an absolute name replacing the directory.
- `BaseClient.Client.constructor` copies the given history into a sequence. The code keeps any list the caller passes, empty or not, by reference (scripts/clients/base.py:31-32, :41), so `add_message` would also change the caller's list (scripts/clients/base.py:96-101). That aliasing is not modelled.
- `Text.Lower` lowers ASCII letters only, unlike Python's Unicode `str.lower`.
- Payloads leave out `file_size_mb`, a rounded float of the file size.
- `PdfProcessor.ProcessPdfs` does not build the payloads; they are the ones `Ingestion.FilePayloads` builds with batch size 50. Collection creation is also not modelled.
- `PdfProcessor.FilterUnprocessed` takes relative paths as given. Path resolution (`relative_to`, `resolve`, `resolve_file_path`) is outside the model.
- `resolve_file_path` is not part of this model. It prepends the configured root path, so the resolved folder is a parameter of `PdfProcessor.ClearedSourceMatchesRecord`.
- `Tools.RespondCases` and `Tools.ToolManager.CallTool` do not model an answer that fails to build. The count and the history record are updated before the answer is built, in the same `try` (scripts/clients/tools.py:62-88). If `str(output)` or building the `ToolMessage` raised, the error text would be returned with the record kept (scripts/clients/tools.py:89-94).
- `Tools.ToolManager.constructor` stores `tool_call_limit`. The model never consults it, and neither does the code: `ToolCallLimitReached` is never raised.
- A tool registered under the name "" can never be called, because the empty name is rejected first. The model does the same.
- `ResultsDisplay.ResultsPanel.JumpToResult` runs the `after(200, ...)` step immediately. Scrolling is not modelled, and neither is the three-second highlight timeout.
- `ResultsDisplay.ContentPreview` with a negative `max_length` follows Python slicing. That case is stated only for its "..." suffix.
- Widget layout, themes, tooltips, dragging and clicking pixel arithmetic of the slider, and the threads of the PDF panel are not modelled. They are UI mechanics without data logic.
- `SourceFilter.SelectAllStatus` shows "k/n" when names repeat in the offered list, as the code does.

## Findings

| source | as written | input that shows it | evidently intended | confidence | as-written member | corrected member |
|---|---|---|---|---|---|---|
| ui/components/pdf_processor.py:727-736 | A `source` that does not start with `scripts/data/pdfs/` only has its backslashes replaced, so a root-prefixed source keeps the root path. | Root path `/srv/app` and the finished file `scripts/data/pdfs/a.pdf`: its chunks carry `source` `/srv/app/scripts/data/pdfs/a.pdf`, and its record key is `scripts/data/pdfs/a.pdf`. | Strip the root path, so that clearing the vector forgets the file's record, as the comment at lines 729-731 says. | medium, not executed | `PdfProcessor.RootedFolderKeepsRecord` | `PdfProcessor.IntendedClearMatchesRecord` |
| scripts/filemanagement.py:216-236 | The cursor advances by each chunk's full length, although consecutive chunks share `chunkOverlap` tokens (200 by default, line 189), so the spans of later chunks lie past their text. | Pages "abcd" and "ef", chunks "abcd" and "cdef": the second chunk gets span [4,8) and pages (2,2), and page 2's text "ef" does not hold "cdef". | Each chunk's span starts where its text lies in the content, so its cited pages hold it. | medium, not executed | `Chunking.OverlapDriftExample` | `Chunking.LocatedCitationRoundTrip` |
