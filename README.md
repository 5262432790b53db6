# EnhancedRAG core in Dafny

EnhancedRAG is a Spring application that answers questions using retrieval over several vector stores. Each store belongs to one document type: PDF, MARKDOWN, JSON or TEXT. This project models the deterministic core of the application and proves properties about that model:

- **Chunking and ingestion** (`chunking.dfy`, `ingestion.dfy`).
  - `DocumentIngestionService.chunkContent` is modelled as a loop method. It is proved equal to a window-by-window specification.
  - Around it, the per-chunk numbering loop, the chunk metadata, the missing-store check and `getPatternForType`.
  - The store contents that `ingestSingleDocument` and `ingestDocumentsByType` extend.
- **Cross-store retrieval** (`cross_reference.dfy`). This is `CrossReferenceAdvisor`:
  - the sequential loop over the stores, with failures swallowed;
  - the distance-to-confidence rule and the document-name rule;
  - the stable sort by descending confidence, followed by `limit(topK)`;
  - the per-type breakdown;
  - the grouped prompt builder.
- **Answer assembly and status** (`rag_service.dfy`). This is `MultiDocumentRAGService`:
  - the query pipeline with its empty-sources short cut and error path;
  - the overall confidence `mean × min(1, n/4)`;
  - the document count, which as written always comes from the key-prefix fallback (see Findings), and the `FT.INFO` scan for `num_docs` it was evidently meant to run;
  - the per-type status maps and the Redis status;
  - the demo queries.
- **The type table** (`document_type.dfy`). This is the `DocumentType` enum with its index names and key prefixes.
- **Java library behaviour** (`java_strings.dfy`). These are the parts of `java.lang.String` and `Integer` the core relies on:
  - `trim()`, which removes every character `<= ' '`;
  - `lastIndexOf(c, from)`, which includes `from` and searches the whole string when `from` is past the end;
  - `Integer.parseInt`;
  - the decimal rendering of an `int`;
  - ASCII case mapping.
- **Shared helpers** (`common.dfy`). `Option` and `Result` stand for values and raised exceptions.

External services are given as values:

- Each vector store's reply is given data. It is either the list of documents it returns or the message of the exception it raised. The stores are a sequence in `HashMap` iteration order.
- The chat model is a total function from prompt to reply, or to the message of the exception.
- The Redis server is given as data: its `FT.INFO` reply for each index name, one `KEYS` reply, and the outcome of the `hasKey` probe. The lookup `Protocol.Command.valueOf` is modelled by the one rule that decides it here: an enum constant's name is a Java identifier.
- The `HashMap` iteration order in the prompt builder is a parameter `order`. `IsGroupingOrder` states which orders can occur.

**The tail of the split loop.** The loop in `chunkContent` does not stop once a window reaches the end of the text. While `start < length` it keeps emitting ever shorter suffixes. `FifteenCharacterSplit` shows this for a 15-character text with no space, newline, period or character `<= ' '` (such as `"abcdefghijklmno"`), a chunk size of 10 and an overlap of 3. `chunkContent` returns five chunks: `"abcdefghij"`, `"hijklmno"`, `"mno"`, `"no"` and `"o"`. `TrailingSuffixWindows` states this tail in general, and `WindowChunkBounds` states the related `maxChunkSize + 1` chunk length.

## Model

Source paths are relative to the repository root.

| member | source | states |
|---|---|---|
| DocumentTypes.Values | src/main/java/cs544/project/EnhancedRAG/model/DocumentType.java:3-7 | `values()` has four entries |
| DocumentTypes.Name | src/main/java/cs544/project/EnhancedRAG/model/DocumentType.java:4-7 | a constant's `name()` is a non-empty run of upper-case ASCII letters |
| DocumentTypes.IndexName | src/main/java/cs544/project/EnhancedRAG/model/DocumentType.java:4-19 | each index name is `"idx:"` followed by the type tag |
| DocumentTypes.Prefix | src/main/java/cs544/project/EnhancedRAG/model/DocumentType.java:4-23 | each key prefix is `"doc:"`, the type tag, then `":"` |
| DocumentTypes.ValuesAreTheFourVariants | src/main/java/cs544/project/EnhancedRAG/model/DocumentType.java:3-7 | `values()` lists exactly the four variants PDF, MARKDOWN, JSON and TEXT, each once |
| DocumentTypes.LowerName | src/main/java/cs544/project/EnhancedRAG/service/DocumentIngestionService.java:208 | the type tag `type.name().toLowerCase()` is the ASCII lower-casing of the variant name |
| DocumentTypes.IndexNameShape | src/main/java/cs544/project/EnhancedRAG/model/DocumentType.java:4-7 | each index name is `"idx:"` followed by the lower-case variant name |
| DocumentTypes.PrefixShape | src/main/java/cs544/project/EnhancedRAG/model/DocumentType.java:4-7 | each key prefix is `"doc:"`, the lower-case variant name, then `":"` |
| DocumentTypes.NamesDistinct | src/main/java/cs544/project/EnhancedRAG/model/DocumentType.java:4-7 | distinct types have distinct index names, prefixes and type tags |
| DocumentTypes.PrefixesDisjoint | src/main/java/cs544/project/EnhancedRAG/model/DocumentType.java:4-7 | a key that starts with the prefixes of two types belongs to one type: no prefix is a prefix of another type's prefix |
| JavaStrings.TrimStart | src/main/java/cs544/project/EnhancedRAG/service/DocumentIngestionService.java:175 | trim's start index: every character skipped is `<= ' '`, and the first one kept is not |
| JavaStrings.TrailingEnd | src/main/java/cs544/project/EnhancedRAG/service/DocumentIngestionService.java:175 | trim's end index: every character dropped at the end is `<= ' '`, and the last one kept is not |
| JavaStrings.TrimSpec | src/main/java/cs544/project/EnhancedRAG/service/DocumentIngestionService.java:147 | `trim()` gives `""` exactly when every character is `<= ' '`; otherwise the result starts and ends with a character above `' '` |
| JavaStrings.TrimKeepsFullLength | src/main/java/cs544/project/EnhancedRAG/service/DocumentIngestionService.java:175 | a trimmed string as long as its original equals it |
| JavaStrings.TrimIdempotent | src/main/java/cs544/project/EnhancedRAG/service/DocumentIngestionService.java:75 | trimming a chunk again changes nothing (the numbering loop's re-trim of a chunkContent chunk) |
| JavaStrings.Trim | src/main/java/cs544/project/EnhancedRAG/service/DocumentIngestionService.java:175 | `trim()` never lengthens a string |
| JavaStrings.LastIndexOf | src/main/java/cs544/project/EnhancedRAG/service/DocumentIngestionService.java:164-166 | `lastIndexOf(c, from)` is -1 or an index `<= from` holding `c` |
| JavaStrings.LastIndexOfIsLast | src/main/java/cs544/project/EnhancedRAG/service/DocumentIngestionService.java:164-166 | no occurrence of `c` lies after the reported index, up to and including `from` |
| JavaStrings.ParseInt | src/main/java/cs544/project/EnhancedRAG/service/MultiDocumentRAGService.java:134 | `Integer.parseInt` gives a 32-bit value. A run of ASCII digits gives its value when it fits and is rejected when it does not; a `'+'` or `'-'` sign before the digits gives the value or its negation, under the same 32-bit bound. Any other character rejects the string, as do `""`, `"-"` and `"+"` |
| JavaStrings.DigitChar | src/main/java/cs544/project/EnhancedRAG/advisor/CrossReferenceAdvisor.java:79 | a digit below 10 renders as the character of that digit |
| JavaStrings.NatToString | src/main/java/cs544/project/EnhancedRAG/advisor/CrossReferenceAdvisor.java:79 | the decimal rendering of a count is a non-empty run of digits with no leading zero |
| JavaStrings.DigitsValueOfNatToString | src/main/java/cs544/project/EnhancedRAG/advisor/CrossReferenceAdvisor.java:79 | reading a rendered count back as digits gives the count |
| JavaStrings.ParseIntOfNatToString | src/main/java/cs544/project/EnhancedRAG/service/MultiDocumentRAGService.java:134 | `parseInt` of a rendered count up to `INT_MAX` gives the count back |
| JavaStrings.UpperAscii | src/main/java/cs544/project/EnhancedRAG/advisor/CrossReferenceAdvisor.java:76 | `toUpperCase()` keeps the length and maps exactly the letters a–z to A–Z |
| JavaStrings.LowerAscii | src/main/java/cs544/project/EnhancedRAG/advisor/CrossReferenceAdvisor.java:41 | `toLowerCase()` keeps the length and maps exactly the letters A–Z to a–z |
| Chunking.BreakPoint | src/main/java/cs544/project/EnhancedRAG/service/DocumentIngestionService.java:164-169 | the largest of the three `lastIndexOf` results is -1 or an index `<= end` holding a space, newline or period |
| Chunking.BreakPointIsLast | src/main/java/cs544/project/EnhancedRAG/service/DocumentIngestionService.java:164-169 | no space, newline or period lies after the break point, up to and including `end` |
| Chunking.WindowEnd | src/main/java/cs544/project/EnhancedRAG/service/DocumentIngestionService.java:160-173 | a window ends within the text, at most `maxChunkSize + 1` after its start, and after its start when the size is positive |
| Chunking.WindowEndBreak | src/main/java/cs544/project/EnhancedRAG/service/DocumentIngestionService.java:163-173 | soft break: if a break character lies past `start + maxChunkSize/2` and up to the hard end, the window ends just after the last one. Otherwise it ends at the hard end `min(start + maxChunkSize, length)` |
| Chunking.NextStart | src/main/java/cs544/project/EnhancedRAG/service/DocumentIngestionService.java:181 | the next start is above the current start and no earlier than `end - overlap`, and is one of the two |
| Chunking.WindowsFrom | src/main/java/cs544/project/EnhancedRAG/service/DocumentIngestionService.java:158-182 | the loop's windows stay inside the text. There are at most `length - start` of them, none when `start >= length`, and the first starts at `start`. The last one's next start is at or past the end |
| Chunking.Windows | src/main/java/cs544/project/EnhancedRAG/service/DocumentIngestionService.java:158-182 | there are at most `length` windows; text that is not empty has one, and the first starts at 0 |
| Chunking.Piece | src/main/java/cs544/project/EnhancedRAG/service/DocumentIngestionService.java:175-178 | one window contributes at most one chunk |
| Chunking.ChunksFrom | src/main/java/cs544/project/EnhancedRAG/service/DocumentIngestionService.java:158-182 | the loop from `start` emits nothing once `start >= length`, and otherwise at most `length - start` chunks |
| Chunking.WindowsStep | src/main/java/cs544/project/EnhancedRAG/service/DocumentIngestionService.java:181 | consecutive windows follow `start = max(start + 1, end - overlap)` |
| Chunking.WindowsEnd | src/main/java/cs544/project/EnhancedRAG/service/DocumentIngestionService.java:160-173 | every window ends where the end computation puts it for its start |
| Chunking.Chunks | src/main/java/cs544/project/EnhancedRAG/service/DocumentIngestionService.java:147-155 | blank content gives no chunks; non-blank content of length `<= maxChunkSize` gives exactly the untrimmed content |
| Chunking.SplitStep | src/main/java/cs544/project/EnhancedRAG/service/DocumentIngestionService.java:159-182 | one turn of the loop keeps "chunks so far + chunks still to come" equal to the final list |
| Chunking.EmitWindow | src/main/java/cs544/project/EnhancedRAG/service/DocumentIngestionService.java:160-178 | one turn of the loop before `start` moves: the end is WindowEnd, and the window's chunk (if any) is appended |
| Chunking.SplitLoop | src/main/java/cs544/project/EnhancedRAG/service/DocumentIngestionService.java:157-184 | the while loop emits exactly the chunks of the windows from 0 |
| Chunking.FindEnd | src/main/java/cs544/project/EnhancedRAG/service/DocumentIngestionService.java:160-173 | the hard end, the three `lastIndexOf` calls and the midpoint test compute WindowEnd |
| Chunking.ChunkContent | src/main/java/cs544/project/EnhancedRAG/service/DocumentIngestionService.java:144-185 | the while loop returns exactly the chunks of the specification: the trimmed, non-empty texts of its windows, in order |
| Chunking.FifteenCharacterSplit | src/main/java/cs544/project/EnhancedRAG/service/DocumentIngestionService.java:144-185 | with a window of 10 and an overlap of 3, a 15-character text with no break or trimmable character gives five chunks: the texts from 0 to 10, and from 7, 12, 13 and 14 to the end |
| Chunking.ChunksFromWindows | src/main/java/cs544/project/EnhancedRAG/service/DocumentIngestionService.java:175-178 | the loop's chunks are the trimmed texts of its windows, with empty ones dropped |
| Chunking.StartsSpread | src/main/java/cs544/project/EnhancedRAG/service/DocumentIngestionService.java:159-182 | window starts grow by at least one per iteration, so the loop runs at most `length` times whatever the overlap |
| Chunking.WindowsShape | src/main/java/cs544/project/EnhancedRAG/service/DocumentIngestionService.java:158-182 | the first window starts at 0. Starts strictly increase and stay below the length. There are at most `length` windows, each at most `maxChunkSize + 1` long |
| Chunking.WindowsCover | src/main/java/cs544/project/EnhancedRAG/service/DocumentIngestionService.java:158-181 | coverage: each window starts no later than the previous one ends, and the last ends at the length. Consecutive windows share at most `overlap` characters |
| Chunking.EndStaysAtLength | src/main/java/cs544/project/EnhancedRAG/service/DocumentIngestionService.java:160 | once a window reaches the end of the text, every window starting later does too |
| Chunking.TrailingSuffixWindows | src/main/java/cs544/project/EnhancedRAG/service/DocumentIngestionService.java:160-181 | after the first window that reaches the end, every later window ends there and starts within `overlap` of it. Their starts advance by one, and there are at most `overlap` of them |
| Chunking.ChunkComesFromWindow | src/main/java/cs544/project/EnhancedRAG/service/DocumentIngestionService.java:175-178 | every chunk is the non-empty trimmed text of one window |
| Chunking.WindowChunkBounds | src/main/java/cs544/project/EnhancedRAG/service/DocumentIngestionService.java:164-178 | a window's trimmed text is at most `maxChunkSize + 1` long. At that length it ends in `'.'`, found at the hard end by the inclusive `lastIndexOf`. It is never blank unless empty |
| Chunking.ChunkBounds | src/main/java/cs544/project/EnhancedRAG/service/DocumentIngestionService.java:144-185 | every chunk returned is non-blank and at most `maxChunkSize + 1` long, and one of exactly that length ends in `'.'` |
| Ingestion.NumberChunks | src/main/java/cs544/project/EnhancedRAG/service/DocumentIngestionService.java:265-276 | the numbering loop builds the numbered documents of the chunk list |
| Ingestion.NumberedSound | src/main/java/cs544/project/EnhancedRAG/service/DocumentIngestionService.java:73-85 | every document is a non-blank chunk carrying its own index as `chunk_index`, `chunks.size()` as `total_chunks`, its length as `chunk_size` and the base metadata; indices strictly increase |
| Ingestion.NumberedComplete | src/main/java/cs544/project/EnhancedRAG/service/DocumentIngestionService.java:265-276 | every non-blank chunk has a document carrying its index |
| Ingestion.NumberedExact | src/main/java/cs544/project/EnhancedRAG/service/DocumentIngestionService.java:265-276 | when no chunk is blank, document `k` is chunk `k`, numbered `k` |
| Ingestion.ChunkDocumentsExact | src/main/java/cs544/project/EnhancedRAG/service/DocumentIngestionService.java:73-85 | since chunkContent returns no blank chunk, its documents are numbered exactly `0 .. n-1`, one per chunk |
| Ingestion.ResourceDocumentsShape | src/main/java/cs544/project/EnhancedRAG/service/DocumentIngestionService.java:63-93 | each document of a resource carries that resource's metadata and type tag, and is a non-blank chunk of at most `MAX_CHUNK_SIZE + 1` characters |
| Ingestion.PatternForType | src/main/java/cs544/project/EnhancedRAG/service/DocumentIngestionService.java:232-245 | every pattern is a classpath pattern under `documents/` |
| Ingestion.PatternInTypeDirectory | src/main/java/cs544/project/EnhancedRAG/service/DocumentIngestionService.java:232-245 | each type's pattern matches every file, at any depth, under the directory named by its type tag, with the type's own extension |
| Ingestion.PatternsDistinct | src/main/java/cs544/project/EnhancedRAG/service/DocumentIngestionService.java:232-245 | two types never share a resource pattern |
| Ingestion.DocumentsOfResource | src/main/java/cs544/project/EnhancedRAG/service/DocumentIngestionService.java:64-92 | a resource whose extraction raised or whose text is blank contributes nothing; otherwise it contributes its numbered chunks |
| Ingestion.CollectDocuments | src/main/java/cs544/project/EnhancedRAG/service/DocumentIngestionService.java:63-93 | the loop over the resources collects their documents in resource order |
| Ingestion.IngestionService.IngestSingleDocument | src/main/java/cs544/project/EnhancedRAG/service/DocumentIngestionService.java:247-282 | a type with no store fails with "Vector store for type T not found!" and changes nothing. Otherwise the store gains exactly the numbered chunks with the manual-upload metadata, and the other stores are unchanged |
| Ingestion.IngestionService.IngestDocumentsByType | src/main/java/cs544/project/EnhancedRAG/service/DocumentIngestionService.java:51-105 | a type with no store gets the warning and no change. Otherwise the store gains the documents of all resources, in order, and the other stores are unchanged |
| CrossReference.Confidence | src/main/java/cs544/project/EnhancedRAG/advisor/CrossReferenceAdvisor.java:91-102 | a numeric distance gives `max(0, 1 - distance)`, and a missing or non-numeric one gives exactly 0.8. The result is always `>= 0`, and `<= 1` when the distance is `>= 0` |
| CrossReference.AfterLastSlashSpec | src/main/java/cs544/project/EnhancedRAG/advisor/CrossReferenceAdvisor.java:108 | the text after the last `'/'` ends the string and holds no `'/'`. It is either the whole string or preceded by a `'/'` |
| CrossReference.DocumentName | src/main/java/cs544/project/EnhancedRAG/advisor/CrossReferenceAdvisor.java:104-114 | with neither key the name is `"unknown-document"`; without a source the name is the filename entry's text; it fails exactly when the entry it reads (source, else filename) is null |
| CrossReference.DocumentNameFromSource | src/main/java/cs544/project/EnhancedRAG/advisor/CrossReferenceAdvisor.java:106-108 | a present non-null source gives the part after its last `'/'`: it ends the source, holds no `'/'`, and is the whole source or follows a `'/'` |
| CrossReference.ToSource | src/main/java/cs544/project/EnhancedRAG/advisor/CrossReferenceAdvisor.java:40-46 | a result converts exactly when its name can be extracted |
| CrossReference.ToSourceFields | src/main/java/cs544/project/EnhancedRAG/advisor/CrossReferenceAdvisor.java:40-46 | a result converts exactly when its name can be extracted. The source then carries the lower-case type, the text, the confidence and the name |
| CrossReference.StoreSourcesFrom | src/main/java/cs544/project/EnhancedRAG/advisor/CrossReferenceAdvisor.java:39-48 | the first source of a store (from index `i`) is the conversion of result `i` |
| CrossReference.Collected | src/main/java/cs544/project/EnhancedRAG/advisor/CrossReferenceAdvisor.java:27-53 | when every search among the first `n` stores raises, nothing is collected and nothing is thrown |
| CrossReference.AddStoreResults | src/main/java/cs544/project/EnhancedRAG/advisor/CrossReferenceAdvisor.java:39-48 | the loop over one store's results appends exactly that store's sources |
| CrossReference.StoreSourcesPrefix | src/main/java/cs544/project/EnhancedRAG/advisor/CrossReferenceAdvisor.java:39-52 | a store's sources are its results converted one by one, stopping at the first conversion that raises; those appended before it are kept |
| CrossReference.StoreSourcesStop | src/main/java/cs544/project/EnhancedRAG/advisor/CrossReferenceAdvisor.java:39-52 | a store's sources stop exactly at the end of its results or at a result whose conversion raises |
| CrossReference.StoreSourcesAt | src/main/java/cs544/project/EnhancedRAG/advisor/CrossReferenceAdvisor.java:39-48 | the `j`-th source of a store is the conversion of its `j`-th result |
| CrossReference.StoreSourcesShape | src/main/java/cs544/project/EnhancedRAG/advisor/CrossReferenceAdvisor.java:40-46 | every source of a store carries that store's lower-case type and a confidence `>= 0` |
| CrossReference.Insert | src/main/java/cs544/project/EnhancedRAG/advisor/CrossReferenceAdvisor.java:57 | insertion adds one element |
| CrossReference.SortByConfidence | src/main/java/cs544/project/EnhancedRAG/advisor/CrossReferenceAdvisor.java:57 | the sort keeps the number of sources |
| CrossReference.TopByConfidence | src/main/java/cs544/project/EnhancedRAG/advisor/CrossReferenceAdvisor.java:55-59 | `limit(topK)` keeps `min(topK, n)` sources, and they are a prefix of the sorted list |
| CrossReference.InsertPermutes | src/main/java/cs544/project/EnhancedRAG/advisor/CrossReferenceAdvisor.java:57 | inserting into the sorted list adds exactly that element |
| CrossReference.InsertAtMost | src/main/java/cs544/project/EnhancedRAG/advisor/CrossReferenceAdvisor.java:57 | insertion keeps a confidence bound on all elements |
| CrossReference.ConsSorted | src/main/java/cs544/project/EnhancedRAG/advisor/CrossReferenceAdvisor.java:57 | a head at least every element of a sorted tail gives a sorted list |
| CrossReference.InsertSorted | src/main/java/cs544/project/EnhancedRAG/advisor/CrossReferenceAdvisor.java:57 | insertion keeps the list non-increasing in confidence |
| CrossReference.InsertStable | src/main/java/cs544/project/EnhancedRAG/advisor/CrossReferenceAdvisor.java:57 | an inserted element goes before every element of equal confidence |
| CrossReference.SortSorted | src/main/java/cs544/project/EnhancedRAG/advisor/CrossReferenceAdvisor.java:57 | the sort by `compare(b.confidence, a.confidence)` gives a list non-increasing in confidence |
| CrossReference.SortPermutes | src/main/java/cs544/project/EnhancedRAG/advisor/CrossReferenceAdvisor.java:57 | the sort is a permutation: same length, same multiset |
| CrossReference.SortStable | src/main/java/cs544/project/EnhancedRAG/advisor/CrossReferenceAdvisor.java:57 | the sort is stable: the elements of each confidence keep their collection order |
| CrossReference.TopByConfidenceSpec | src/main/java/cs544/project/EnhancedRAG/advisor/CrossReferenceAdvisor.java:55-59 | the result has `min(topK, n)` elements, is non-increasing in confidence, and is a sub-multiset of the collected sources |
| CrossReference.PrefixDominates | src/main/java/cs544/project/EnhancedRAG/advisor/CrossReferenceAdvisor.java:58 | in a sorted list every element of a prefix is at least every element after it |
| CrossReference.TopByConfidenceKeepsBest | src/main/java/cs544/project/EnhancedRAG/advisor/CrossReferenceAdvisor.java:55-59 | every kept source's confidence is `>=` every dropped source's |
| CrossReference.RetrieveFromAllStores | src/main/java/cs544/project/EnhancedRAG/advisor/CrossReferenceAdvisor.java:24-60 | every store is asked in order for `topK / storeCount` results (integer division). A failing store is skipped, and the rest are still asked. The result is the ranked top `topK` of the collected sources |
| CrossReference.Breakdown | src/main/java/cs544/project/EnhancedRAG/advisor/CrossReferenceAdvisor.java:116-122 | every count in the breakdown is at least 1, and the map is empty exactly when there are no sources |
| CrossReference.CalculateSourceBreakdown | src/main/java/cs544/project/EnhancedRAG/advisor/CrossReferenceAdvisor.java:116-122 | the `merge(type, 1, sum)` loop computes the breakdown map |
| CrossReference.BreakdownCounts | src/main/java/cs544/project/EnhancedRAG/advisor/CrossReferenceAdvisor.java:116-122 | the breakdown's keys are exactly the types that occur, and each value is the number of sources of that type |
| CrossReference.AbsentTypeHasNoGroup | src/main/java/cs544/project/EnhancedRAG/advisor/CrossReferenceAdvisor.java:116-122 | a type missing from the breakdown has no sources |
| CrossReference.MapSumWithout | src/main/java/cs544/project/EnhancedRAG/advisor/CrossReferenceAdvisor.java:116-122 | the sum of the breakdown's values may be taken starting from any key |
| CrossReference.BreakdownSum | src/main/java/cs544/project/EnhancedRAG/advisor/CrossReferenceAdvisor.java:116-122 | the breakdown's values sum to the number of sources |
| CrossReference.AppendSection | src/main/java/cs544/project/EnhancedRAG/advisor/CrossReferenceAdvisor.java:72-83 | one map entry appends the type's heading, then its sources numbered from 1 in input order |
| CrossReference.AppendSections | src/main/java/cs544/project/EnhancedRAG/advisor/CrossReferenceAdvisor.java:72-83 | the loop over the grouping map appends one section per key, in iteration order |
| CrossReference.BuildEnhancedPrompt | src/main/java/cs544/project/EnhancedRAG/advisor/CrossReferenceAdvisor.java:62-89 | the StringBuilder produces the header with the query, the sections, then the two closing sentences |
| CrossReference.SourceEntry | src/main/java/cs544/project/EnhancedRAG/advisor/CrossReferenceAdvisor.java:79-81 | an entry starts with `"Source "` and ends with a blank line |
| CrossReference.SectionText | src/main/java/cs544/project/EnhancedRAG/advisor/CrossReferenceAdvisor.java:76-82 | a section starts with the heading of its type |
| CrossReference.PromptText | src/main/java/cs544/project/EnhancedRAG/advisor/CrossReferenceAdvisor.java:62-89 | the prompt is at least as long as its head and the two closing sentences |
| CrossReference.PromptFrame | src/main/java/cs544/project/EnhancedRAG/advisor/CrossReferenceAdvisor.java:63-86 | the prompt starts with the fixed header, the query, a blank line and the context line, and ends with the two closing sentences |
| CrossReference.HavingSplit | src/main/java/cs544/project/EnhancedRAG/advisor/CrossReferenceAdvisor.java:69-70 | adding a type to a filter adds exactly the group of that type |
| CrossReference.OrderTypesHas | src/main/java/cs544/project/EnhancedRAG/advisor/CrossReferenceAdvisor.java:72 | each key visited so far is in the set of visited keys |
| CrossReference.OrderTypesLacks | src/main/java/cs544/project/EnhancedRAG/advisor/CrossReferenceAdvisor.java:72 | a key not visited so far is not in that set |
| CrossReference.GroupedIsHaving | src/main/java/cs544/project/EnhancedRAG/advisor/CrossReferenceAdvisor.java:69-83 | the sections of the keys visited so far hold exactly the sources of those types |
| CrossReference.HavingNone | src/main/java/cs544/project/EnhancedRAG/advisor/CrossReferenceAdvisor.java:69-70 | filtering by no type keeps nothing |
| CrossReference.HavingAll | src/main/java/cs544/project/EnhancedRAG/advisor/CrossReferenceAdvisor.java:69-70 | filtering by a set holding every source's type keeps all sources, in order |
| CrossReference.SectionsPartitionSources | src/main/java/cs544/project/EnhancedRAG/advisor/CrossReferenceAdvisor.java:69-83 | over the grouping map's keys, the sections list every source exactly once (same multiset), and each in the section of its own type |
| CrossReference.GroupTyped | src/main/java/cs544/project/EnhancedRAG/advisor/CrossReferenceAdvisor.java:69-70 | every source in the group of a type has that type |
| RagService.TotalConfidence | src/main/java/cs544/project/EnhancedRAG/service/MultiDocumentRAGService.java:158-161 | no sources give 0.0 |
| RagService.SumConfidenceBounds | src/main/java/cs544/project/EnhancedRAG/service/MultiDocumentRAGService.java:163-166 | the sum of confidences lies between `n × lowest` and `n × highest` |
| RagService.MeanConfidenceBounds | src/main/java/cs544/project/EnhancedRAG/service/MultiDocumentRAGService.java:163-166 | with confidences in [0, 1] the mean lies in [0, 1] |
| RagService.SumConfidenceNonNegative | src/main/java/cs544/project/EnhancedRAG/service/MultiDocumentRAGService.java:163-166 | non-negative confidences have a non-negative sum |
| RagService.TotalConfidenceBounds | src/main/java/cs544/project/EnhancedRAG/service/MultiDocumentRAGService.java:158-172 | with non-negative confidences the total lies between 0 and the mean, and equals the mean from four sources on |
| RagService.FewSourcesPenalty | src/main/java/cs544/project/EnhancedRAG/service/MultiDocumentRAGService.java:169-171 | with one to four sources the factor is `n/4`, so the total is the sum divided by four |
| RagService.QueryMultipleStores | src/main/java/cs544/project/EnhancedRAG/service/MultiDocumentRAGService.java:40-81 | no sources: the canned answer, with empty sources and breakdown, 0.0, and no chat call. A chat failure gives the error prefix plus the message, with empty fields. Otherwise the response holds the answer, exactly the advisor's sources, their breakdown and their total confidence |
| RagService.AnsweredPromptGroupsSources | src/main/java/cs544/project/EnhancedRAG/service/MultiDocumentRAGService.java:45-57 | when the grouping map iterates exactly the ranked sources' types, the prompt is sent exactly when there are sources, it is the grouped prompt, and it lists every source once, under its own type |
| RagService.AnsweredResponseShape | src/main/java/cs544/project/EnhancedRAG/service/MultiDocumentRAGService.java:57-70 | an answered response holds at most `topK` sources ranked by confidence. Its breakdown keys are their types, and the counts sum to their number. Its confidence is their sum divided by four |
| RagService.DemoQueries | src/main/java/cs544/project/EnhancedRAG/service/MultiDocumentRAGService.java:174-180 | there are exactly three demo queries |
| RagService.ProcessDemoQuery | src/main/java/cs544/project/EnhancedRAG/service/MultiDocumentRAGService.java:182-189 | an index outside [0, 3) fails with "Invalid query index" and sends no prompt; otherwise the response and the prompt sent are those of answering the demo query at that index |
| RagService.NumDocsFrom | src/main/java/cs544/project/EnhancedRAG/service/MultiDocumentRAGService.java:132-133 | a reported index is below `size - 1` and holds `"num_docs"` |
| RagService.NumDocsFromIsFirst | src/main/java/cs544/project/EnhancedRAG/service/MultiDocumentRAGService.java:132-136 | no `"num_docs"` lies before the reported index, or anywhere below `size - 1` if none is reported |
| RagService.FindNumDocs | src/main/java/cs544/project/EnhancedRAG/service/MultiDocumentRAGService.java:132-136 | the index loop finds the first `"num_docs"` below `size - 1` |
| RagService.InfoFor | src/main/java/cs544/project/EnhancedRAG/service/MultiDocumentRAGService.java:123-126 | the `FT.INFO` reply for the type's index; an index the server does not know raises |
| RagService.KeyCount | src/main/java/cs544/project/EnhancedRAG/service/MultiDocumentRAGService.java:144-148 | the fallback count is an `int` (`Set.size()` caps at `Integer.MAX_VALUE`), 0 when `KEYS` returns null or raises, and otherwise the number of keys under the type's prefix |
| RagService.CommandValueOf | src/main/java/cs544/project/EnhancedRAG/service/MultiDocumentRAGService.java:124 | a successful lookup returns the enum constant of that name |
| RagService.DottedNameIsNoCommand | src/main/java/cs544/project/EnhancedRAG/service/MultiDocumentRAGService.java:124 | a name with a `'.'` in it, such as `"FT.INFO"`, is no enum constant: the lookup raises |
| RagService.EstimatedCount | src/main/java/cs544/project/EnhancedRAG/service/MultiDocumentRAGService.java:120-156 | the count as written is a 32-bit value |
| RagService.EstimatedCountIsKeyCount | src/main/java/cs544/project/EnhancedRAG/service/MultiDocumentRAGService.java:120-156 | whatever `FT.INFO` would answer, the count as written is the key count: in [0, `Integer.MAX_VALUE`], and 0 when `KEYS` returns null or raises |
| RagService.InfoReplyNeverRead | src/main/java/cs544/project/EnhancedRAG/service/MultiDocumentRAGService.java:123-136 | an index whose `FT.INFO` reply reports 5 documents, with no keys, counts 0 as written and 5 as intended |
| RagService.IntendedEstimatedCount | src/main/java/cs544/project/EnhancedRAG/service/MultiDocumentRAGService.java:128-153 | with `FT.INFO` sent, the count is a 32-bit value, negative only when parsed from an `FT.INFO` list |
| RagService.CountFromInfo | src/main/java/cs544/project/EnhancedRAG/service/MultiDocumentRAGService.java:128-153 | with `FT.INFO` sent: the value after the first `num_docs`, or 0 for a non-list reply or a reply without `num_docs`. A raising `FT.INFO` or an unparsable value falls back to the key count |
| RagService.GetEstimatedDocumentCount | src/main/java/cs544/project/EnhancedRAG/service/MultiDocumentRAGService.java:120-156 | the method, with the command lookup before `FT.INFO`, computes the count as written |
| RagService.NumDocsRoundTrip | src/main/java/cs544/project/EnhancedRAG/service/MultiDocumentRAGService.java:128-137 | with `FT.INFO` sent, a reply listing `num_docs` followed by the rendering of a count gives back that count |
| RagService.KeyCountsDisjoint | src/main/java/cs544/project/EnhancedRAG/service/MultiDocumentRAGService.java:144-148 | the fallback counts at most all keys, and two types never count the same key |
| RagService.RedisStatus | src/main/java/cs544/project/EnhancedRAG/service/MultiDocumentRAGService.java:111-118 | the status is `"Connected"` exactly when the probe succeeds; a probe that raised gives `"Disconnected: "` followed by its message |
| RagService.CheckStore | src/main/java/cs544/project/EnhancedRAG/service/MultiDocumentRAGService.java:88-103 | a type with a store is healthy and has its estimated count; one without is unhealthy with count 0 |
| RagService.GetStoreStatus | src/main/java/cs544/project/EnhancedRAG/service/MultiDocumentRAGService.java:83-109 | both maps have an entry for every type. Health is true exactly for types with a store, whose count is the estimate; the others count 0. The Redis status is the probe's |

## Left out

- PDF text extraction (PDFBox) and JSON flattening (Jackson) are foreign libraries. A resource's extracted text, or the exception its extraction raised, is given.
- Classpath scanning, `ingestAllDocuments` and `getDocumentCount` are I/O; the resources a pattern resolves to are given. An IOException from `getResources` is not modelled.
- `vectorStore.add` and `similaritySearch` are not modelled as calls. A store is the sequence of documents added to it, and a search is its given reply.
- The chat model is a total function given as a parameter, and its answer is opaque.
- Redis (`FT.INFO`, `KEYS`, `hasKey`) is given replies. An `FT.INFO` item is modelled as its `String.valueOf` rendering. Glob matching of `prefix*` is modelled as "starts with the prefix"; the prefixes hold no glob characters.
- Timestamps (`ingestion_timestamp`), logging, `System.err` output and `metadata.toString()` are left out or given as opaque strings.
- Confidences are `real`; IEEE `double` rounding, NaN and `-0.0` in `Double.compare` are not modelled.
- Case mapping covers ASCII only. That is exact for the four type names and approximate for arbitrary type strings in the prompt heading.
- Null strings are not modelled. A null content would raise in `ingestSingleDocument` at `content.length()` before chunking. A null metadata value is modelled (`MetaValue.Null`) and raises in `extractDocumentName`.
- The `HashMap` iteration orders (of the stores and of the prompt's grouping map) are given sequences.
- The default branch of `getPatternForType` is unreachable for the four variants and has no counterpart.
- Ingestion.PatternForType: its own contract states only the `classpath:documents/` prefix. The full pattern for each type is stated by the lemma Ingestion.PatternInTypeDirectory.
- The catch block of `getStoreStatus` is unreachable in the model, because `getEstimatedDocumentCount` catches every exception itself. The status report uses the count as written (RagService.EstimatedCount).
- Text is limited to the Basic Multilingual Plane. A Java `String` is a sequence of UTF-16 code units, and a `string` here is a sequence of Unicode scalar values. The two agree only when there are no surrogate pairs, so lengths and indices of text outside the plane are not modelled.
- ParseInt: reads ASCII digits only. `Integer.parseInt` also accepts the decimal digits of other scripts (via `Character.digit`), which the model rejects.
- Integer wrap-around in the split loop is not modelled. `start + MAX_CHUNK_SIZE` (DocumentIngestionService.java:160) would overflow only for text longer than `Integer.MAX_VALUE - 6000` characters.
- RagService.Redis: the `KEYS` reply is one value shared by all four types; the model does not let it change between the calls for different types.
- RagService.CommandValueOf: knows only that the name of an enum constant is a Java identifier (ASCII letters, digits, `_`, `$`). It accepts every such name, while Jedis's `Protocol.Command` has a fixed list; only `"FT.INFO"` is ever looked up, and it is rejected either way.
- The HTTP controller, Spring configuration and startup hooks are wiring, not logic.
- Chunking.FindEnd: the first half of the loop body is a separate method, so that the loop's proof stays small. It computes exactly what the inline code computes. The same holds for Chunking.EmitWindow, Chunking.SplitLoop and CrossReference.AddStoreResults, which are parts of one Java method each.
- CrossReference.BuildEnhancedPrompt: the result is stated for any section order. That every source appears exactly once in a section of its own type is proved only for orders satisfying `IsGroupingOrder` (SectionsPartitionSources, and AnsweredPromptGroupsSources for the prompt of the query pipeline). Numbering from 1 within each section is stated by the definition of `EntriesText`, not by a separate lemma.
- RagService.TotalConfidence: the function states only the empty case itself. Its bounds are the lemmas TotalConfidenceBounds, MeanConfidenceBounds and FewSourcesPenalty.

## Findings

| source | as written | input that shows it | evidently intended | confidence | as-written member | corrected member |
|---|---|---|---|---|---|---|
| src/main/java/cs544/project/EnhancedRAG/service/MultiDocumentRAGService.java:123-126 | `Protocol.Command.valueOf("FT.INFO")` runs before the command is sent. An enum constant's name cannot contain `'.'`, so it always raises `IllegalArgumentException`, and the catch at line 142 always counts keys instead | any type whose index's `FT.INFO` reply is `["num_docs", "5"]`, with `KEYS` returning null: the count is 0 | send `FT.INFO` and read the value after `num_docs` (5 here) | not executed | RagService.EstimatedCount, RagService.InfoReplyNeverRead | RagService.IntendedEstimatedCount, RagService.NumDocsRoundTrip |
