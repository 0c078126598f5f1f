# Refrigerator troubleshooting assistant: verified model of the retrieval core

This project is a Dafny model of the deterministic core of a refrigerator
and appliance troubleshooting assistant. The assistant answers questions
from appliance manuals through a retrieval-augmented pipeline:

- **Ingestion.** PDF manuals in cloud storage are extracted with Docling
  or PyMuPDF, chosen by file size. The text is cut into chunks by a
  sentence splitter, embedded with OpenAI, and uploaded to a Qdrant
  collection in batches.
- **Retrieval.** A query is embedded and searched with optional
  brand, appliance-type and model filters. The hits are formatted and
  joined into a numbered context.
- **Agent tools** (`tools.py`):
  - a detector that finds which appliance type a model number belongs to;
  - an accuracy scorer that weighs similarity, model match and brand match;
  - the manual search tool, which over-fetches, filters by a similarity
    threshold with a fallback, and scores what it keeps;
  - a policy-driven safety check;
  - a service-ticket builder.
- **Evaluation scripts** that turn the search tool's answers into
  per-context accuracy reports and a summary.

Each source component is a Dafny module:

| module | file | models |
|---|---|---|
| `Values`, `Text`, `Numeric`, `Seqs` | values.dfy, text.dfy, numeric.dfy, seqs.dfy | dictionaries, Python string operations, rounding, list comprehensions and batching |
| `VectorStore` | vector_store.dfy | `QdrantStore` over a client object that records the calls it receives |
| `Embedding` | embedding.dfy | `OpenAIEmbedder`, with the service's replies as a parameter |
| `Chunking` | chunking.dfy | `LlamaIndexChunker`, with the splitter as a parameter |
| `DocumentProcessing` | document_processor.dfy | `DocumentProcessor`, whose lazily created converters are fields |
| `Retriever` | retriever.dfy | `RAGRetriever` and `search_manuals_rag` |
| `Detector`, `Scoring`, `ManualSearch`, `Safety`, `Ticket` | detector.dfy, scoring.dfy, search.dfy, safety.dfy, ticket.dfy | the agent tools |
| `Ingestion`, `AccuracyReports`, `ContextTests` | ingest.dfy, reports.dfy, context_tests.dfy | the scripts |

Modelling choices:

- Classes whose methods update fields in place are Dafny classes: the
  Qdrant client, the store, the embedder, the chunker, the processor and
  the chunker's metadata dictionaries.
- Loops in the source are `while` or `for` loops here. Each one is proved
  against a specification function.
- Pure logic is written as functions, with lemmas about them.
- Floats are exact reals.
- Foreign services are parameters or oracle values:
  - OpenAI replies;
  - Qdrant search hits;
  - Docling and PyMuPDF output;
  - the sentence splitter;
  - storage listings;
  - hash functions;
  - clocks and random identifiers.

Quirks of the code kept as written:

- The accuracy level is taken from the unrounded accuracy, while the
  reports interpret the rounded one.
- No embedding-dimension check exists anywhere.
- The file hash is stored but never compared.
- Ingestion writes the metadata keys `brand`, `model` and `product_type`.
  The retriever and the scorer read `model_number` and `appliance_type`.

## Model

| member | source | states |
|---|---|---|
| VectorStore.QdrantStore.constructor | rag_pipeline/vector_store.py:27-52 | URL, key and collection name come from the argument if it is truthy, else the environment, else the default |
| VectorStore.QdrantStore.Create | rag_pipeline/vector_store.py:54-81 | an existing collection is dropped and recreated only when forced. A missing one is created with cosine distance and the configured dimension. An existing one that is not forced is left alone |
| VectorStore.QdrantStore.AddDocuments | rag_pipeline/vector_store.py:83-130 | returns the number of documents. The upsert calls are the points cut into batches of `batch_size`, in order |
| VectorStore.PayloadOf | rag_pipeline/vector_store.py:104-112 | the payload is the document's metadata plus `text`. A metadata `text` key wins over the chunk text |
| VectorStore.PointFor | rag_pipeline/vector_store.py:102-113 | the point id is the document's id or a fresh uuid, and the vector is the embedding |
| VectorStore.UploadCoversAllPoints | rag_pipeline/vector_store.py:115-128 | the batches concatenate back to all points. There are ceil(n/batch) of them and none is larger than the batch size |
| VectorStore.QdrantStore.BuildFilter | rag_pipeline/vector_store.py:150-161 | no filter exactly when there are no filters or the filters are empty. Otherwise there is one match condition per filter entry |
| VectorStore.QdrantStore.Search | rag_pipeline/vector_store.py:132-184 | the request carries the collection, the vector, `top_k` and the filter. Each hit is formatted in order |
| VectorStore.FormatHit | rag_pipeline/vector_store.py:172-182 | a hit keeps id and score, its text is payload `text` or "", and its metadata is the payload without `text` |
| VectorStore.MetadataTextOverridesChunkText | rag_pipeline/vector_store.py:104-112 | a metadata `text` value replaces the chunk text when the point is read back |
| VectorStore.QdrantStore.DeleteCollection | rag_pipeline/vector_store.py:186-189 | the collection is dropped and one drop call is recorded |
| VectorStore.QdrantStore.GetCollectionInfo | rag_pipeline/vector_store.py:191-208 | reports the name, the server's counts and status, the configured dimension and "cosine" |
| VectorStore.QdrantClient.Delete | rag_pipeline/vector_store.py:65-67 | the client forgets the collection and records the call |
| VectorStore.QdrantClient.Create | rag_pipeline/vector_store.py:70-78 | the client stores the collection's parameters and records the call |
| VectorStore.QdrantClient.UpsertPoints | rag_pipeline/vector_store.py:124-127 | the upsert is recorded and the collections are unchanged |
| Values.ArgOrEnv | rag_pipeline/vector_store.py:43-45 | an argument that is truthy wins. Otherwise the environment variable is used if set, and the default if not |
| Chunking.LlamaIndexChunker.constructor | rag_pipeline/chunking.py:16-38 | the chunker keeps the size, overlap and separator its splitter is configured with |
| Text.JoinSplitOn | scripts/ingest_manuals.py:73 | splitting on a character and joining with it gives back the string |
| Text.LastSegmentAfter | rag_pipeline/document_processor.py:119 | `split("/")[-1]` is the text after the last "/" |
| Ingestion.Outcomes | scripts/ingest_manuals.py:64-93 | one outcome per URI: the manual when processing gave a document, `None` when it raised |
| Retriever.WantedFilters | rag_pipeline/retriever.py:117-128 | a filter key is present exactly when its argument is truthy, and it holds that value |
| Retriever.BuildFilters | rag_pipeline/retriever.py:117-130 | no filters exactly when brand, type and model are all falsy |
| Retriever.RAGRetriever.Retrieve | rag_pipeline/retriever.py:30-72 | results are the formatted hits with score at least `min_score`, and none of those is dropped. The context is built from the results and the total is their count |
| Retriever.RAGRetriever.RetrieveWithMetadata | rag_pipeline/retriever.py:100-135 | the filters come from brand, type and model, with threshold 0 |
| Retriever.BuildContext | rag_pipeline/retriever.py:74-98 | the loop builds exactly the numbered context |
| Retriever.ContextIsSentinelIffEmpty | rag_pipeline/retriever.py:83-84 | the "no relevant information" text is returned exactly when there are no results |
| Retriever.ContextHoldsEveryText | rag_pipeline/retriever.py:86-98 | every result's text occurs in the context |
| Retriever.SearchManualsRag | rag_pipeline/retriever.py:137-173 | status "success". `found_information` holds exactly when the result count is positive. The filters come from brand and product type only |
| Retriever.DefaultAgentFilters | rag_pipeline/retriever.py:137-142 | the defaults filter on Samsung refrigerators |
| Retriever.NothingDroppedAboveThreshold | rag_pipeline/retriever.py:60-62 | filtering at a threshold every hit meets keeps all hits |
| Embedding.EmbeddingDim | rag_pipeline/embedding.py:39-42 | the dimension is 1536 exactly when the model name contains "small", else 3072 |
| Embedding.OpenAIEmbedder.constructor | rag_pipeline/embedding.py:20-42 | key and model come from the argument or the environment, and the dimension follows the model |
| Embedding.BatchOutput | rag_pipeline/embedding.py:80-98 | a failed batch contributes one `None` per text. A successful one contributes its vectors in order |
| Embedding.OpenAIEmbedder.EmbedTexts | rag_pipeline/embedding.py:61-101 | the loop over batches yields exactly the batched embeddings |
| Embedding.EmbeddedAligned | rag_pipeline/embedding.py:75-101 | with one reply per batch, there is one entry per text. Entry j is the j mod size-th vector of reply j div size, or `None` when that batch failed |
| Embedding.OpenAIEmbedder.EmbedNodes | rag_pipeline/embedding.py:103-130 | documents are the nodes whose embedding succeeded, with the node's id, text and metadata |
| Embedding.Keep | rag_pipeline/embedding.py:117-128 | the loop keeps exactly those documents |
| Embedding.KeptDocsExactly | rag_pipeline/embedding.py:117-128 | every kept document comes from a node with an embedding, and every such node is kept |
| Embedding.KeptDocsCount | rag_pipeline/embedding.py:117-128 | the number kept is the number of successful embeddings |
| Embedding.OpenAIEmbedder.GetEmbeddingStats | rag_pipeline/embedding.py:132-150 | total, valid plus failed equals total, valid counts the present vectors, and the dimension is that of the first valid one (0 if none) |
| Embedding.FirstPresentIsFirstValid | rag_pipeline/embedding.py:140-145 | the first present vector is the head of the valid list |
| Chunking.WithSource | rag_pipeline/chunking.py:85-89 | `source` becomes the GCS URI, else the file path, else it is unchanged |
| Chunking.LlamaIndexChunker.ChunkDocuments | rag_pipeline/chunking.py:66-97 | each document's own metadata dictionary gets its source, and the result is every document's chunks concatenated in order |
| Chunking.ChunkLists | rag_pipeline/chunking.py:80-95 | document i's chunks are the splitter applied to its text and updated metadata |
| Chunking.ChunkCameFromADocument | rag_pipeline/chunking.py:80-97 | a node is in the result exactly when the splitter produced it for some document |
| Chunking.LlamaIndexChunker.GetChunkStats | rag_pipeline/chunking.py:99-117 | counts the chunks and is all zero when there are none. Otherwise min is at most avg, which is at most max, and the total is the sum of the lengths |
| Chunking.StatsBoundEveryChunk | rag_pipeline/chunking.py:108-116 | every chunk length lies between the reported minimum and maximum |
| Chunking.ChunkInputWith | rag_pipeline/chunking.py:120-152 | a string is split, a document list is chunked, and anything else is an error with the source's message |
| DocumentProcessing.DocumentProcessor.constructor | rag_pipeline/document_processor.py:25-41 | both converters start unloaded, and the threshold in bytes is the MB value times 1024*1024 |
| DocumentProcessing.DocumentProcessor.GetDoclingConverter | rag_pipeline/document_processor.py:43-48 | creates the converter on first use only and returns the same one afterwards |
| DocumentProcessing.DocumentProcessor.GetPyMuPDFReader | rag_pipeline/document_processor.py:50-55 | creates the reader on first use only and returns the same one afterwards |
| DocumentProcessing.DocumentProcessor.GetFileHash | rag_pipeline/document_processor.py:77-99 | succeeds exactly for md5 and sha256 with that digest. Any other name raises "Unsupported algorithm: X" |
| DocumentProcessing.ProcessorTagFollowsSize | rag_pipeline/document_processor.py:57-74 | the processor tag is "docling" exactly below the threshold, so a file exactly at the threshold goes to PyMuPDF |
| DocumentProcessing.DocumentProcessor.ProcessLocalDocument | rag_pipeline/document_processor.py:131-154 | routes by size and loads only the converter of the route taken |
| DocumentProcessing.FileMetadata | rag_pipeline/document_processor.py:172-180 | both routes record page count, source, file name, size, hash and processor |
| DocumentProcessing.PyMuPDFJoinsPages | rag_pipeline/document_processor.py:186-219 | PyMuPDF text is the pages joined by blank lines and contains every page, the page count is the number of pages, and the hash is stored |
| DocumentProcessing.DocumentProcessor.ProcessGcsDocument | rag_pipeline/document_processor.py:101-129 | downloads to the cache under the URI's last segment, processes that file and records the URI |
| DocumentProcessing.CachedUnderLastSegment | rag_pipeline/document_processor.py:119-120 | the recorded file name is the URI's last "/" segment |
| DocumentProcessing.GcsLocation | rag_pipeline/document_processor.py:275-277 | the bucket has no "/". Bucket, "/" and blob give back the URI without "gs://", and the blob is "" when there is no "/" |
| DocumentProcessing.DocumentProcessor.BatchProcessDocuments | rag_pipeline/document_processor.py:221-260 | one entry per URI, in order. A failure gives the URI with its error and no text |
| DocumentProcessing.Summary | rag_pipeline/document_processor.py:253-258 | success counts entries with non-empty text, and success plus failed is the total |
| DocumentProcessing.FailuresNotCounted | rag_pipeline/document_processor.py:245-257 | an entry is a success exactly when the file was fetched and its extracted text is non-empty |
| Detector.Detect | tools.py:31-108 | a failed search returns `None` with no request. Otherwise the search asks for 10 results filtered by brand only, and the answer is the two-pass scan of the hits |
| Detector.ScanResults | tools.py:55-105 | the scan returns what the two passes decide |
| Detector.ScanFirstPass | tools.py:59-81 | stops at the first result that is an exact match, or has score > 0.5 and agrees on the first min-length characters with min length ≥ 6 |
| Detector.ScanSecondPass | tools.py:83-103 | accepts the first result with score > 0.4 whose common prefix is at least 80% of the shorter length |
| Detector.MatchingChars | tools.py:92-98 | the counting loop stops at the first mismatch |
| Detector.PrefixMatch | tools.py:92-98 | the count is the length of the common prefix |
| Detector.FirstStop | tools.py:59-81 | the first result that stops the first pass, and no earlier one does |
| Detector.SecondMatch | tools.py:83-103 | the first result the second pass accepts, and no earlier one is accepted |
| Detector.CleanShape | tools.py:57 | the cleaned model is upper case, has no `*` and no surrounding whitespace |
| Detector.DetectedTypeComesFromMatchingResult | tools.py:59-103 | a detected type is the type of some result whose model matches |
| Detector.DetectedTypeIsLowerCase | tools.py:69 | the detected type holds no upper-case letter |
| Detector.ExactMatchAtFrontWins | tools.py:67-69 | an exact match in the first result decides |
| Detector.NonStringModelFailsOpen | tools.py:106-108 | a result whose model cannot be upper-cased makes the detector answer `None` |
| Detector.CleanKeepsInnerSpace | tools.py:57 | only the ends are stripped: " rs 28* " becomes "RS 28" |
| Scoring.AccuracyOf | tools.py:111-244 | no results gives 0 and "No Information". A wrong appliance type gives 0, "Wrong Appliance Type" and the mismatch fields. Model and brand match take the values allowed |
| Scoring.CalculateAccuracyScore | tools.py:111-244 | the scorer's checks and scans compute exactly that score |
| Scoring.WrongTypeExactlyOnMismatch | tools.py:136-153 | level "Wrong Appliance Type" exactly when there are results and the detector names a type other than the lower-cased claimed one |
| Scoring.TopScores | tools.py:156-157 | only the first min(3, n) scores count |
| Scoring.AccuracyInRange | tools.py:156-157 | with scores in [0,1], accuracy and similarity lie in [0,100] |
| Scoring.ThreeStrongResultsScoreVeryHigh | tools.py:156-244 | scores .92/.88/.85 with matching model and brand give similarity 88.3, accuracy 93.6 and "Very High" |
| Scoring.Grade | tools.py:163-179 | a result's model grade is 0, 50, 80 or 100 |
| Scoring.FirstDecisive | tools.py:168-175 | the first grade of at least 80 stops the scan, and none before it does |
| Scoring.ScanModelMatch | tools.py:160-179 | the scan computes the model match |
| Scoring.ModelMatchValues | tools.py:160-179 | model_match is one of 0, 50, 80, 100 |
| Scoring.OutcomeAppendNeverLowers | tools.py:176-179 | a later result never lowers a match already found: 50 does not stop the scan, but nothing overwrites a match with less |
| Scoring.StarOnlyModelMatchesAnyResult | tools.py:161-168 | a model made only of `*` cleans to "", which every non-empty result model contains, so it scores 100 |
| Scoring.NoModelNumberNoModelMatch | tools.py:165-167 | results without model numbers are skipped, giving 0 |
| Scoring.BrandMatchOf | tools.py:182-213 | brand_match is 0, 80 or 100 |
| Scoring.ScanUserBrand | tools.py:184-195 | the scan finds a brand hit exactly when one exists |
| Scoring.ScanInferredBrand | tools.py:198-213 | the scan finds an inferred brand exactly when some result's brand is inferred by substring of the model |
| Scoring.ScanBrandMatch | tools.py:182-213 | the scans compute the brand match |
| Scoring.LevelOf | tools.py:225-234 | "Very High" exactly from 90 and "Very Low" exactly below 40 |
| Scoring.LevelUsesUnroundedAccuracy | tools.py:225-240 | 89.96 is reported as 90.0 with level "High" |
| ManualSearch.FallbackThreshold | tools.py:298 | the fallback threshold is the larger of 0.5 and min − 0.15 |
| ManualSearch.Select | tools.py:286-304 | at most `top_k` results, all taken from the search results |
| ManualSearch.FallbackSelection | tools.py:296-321 | when no hit clears the requested threshold, the result is the first `top_k` hits clearing max(0.5, min − 0.15), in order, and `filtered_count` is their number. When none clears that either, it is the first `top_k` hits and the count is 0 |
| ManualSearch.ThresholdRespectedWhenMet | tools.py:286-295 | if any hit meets the threshold, the result is the first `top_k` hits that meet it, and the filtered count is their number |
| ManualSearch.NeverEmptyWithHits | tools.py:296-304 | with hits and `top_k` > 0 the result is never empty |
| ManualSearch.FilteredCountZeroIffNothingClears | tools.py:286-321 | `filtered_count` is 0 exactly when no hit clears the requested threshold nor the lowered one, even though the answer may then hold unfiltered hits |
| ManualSearch.FallbackFromNinetyFive | tools.py:296-304 | at 0.95 with no hit above it, the fallback keeps only hits of at least 0.8 |
| ManualSearch.SearchSamsungManualsRag | tools.py:247-334 | fetches 3×`top_k` with the brand and type filters, selects, rebuilds the context if anything is kept, and scores the kept results |
| Safety.CheckSafety | tools.py:337-385 | the loops compute exactly the report |
| Safety.CollectWarnings | tools.py:362-369 | the loop keeps the firing warnings in policy order |
| Safety.NoBlockedIffNoneFires | tools.py:353-359 | nothing is blocked exactly when no blocked rule's keyword occurs in the plan |
| Safety.SafeIffNothingBlocked | tools.py:378-384 | `safety_ok` exactly when no blocked rule fires, with the matching recommendation |
| Safety.BlockedAreFiringRules | tools.py:353-359 | every firing rule is reported, and every report comes from a firing rule |
| Safety.CaseInsensitive | tools.py:349 | an upper-cased plan gets the same report |
| Safety.UnplugReminderLast | tools.py:362-376 | policy warnings come first, and the unplug reminder follows exactly when power is mentioned |
| Safety.EmptyPolicyNeverBlocks | tools.py:337-385 | without a policy nothing is blocked, and only the reminder can appear |
| Ticket.TicketId | tools.py:403 | the id starts with "TCK-" and has the expected length |
| Ticket.CreateServiceTicket | tools.py:388-448 | the loop gathers every issue's lists and builds the ticket |
| Ticket.GatheredIffListed | tools.py:409-412 | a value is gathered exactly when some issue lists it |
| Ticket.TicketGathersEveryIssue | tools.py:426-428 | the ticket's symptoms, codes and steps are exactly those of the issues |
| Ticket.HighPriorityIffErrorCode | tools.py:429 | priority is "high" exactly when some issue has an error code, and "medium" otherwise |
| Ticket.TicketAlwaysCreated | tools.py:418-447 | the ticket is always open with every issue counted. Its model is "Unknown" when none is given. The message names where it was saved or why not |
| Ticket.SummaryMentionsEveryIssue | tools.py:415-416 | every summary occurs in the combined summary |
| Ingestion.ManualMetadata | scripts/ingest_manuals.py:72-82 | source is the URI. Brand, model and type come from the "_" pieces, with "Unknown" and "appliance" as defaults |
| Ingestion.NamedPartsReadBack | scripts/ingest_manuals.py:73-81 | a name `brand_model_type` reads back as that brand, that model and the lower-cased type |
| Ingestion.UnseparatedNameDefaults | scripts/ingest_manuals.py:79-81 | a name without "_" gives the whole name as brand, model "Unknown" and type "appliance" |
| Ingestion.UriFilename | scripts/ingest_manuals.py:72 | the file name is the last segment with ".pdf" removed |
| Ingestion.DocFor | scripts/ingest_manuals.py:75-88 | the kept manual carries its URI as `gcs_uri` and as `source` |
| Ingestion.ExtractManuals | scripts/ingest_manuals.py:62-95 | the loop keeps exactly the successfully processed manuals, in order |
| Ingestion.KeptExactlyTheFetched | scripts/ingest_manuals.py:64-93 | a manual is kept exactly for each URI whose processing succeeded |
| Ingestion.AllFetchedKeepsOrder | scripts/ingest_manuals.py:64-93 | when nothing fails, every URI gives one manual, in order |
| Ingestion.CollectPdfUris | scripts/ingest_manuals.py:190-192 | the loop keeps the `.pdf` objects as `gs://bucket/name` |
| Ingestion.PdfUrisExactly | scripts/ingest_manuals.py:190-192 | a URI is selected exactly for a listed object ending in ".pdf" |
| Ingestion.PrefixLocationSplits | scripts/ingest_manuals.py:183-184 | the bucket has no "/", and bucket, "/" and prefix give back the prefix without "gs://" |
| Ingestion.SelectUris | scripts/ingest_manuals.py:175-197 | `--gcs-uris` wins over `--gcs-prefix`. With neither, nothing is ingested |
| AccuracyReports.ConfidenceAgreesWithLevel | generate_individual_accuracy_reports.py:143-154 | the confidence message opens with the level the scorer gives the same value |
| AccuracyReports.RecommendationCases | generate_individual_accuracy_reports.py:157-168 | from 60 up only accuracy matters. Below 60 the no-manual advice is given exactly when there are no results |
| AccuracyReports.ReportInterpretation | generate_individual_accuracy_reports.py:45-122 | `will_solve` exactly from 90, which is exactly the "Very High" confidence. Error details are present exactly for the mismatch answer. The query is type + " " + description |
| AccuracyReports.ReportCanOutrankLevel | generate_individual_accuracy_reports.py:87-118 | 89.96 is reported at level "High", yet the report promises a solution with "Very High" confidence |
| AccuracyReports.TopResultOf | generate_individual_accuracy_reports.py:127-138 | a top result has its rank, score and text, and its preview is the first 300 characters |
| AccuracyReports.TopResults | generate_individual_accuracy_reports.py:125-138 | at most 3 entries, ranked 1..k in result order |
| AccuracyReports.CollectTopResults | generate_individual_accuracy_reports.py:125-138 | the loop appends exactly those entries |
| AccuracyReports.GenerateAccuracyReport | generate_individual_accuracy_reports.py:22-140 | the report is the one built from the context and the tool's answer |
| ContextTests.TopOf | test_all_contexts.py:84-93 | the top result is present exactly when there are results, and comes from the first one with a 200-character preview |
| ContextTests.TestAllContexts | test_all_contexts.py:98-134 | one entry per file, in order, with failures recorded |
| ContextTests.EntryFields | test_all_contexts.py:22-95 | a failure scores 0 with level "Error", and a run reports the scorer's values |
| ContextTests.ScoresOfSuccesses | test_all_contexts.py:151 | the scores are exactly those of the entries without an error |
| ContextTests.ReportCountsAddUp | test_all_contexts.py:147-168 | the bands partition the successes, and successful plus failed is the total |
| ContextTests.BandsPartition | test_all_contexts.py:157-159 | high, medium and low sum to the number of scores |
| ContextTests.ReportStatsOrdered | test_all_contexts.py:153-171 | every statistic is zero with no successes. Otherwise min ≤ average ≤ max after rounding |
| ContextTests.StatsOrdered | test_all_contexts.py:154-156 | min ≤ mean ≤ max, before and after rounding |

## Left out

- Network and service calls become parameters or oracle values. This covers OpenAI, the Qdrant server's ranking and upsert semantics, Docling, PyMuPDF, the sentence splitter, storage downloads and listings, and hashlib. Their behaviour lives outside this code.
- Printing, `time.sleep` pacing, timestamps, uuid generation and file writes are left out. The timestamp, random hex, uuids and any file-write error are parameters.
- Floats are exact reals. `round(x, 1)` and `{:.2f}` are modelled as round-half-even on exact values, so ties can differ from binary floats.
- Dictionary order is not modelled; metadata is a map.
- Absent `score`, `text` and `metadata` keys on hits are not modelled. The store's formatter always writes them, so those `.get` defaults never apply.
- Only ASCII letters are upper- and lower-cased, and `str.isalnum` (used for the model series) accepts only ASCII letters and digits. Unicode case mapping and Unicode letters and digits are not modelled.
- Scoring.AccuracyOf: requires string-valued `model_number` and `brand` in every hit it is given. Non-string values are not modelled; the source raises on one only when a scan reaches it, since `model_number` is read only with a truthy user model and `brand` only while a brand scan runs.
- ManualSearch.SearchSamsungManualsRag: requires the same of the hits it keeps, for the same reason.
- Negative `top_k` and a zero batch size are excluded. The source raises or behaves as Python slicing does.
- The safety policy is a parameter. Loading it from YAML at import time is left out.
- The chunker's documents must not share a metadata dictionary; aliasing between documents is not modelled.
- The lazy converter state after an exception inside processing is not modelled.
- `embed_text`, `embed_chunks` and `process_directory` are left out. They are thin wrappers not used by the modelled core.
- The constructor defaults that build the retriever's own store and embedder are left out; the retriever takes a store.
- The detector's answer is passed to the scorer as `detected` rather than recomputed inside it.
- Ingestion steps 3-5 are left out: chunking, embedding, upload and the collection summary. They only compose the modelled `ChunkDocuments`, `EmbedNodes` and `AddDocuments` and print their results.
- The accuracy report's save loop, and the glob-and-sort of context files in both scripts, are left out. The file list is a parameter in the listed order.
- Scoring.BrandMatchOf: states only the value set. Which value is given is tied to the scans by ScanBrandMatch.
- ManualSearch.Select: states only the size bound and membership. The behaviour of each threshold branch is stated by ThresholdRespectedWhenMet and FallbackSelection.
