# EinoRag ingestion and query core, in Dafny

This project models the core of EinoRag, a retrieval-augmented generation
service written in Go on top of the eino framework, Milvus and the Gemini API.

The centre of the model is the ingestion batch pipeline of `pkg/wokerpool`:

- `GenerateTasks` cuts the documents into batches.
- Each worker takes one rate-limiter permit per batch and runs
  `retryTransform` (the semantic splitter, retried on "429" errors with a
  doubling backoff). It sends each success to the result queue.
- `AssembleChunks` concatenates the result batches in the order they arrive.

The stand-alone loader in `test/loader` is a copy of this pipeline with fixed
settings, and it is modelled on top of the same classes.

Around the pipeline the model covers these pieces:

- the chunking transformer's validation and pool wiring;
- the upload chain (load, transform, index) and the query chain (retrieve,
  assemble, prompt, generate), with their fail-on-empty checks;
- both vector-search retrievers;
- the Gemini embedder;
- the Milvus field schema;
- the document-to-row converter, which the code base copies into five files;
- the stage-4 indexing driver.

## How it is modelled

The goroutines are simulated one batch at a time.

- `WorkerPool.Pool` is a class holding the two queues as sequences, each with
  a closed flag, plus the count of running workers. Ghost fields record, for
  each batch taken, what became of it, and count the permits, splitter calls
  and sleeps.
- `WorkerPool.Limiter` is a class around an oracle `admit(k)`: whether the
  k-th `Wait` call succeeds.
- The splitter is an oracle `respond(batch, attempt)`.
- Each method of `Pool` is proved against the specification functions
  `Step`/`Drain` on the datatype `Sim`. The lemmas about `Drain` (coherence,
  permits per batch, budgets, delivery) are proved once, for every reachable
  state.
- The order in which results arrive is left open. `AssembleChunks` picks any
  pending batch at each step, and a ghost `arrival` records the order it took.

Other external components are oracles given as parameters:

- the Gemini embedding and generation APIs;
- Milvus search and store;
- the semantic splitter;
- the document loader.

Other modelling choices:

- Floating-point element types are type parameters, and the
  float32/float64 conversions are function parameters.
- A Go panic and a `log.Fatalf` are explicit outcomes.
- The int64 backoff (`time.Duration`) wraps around explicitly (`WrapInt64`).
- Settings read from viper are ordinary parameters.

## Model

| member | source | states |
|---|---|---|
| `Batching.BatchesFlatten` | pkg/wokerpool/wokerpool.go:87-90 | the batches sent, concatenated in order, are exactly the input documents |
| `Batching.BatchesCount` | pkg/wokerpool/wokerpool.go:87-90 | for batch size B > 0 there are ⌈n/B⌉ batches, and none exactly when there are no documents |
| `Batching.BatchShape` | pkg/wokerpool/wokerpool.go:87-90 | batch k is `docs[k*B : min(k*B+B, n)]`, holds 1 to B documents, and only the last may hold fewer than B |
| `Batching.BatchesWithinCapacity` | test/loader/loader.go:74-75 | the number of batches never exceeds `n/B + 1`, the capacity the loader gives its channels |
| `WorkerPool.Pool.constructor` | pkg/wokerpool/wokerpool.go:32-46 | the settings are stored unchecked; both queues start empty and open, with no worker running |
| `WorkerPool.Pool.GenerateTasks` | pkg/wokerpool/wokerpool.go:85-93 | the task queue receives exactly `Batches(docs, batchSize)` in order and is then closed, and nothing else changes |
| `WorkerPool.Limiter.Wait` | pkg/wokerpool/wokerpool.go:54 | each call gets the limiter's verdict for its own call number, and the call counter advances by one |
| `WorkerPool.Pool.WorkerStep` | pkg/wokerpool/wokerpool.go:52-66 | one pass of a worker's loop. It takes the head batch and one permit. A refusal loses the batch and stops the worker. Otherwise the state advances as `Step` prescribes |
| `WorkerPool.Pool.Process` | pkg/wokerpool/wokerpool.go:60-65 | it records one permit and the batch's `retryTransform` outcome with its calls and sleeps; a success goes to the result queue and a failure sends nothing |
| `WorkerPool.Pool.Run` | pkg/wokerpool/wokerpool.go:71-82 | running the workers ends in the state `Drain` gives, starting from `workers` running workers, and the result queue is then closed |
| `WorkerPool.Pool.AssembleChunks` | pkg/wokerpool/wokerpool.go:96-103 | the output is the concatenation of the result batches in arrival order; the arrival order is a permutation of the queued results, so the chunks are the same multiset. The result queue is left empty and closed, and nothing else in the pool changes |
| `WorkerPool.Wiring` | pkg/wokerpool/wokerpool.go:60 | the transformation a worker applies to a batch is `retryTransform` on the pool's own splitter and retry budget |
| `WorkerPool.StepCoherent` | pkg/wokerpool/wokerpool.go:52-66 | one worker pass keeps the pool coherent and takes batches strictly in queue order |
| `WorkerPool.DrainCoherent` | pkg/wokerpool/wokerpool.go:71-82 | running the workers to the end keeps the pool coherent, takes batches in order, and stops only on an empty queue or when no worker is left |
| `WorkerPool.RunOutcome` | pkg/wokerpool/wokerpool.go:52-57 | a prefix of the queued batches is taken in order; batches stay queued only if every worker stopped on a limiter error |
| `WorkerPool.PermitsPerBatch` | pkg/wokerpool/wokerpool.go:54-60 | one permit per batch, not per attempt. Each batch taken got a permit or was lost. There are at most `maxRetries` splitter calls per permit, and at least one when `maxRetries > 0` |
| `WorkerPool.NoBudgetDeliversNothing` | pkg/wokerpool/wokerpool.go:111-128 | with `maxRetries <= 0` the splitter is never called and no batch reaches the result queue |
| `WorkerPool.OutputsEmpty` | pkg/wokerpool/wokerpool.go:61-65 | the result queue is empty exactly when no batch was processed successfully |
| `WorkerPool.EveryBatchProcessed` | pkg/wokerpool/wokerpool.go:52-66 | when the limiter admits every call and some worker runs, every batch is taken in order and gets its own `retryTransform` outcome, and no worker stops |
| `WorkerPool.IdentitySplitterKeepsDocuments` | pkg/wokerpool/wokerpool.go:87-103 | with an identity splitter, full admission and a positive budget, the result batches concatenate back to the input documents |
| `RetryLoop.RetryTransform` | pkg/wokerpool/wokerpool.go:106-129 | the loop, with its in-place int64 doubling of `backoff`, returns exactly what the specification `Retry` prescribes: result, number of calls and sleeps. The copy at test/loader/loader.go:142-170 has the same control flow, with different error and log messages (lines 158, 164 and 169) |
| `RetryLoop.NextBackoff` | pkg/wokerpool/wokerpool.go:121 | doubling the current backoff in int64 arithmetic gives the backoff of the next attempt |
| `RetryLoop.RetryFacts` | pkg/wokerpool/wokerpool.go:111-128 | calls never exceed `maxRetries` and there are none when it is <= 0. Every call but the last got a "429". A success returns the last call's chunks. A non-retryable error carries the last error, which lacks "429". Exhaustion means `maxRetries` "429"s and as many sleeps |
| `RetryLoop.RetryStops` | pkg/wokerpool/wokerpool.go:111-126 | after k "429" errors, the first other answer ends the loop at once: k+1 calls, the k doubling sleeps, and that answer's chunks or a non-retryable error |
| `RetryLoop.RetryExhausts` | pkg/wokerpool/wokerpool.go:118-128 | `maxRetries` "429"s in a row give "failed after N retries" wrapping the last error, with a sleep after every attempt including the last. With `maxRetries <= 0` no call is made and the error wraps nil |
| `RetryLoop.BackoffDoubles` | pkg/wokerpool/wokerpool.go:109-121 | the k-th sleep is 2·2^(k-1) seconds, doubling exactly for as long as an int64 nanosecond count holds it (the first 33 sleeps) |
| `Common.WrapInt64` | pkg/wokerpool/wokerpool.go:121 | int64 wrap-around yields an int64, leaves int64 values alone and is congruent to its input modulo 2^64 |
| `Loader.DispatchFitsChannels` | test/loader/loader.go:111-117 | the dispatcher sends `docs[i:min(i+10,n)]` for i = 0, 10, 20, …. These concatenate back to the documents, and there are never more than the channel capacity `len(docs)/10+1` (lines 74-75) |
| `Loader.LoaderSchedule` | test/loader/loader.go:145-161 | with five attempts the sleeps are 2s, 4s, 8s, 16s and 32s |
| `Loader.LoaderGivesUp` | test/loader/loader.go:147-169 | five "429"s in a row give five attempts, five sleeps and an error wrapping the fifth error |
| `Loader.SplitDocuments` | test/loader/loader.go:84-129 | the aggregated chunks concatenate the successful batches in an arrival order that is a permutation of the pool's results. The shared limiter is called exactly once per batch taken, and the batches taken are a prefix of the dispatched ones |
| `Loader.ResultsFitChannel` | test/loader/loader.go:74-104 | whatever the splitter and the limiter answer, the result channel receives at most one batch per task, never more than its capacity `len(docs)/10+1`, so no worker blocks on sending a result |
| `Loader.AllChunksKeepDocuments` | test/loader/loader.go:126-129 | with an identity splitter and full admission, the aggregated chunks are the loaded documents, up to batch order |
| `Transformer.NewTransformer` | internal/rag/transformer/chunk.go:27-57 | success iff the embedder exists, `bufferSize > 0`, `minChunkSize >= 0` (0 accepted) and `percentile > 0`. Embedder failure is reported first, then each invalid setting in order. The result holds exactly the configured values |
| `Transformer.Transform` | internal/rag/transformer/chunk.go:60-87 | a splitter failure is returned and no pool is made. Otherwise it never fails. The result is the pool's assembled chunks over the batches of `src`, in arrival order: the same multiset of chunks as the delivered batches hold, possibly empty |
| `Transformer.NoChunksWhenNothingDelivered` | internal/rag/transformer/chunk.go:86 | when no batch was delivered the returned chunks are empty |
| `Uploader.Upload` | internal/rag/uploader/upload.go:48-77 | success iff every stage succeeds with a non-empty result; the ids returned are the indexer's, unchanged and non-empty; load errors and empty loads are reported as such |
| `Uploader.StopsAfterLoad` | internal/rag/uploader/upload.go:50-56 | a load error or zero documents fails the upload, and no transformer or indexer can change the outcome |
| `Uploader.StopsAfterTransform` | internal/rag/uploader/upload.go:59-65 | a transformer error or zero chunks fails with that error before the indexer |
| `Uploader.IndexerMustReturnIds` | internal/rag/uploader/upload.go:68-74 | an indexer error, or an indexer returning no ids, is an error |
| `Uploader.NewUploader` | internal/rag/uploader/upload.go:21-46 | loader, transformer and indexer are built in that order; the first failure is reported and later outcomes do not matter |
| `Generator.AssembleResults` | internal/rag/generator/generate.go:91-110 | an empty input is the "no results to assemble" error; otherwise the chunks are `Assembled(results)` |
| `Generator.AssembledFromPresent` | internal/rag/generator/generate.go:97-107 | chunk m comes from the m-th non-nil document. It reads "Result k:\n<c>" followed by "\nContent: <c>" when c is non-empty, where k is the document's 1-based input position, so nils leave gaps in the numbering |
| `Generator.AssembledCount` | internal/rag/generator/generate.go:97-107 | there are as many chunks as non-nil documents |
| `Generator.PresentExactly` | internal/rag/generator/generate.go:97-107 | the chunk sources are exactly the non-nil positions, strictly increasing, so chunks keep the input order |
| `Generator.AllNilAssemblesNothing` | internal/rag/generator/generate.go:97-109 | the chunk list is empty iff every document is nil (and then no error is raised) |
| `Common.JoinContainsParts` | internal/rag/generator/generate.go:69 | every part occurs in `strings.Join` of the parts |
| `Generator.PromptHoldsQueryAndChunks` | internal/rag/generator/generate.go:61-69 | the prompt contains the query and every chunk |
| `Generator.Generate` | internal/rag/generator/generate.go:47-89 | a retrieval error or no documents fail before the model. It succeeds exactly when retrieval returns documents and the model answers the prompt built from the query and the assembled chunks with a first candidate that has content; the text returned is then that candidate's |
| `Generator.StopsBeforeModel` | internal/rag/generator/generate.go:49-58 | a retrieval error or zero documents fail `Generate` whatever the model would answer |
| `Generator.EmptyAnswerIsError` | internal/rag/generator/generate.go:72-85 | a model error is wrapped, and a response without candidates or with a nil first content is the "empty response" error |
| `Retriever.EffectiveTopK` | internal/rag/generator/retriever/vector_search.go:81-84 | top K is the option when it is set and positive, otherwise the default; the copy at internal/rag/retriever/search.go:77-80 is identical |
| `Retriever.DoRetrieve` | internal/rag/generator/retriever/vector_search.go:67-126 | it does what `Retrieval` prescribes. An embedding error or a search error is wrapped. An empty embedding list or a negative row count panics. An empty search result gives no documents and no error. Otherwise there is one document per row of the first result set; the copy at internal/rag/retriever/search.go:63-122 is identical |
| `Retriever.Retrieve` | internal/rag/generator/retriever/vector_search.go:56-64 | caller options are ignored and the configured top K is always passed down; the copy at internal/rag/retriever/search.go:53-60 is identical |
| `Retriever.RowsToDocuments` | internal/rag/generator/retriever/vector_search.go:110-124 | the query vector has the first embedding's length. There are exactly `ResultCount` documents in row order. Each ID is the decimal of the row id (0 when unreadable) and reads back exactly. Metadata is present iff the row value is a map; the copy at internal/rag/retriever/search.go:106-120 is identical |
| `Common.DecimalRoundTrip` | internal/rag/generator/retriever/vector_search.go:120 | the "%d" rendering of an integer parses back to that integer |
| `Vectors.Convert` | internal/rag/generator/retriever/vector_search.go:75-78 | the converted vector has the input's length and element j is the conversion of element j |
| `Gemini.NewEmbedder` | internal/embadding/gemini/gemini.go:20-41 | an empty model name is an error raised before any client is made. A client error is wrapped. Success holds the configured name and key |
| `Gemini.BuildContents` | internal/embadding/gemini/gemini.go:45-48 | one user content per text, in order |
| `Gemini.DoEmbed` | internal/embadding/gemini/gemini.go:66-86 | a nil or empty response gives no vectors. Otherwise there is one vector per embedding, in order; a nil or empty embedding gives an empty vector; otherwise element j is value j widened |
| `Gemini.EmbedStrings` | internal/embadding/gemini/gemini.go:44-63 | the request holds one content per text, an API error is wrapped with nothing converted, otherwise the result is `doEmbed` of the response |
| `Fields.DefaultConfig` | internal/rag/uploader/indexer/field/field.go:19-43 | four fields named id, content, metadata and vector, in that order; only "id" is the primary key and only it has AutoID; the vector's "dim" is the configured dimension |
| `Fields.NewFields` | internal/rag/uploader/indexer/field/field.go:47-64 | a nil list becomes the default, any other (even empty) list is used as given; one field per entry in order, copying name, type, primary key, AutoID and parameters |
| `Indexer.FloatDocumentConverter` | internal/rag/uploader/indexer/index.go:86-105 | one row per document in order, with exactly the keys id, content, vector and metadata. Each row copies the document's fields, and its vector is the embedding narrowed element by element, of the same length. No error is returned. The copies at internal/rag/indexer/index.go:79-96, test/indexer_test.go:99-118, test/indexer/indexer.go:95-112 and test/indexer/stage4/indexer.go:79-96 are the same code |
| `Indexer.DoStore` | internal/rag/uploader/indexer/index.go:58-82 | the indexer is built on the default schema with the cosine metric. A creation or store error ends the process. Otherwise the store's ids come back unchanged. The copy at internal/rag/indexer/index.go:53-76 has the same control flow with other log messages. Its schema comes from `internal/rag/indexer/field.NewFields(nil)`, which is not part of this model; the model gives it the schema of `internal/rag/uploader/indexer/field` |
| `Indexer.Store` | internal/rag/uploader/indexer/index.go:52-55 | it delegates to `doStore`: a creation or store failure ends the process, and otherwise the Milvus store's ids are returned unchanged; the copy at internal/rag/indexer/index.go:48-51 is identical |
| `Indexer.IndexerRAG` | test/indexer/stage4/indexer.go:44-77 | an embedder error panics and an indexer error is fatal, before any store. Otherwise there is one store call per document, in order, each with a one-document batch copying ID, content and metadata. The first store error is fatal and stops the loop. All stored iff every call succeeded |

## Left out

- Concurrency and timing: goroutine scheduling, channel blocking, the `sync.WaitGroup`, the real `rate.Limiter` timing and `time.Sleep`. The workers are simulated one batch at a time. Sleeps are recorded as durations, and the limiter is an oracle over its call number.
- `WorkerPool.RunOutcome`: when every worker stops on a limiter error, the goroutine still sending tasks blocks for ever (a goroutine leak). The model only records that tasks remain queued.
- The splitter is an oracle indexed by batch and attempt number. A real splitter's answer may also depend on time and on other workers' calls.
- Floating point: float32 and float64 are type parameters and the conversions are parameters, so rounding is not modelled. The transformer's `percentile` is a real number, so NaN is not modelled.
- Go's nil slices and maps versus empty ones: a nil document list from the retriever is `Found([])`, and `AssembleChunks` returns an empty batch where Go returns nil.
- `Retriever.DoRetrieve`: a Milvus result set that lacks the "id", "content" or "metadata" column makes `GetColumn` return nil and the call panic. This is not modelled; a column is always present and each accessor's failure is an absent value.
- Viper configuration, Milvus client creation (`NewIndexer`, `NewRetriever`), `NewGenerator` and the internals of the genai and eino SDKs are outside the model; their results are parameters.
- `Generator.Generate`: `result.Text()` is modelled as the text of the first candidate's content. Its concatenation of parts and its handling of thought parts are not modelled.
- Rate-limiter permits per retry attempt are not modelled, because the code takes one permit per batch.
- `WorkerPool.Pool.GenerateTasks`: `batchSize > 0` is a precondition, because the source does not validate it. With non-empty documents, a batch size of 0 sends the same empty slice for ever, and a negative size makes the slice `docs[i:end]` end below its start, which panics. With no documents the loop never runs and any batch size returns normally; the model does not cover these cases. `Transformer.Transform` inherits the precondition.
- `Indexer.FloatDocumentConverter`: at least one embedding per document is a precondition. With fewer, Go's `vectors[i]` panics.
- `log.Printf` and `fmt.Printf` output is left out.
- The interface-only and delegation files, PDF loading, `test/semantic`, `test/wokerpool`, `internal/storage/milvus.go` and the live-service tests are not part of this model. This includes `test/embedder_test.go`, which calls `NewEmbedder` with arguments it does not take.
