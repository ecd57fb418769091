/** The chunking transformer of `internal/rag/transformer`: `NewTransformer`
    validates the configured splitter settings, and `Transform` builds a
    semantic splitter, a rate limiter and a worker pool for every call and
    returns the pool's assembled chunks. The percentile, a float64, is a
    real number here. */
module Transformer {
  import opened Common
  import opened Batching
  import opened RetryLoop
  import opened WorkerPool
  import opened Gemini

  /** The `rag.transformer.*` settings as viper reads them. */
  datatype Settings = Settings(bufferSize: int, minChunkSize: int, percentile: real)

  datatype TransformerError =
    | EmbedderFailed(reason: EmbedderError)  // "create embedder: ..."
    | InvalidBufferSize(bufferSize: int)      // "invalid chunk_size: ..."
    | InvalidMinChunkSize(minChunkSize: int)  // "invalid overlap: ..."
    | InvalidPercentile(percentile: real)     // "invalid min_chunk_length: ..."
    | SplitterFailed(cause: string)           // "fail to init splitter: ..."

  datatype Transformer = Transformer(embedder: GeminiEmbedder, bufferSize: int, minChunkSize: int, percentile: real)

  /** The sentence separators handed to the semantic splitter. */
  const Separators: seq<string> := ["\n", ".", "?", "!", "。", "！", "？"]

  /** What `semantic.NewSplitter` is given. */
  datatype SplitterConfig = SplitterConfig(
    embedding: GeminiEmbedder, bufferSize: int, minChunkSize: int, percentile: real, separators: seq<string>)

  /** `NewTransformer`: the embedder is created first and its failure is
      reported before any setting is looked at; then the buffer size must be
      positive, the minimum chunk size non-negative (zero is accepted) and
      the percentile positive, checked in that order. */
  function NewTransformer(settings: Settings, embedder: Result<GeminiEmbedder, EmbedderError>): (r: Result<Transformer, TransformerError>)
    ensures r.Success? <==> embedder.Success? && settings.bufferSize > 0 && settings.minChunkSize >= 0 && settings.percentile > 0.0
    ensures embedder.Failure? ==> r == Failure(EmbedderFailed(embedder.error))
    ensures embedder.Success? && settings.bufferSize <= 0 ==> r == Failure(InvalidBufferSize(settings.bufferSize))
    ensures embedder.Success? && settings.bufferSize > 0 && settings.minChunkSize < 0 ==> r == Failure(InvalidMinChunkSize(settings.minChunkSize))
    ensures embedder.Success? && settings.bufferSize > 0 && settings.minChunkSize >= 0 && settings.percentile <= 0.0 ==>
      r == Failure(InvalidPercentile(settings.percentile))
    ensures r.Success? ==> r.value == Transformer(embedder.value, settings.bufferSize, settings.minChunkSize, settings.percentile)
  {
    if embedder.Failure? then Failure(EmbedderFailed(embedder.error))
    else if settings.bufferSize <= 0 then Failure(InvalidBufferSize(settings.bufferSize))
    else if settings.minChunkSize < 0 then Failure(InvalidMinChunkSize(settings.minChunkSize))
    else if settings.percentile <= 0.0 then Failure(InvalidPercentile(settings.percentile))
    else Success(Transformer(embedder.value, settings.bufferSize, settings.minChunkSize, settings.percentile))
  }

  /** The splitter configuration a transformer asks for. */
  function ConfigOf(t: Transformer): (r: SplitterConfig)
  {
    SplitterConfig(t.embedder, t.bufferSize, t.minChunkSize, t.percentile, Separators)
  }

  /** `Transform`: build the splitter (its failure is returned and no pool
      is made), a fresh limiter whose verdicts are `admit`, and a pool with
      the `workerPool.*` settings; queue the documents, run the workers and
      return the assembled chunks. Once the splitter exists no error is
      returned: the chunks are those of the batches the pool delivered, in
      arrival order, and may be empty. */
  method Transform(t: Transformer, src: seq<Document>, newSplitter: SplitterConfig -> Result<Responder, string>,
                   admit: nat -> bool, workers: int, batchSize: int, maxRetries: int)
    returns (r: Result<Batch, TransformerError>, ghost arrival: seq<Batch>)
    requires batchSize > 0
    ensures var splitter := newSplitter(ConfigOf(t));
      && (splitter.Failure? ==> r == Failure(SplitterFailed(splitter.error)))
      && (splitter.Success? ==>
            var env := Wiring(splitter.value, admit, 0, maxRetries);
            var run := Drain(env, Initial(env, Batches(src, batchSize), workers));
            && r.Success?
            && multiset(arrival) == multiset(run.results)
            && r.value == Flatten(arrival))
    ensures r.Failure? <==> newSplitter(ConfigOf(t)).Failure?
    ensures var splitter := newSplitter(ConfigOf(t));
      splitter.Success? ==>
        var env := Wiring(splitter.value, admit, 0, maxRetries);
        multiset(r.value) == multiset(Flatten(Drain(env, Initial(env, Batches(src, batchSize), workers)).results))
  {
    var splitter := newSplitter(ConfigOf(t));
    if splitter.Failure? {
      r, arrival := Failure(SplitterFailed(splitter.error)), [];
      return;
    }
    ghost var env := Wiring(splitter.value, admit, 0, maxRetries);
    var limiter := new Limiter(admit);
    var pool := new Pool(splitter.value, limiter, workers, batchSize, maxRetries);
    pool.GenerateTasks(src);
    assert pool.State().(live := NonNegative(workers)) == Initial(env, Batches(src, batchSize), workers);
    pool.Run();
    var chunks;
    chunks, arrival := pool.AssembleChunks();
    r := Success(chunks);
  }

  /** When no batch was delivered (every one was lost or failed), the
      chunks are empty. */
  lemma NoChunksWhenNothingDelivered(run: Sim, arrival: seq<Batch>)
    requires multiset(arrival) == multiset(run.results)
    requires forall j :: 0 <= j < |run.fates| ==> !Delivered(run.fates[j])
    requires run.results == Outputs(run.fates)
    ensures Flatten(arrival) == []
  {
    OutputsEmpty(run.fates);
    assert |arrival| == |multiset(arrival)| == 0;
  }
}
