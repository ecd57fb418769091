/** The stand-alone loading program of `test/loader`: it splits the loaded
    documents with the same batch pipeline as `pkg/wokerpool`, written inline
    with fixed settings (batches of 10, 10 workers, 5 attempts) and task and
    result channels of capacity `len(docs)/batchSize + 1`. Its
    `retryTransform` is the same loop as the pool's and is modelled by
    `RetryLoop.RetryTransform`. */
module Loader {
  import opened Common
  import opened Batching
  import opened RetryLoop
  import opened WorkerPool

  const BatchSize: int := 10
  const NumWorkers: int := 10
  const MaxRetries: int := 5

  /** The capacity of both channels for `n` documents. */
  function Capacity(n: nat): (c: nat)
  {
    n / BatchSize + 1
  }

  /** The dispatcher sends `docs[i:min(i+10, n)]` for i = 0, 10, 20, ...;
      the batches concatenate back to the documents, and there are never
      more of them than the task channel holds, so the dispatcher never
      blocks on a full channel. */
  lemma DispatchFitsChannels(docs: seq<Document>)
    ensures Flatten(Batches(docs, BatchSize)) == docs
    ensures |Batches(docs, BatchSize)| <= Capacity(|docs|)
    ensures forall k :: 0 <= k < |Batches(docs, BatchSize)| ==>
              Batches(docs, BatchSize)[k] == docs[k * BatchSize..Min(k * BatchSize + BatchSize, |docs|)]
  {
    BatchesFlatten(docs, BatchSize);
    BatchesWithinCapacity(docs, BatchSize);
    forall k | 0 <= k < |Batches(docs, BatchSize)|
      ensures Batches(docs, BatchSize)[k] == docs[k * BatchSize..Min(k * BatchSize + BatchSize, |docs|)]
    {
      BatchShape(docs, BatchSize, k);
    }
  }

  /** The result channel receives at most one batch per task, so it never
      holds more than its capacity either, whatever the splitter and the
      limiter answer: the workers never block on sending a result. */
  lemma ResultsFitChannel(docs: seq<Document>, respond: Responder, admit: nat -> bool, firstWait: nat)
    ensures var env := Wiring(respond, admit, firstWait, MaxRetries);
      |Drain(env, Initial(env, Batches(docs, BatchSize), NumWorkers)).results| <= Capacity(|docs|)
  {
    var env := Wiring(respond, admit, firstWait, MaxRetries);
    var tasks := Batches(docs, BatchSize);
    var r := Drain(env, Initial(env, tasks, NumWorkers));
    RunOutcome(env, tasks, NumWorkers);
    OutputsAtMost(r.fates);
    assert |r.taken| <= |tasks| by {
      assert |r.taken + r.tasks| == |tasks|;
    }
    BatchesWithinCapacity(docs, BatchSize);
  }

  /** With five attempts the backoffs are 2s, 4s, 8s, 16s and 32s. */
  lemma LoaderSchedule()
    ensures Schedule(MaxRetries) == [2_000_000_000, 4_000_000_000, 8_000_000_000, 16_000_000_000, 32_000_000_000]
  {
    BackoffExact(0);
    BackoffExact(1);
    BackoffExact(2);
    BackoffExact(3);
    BackoffExact(4);
    assert Pow2(1) == 2 && Pow2(2) == 4 && Pow2(3) == 8 && Pow2(4) == 16;
  }

  /** Five "429" errors in a row: five attempts, five sleeps (the last one
      included) and an error wrapping the fifth error. */
  lemma LoaderGivesUp(respond: Responder, batch: Batch)
    requires RateLimitedUpTo(respond, batch, 5)
    ensures Retry(respond, batch, MaxRetries)
         == Attempts(Failure(RetriesExhausted(5, Some(respond(batch, 4).message))), 5,
                     [2_000_000_000, 4_000_000_000, 8_000_000_000, 16_000_000_000, 32_000_000_000])
  {
    RetryExhausts(respond, batch, MaxRetries);
    LoaderSchedule();
  }

  /** Steps 3 and 4 of the program: queue the batches, let the workers drain
      them, then aggregate the result batches in the order they arrive. The
      chunks are the successful batches' chunks, in some arrival order. */
  method SplitDocuments(docs: seq<Document>, respond: Responder, limiter: Limiter)
    returns (allChunks: Batch, ghost arrival: seq<Batch>)
    modifies limiter
    ensures var env := Wiring(respond, limiter.admit, old(limiter.waits), MaxRetries);
      var r := Drain(env, Initial(env, Batches(docs, BatchSize), NumWorkers));
      && multiset(arrival) == multiset(r.results)
      && allChunks == Flatten(arrival)
      && limiter.waits == old(limiter.waits) + |r.taken|
      && r.taken <= Batches(docs, BatchSize)
  {
    ghost var env := Wiring(respond, limiter.admit, limiter.waits, MaxRetries);
    var pool := new Pool(respond, limiter, NumWorkers, BatchSize, MaxRetries);
    pool.GenerateTasks(docs);
    assert pool.State().(live := NumWorkers) == Initial(env, Batches(docs, BatchSize), NumWorkers);
    pool.Run();
    RunOutcome(env, Batches(docs, BatchSize), NumWorkers);
    allChunks, arrival := pool.AssembleChunks();
  }

  /** If the limiter admits every call and the splitter returns each batch
      unchanged at the first attempt, the aggregated chunks are exactly the
      loaded documents, up to the order of the batches. */
  lemma AllChunksKeepDocuments(docs: seq<Document>, respond: Responder, admit: nat -> bool, firstWait: nat, arrival: seq<Batch>)
    requires forall b: Batch :: respond(b, 0) == Chunks(b)
    requires forall k :: firstWait <= k < firstWait + |Batches(docs, BatchSize)| ==> admit(k)
    requires var env := Wiring(respond, admit, firstWait, MaxRetries);
      multiset(arrival) == multiset(Drain(env, Initial(env, Batches(docs, BatchSize), NumWorkers)).results)
    ensures multiset(Flatten(arrival)) == multiset(docs)
  {
    var env := Wiring(respond, admit, firstWait, MaxRetries);
    var r := Drain(env, Initial(env, Batches(docs, BatchSize), NumWorkers));
    IdentitySplitterKeepsDocuments(env, docs, BatchSize, NumWorkers);
    FlattenPermutation(arrival, r.results);
  }
}
