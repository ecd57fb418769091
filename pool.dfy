/** The worker pool of `pkg/wokerpool`: `GenerateTasks` cuts the documents
    into batches on the task queue, `Run` starts `workers` workers that each
    take one rate-limiter permit per batch, run `retryTransform` on it and
    send the successes to the result queue, and `AssembleChunks` concatenates
    the result batches in the order they arrive.

    The goroutines are simulated one batch at a time: a step takes the head of
    the task queue and runs one iteration of a worker's loop on it. Which
    worker runs it does not matter, since workers share everything but their
    identifier; only how many are still running does. The order in which
    results arrive is left open (any permutation). */
module WorkerPool {
  import opened Common
  import opened Batching
  import opened RetryLoop

  /** What became of one batch taken from the task queue: it was processed
      (the limiter gave a permit and `retryTransform` ran, with the given
      outcome), or it was lost because the limiter's `Wait` failed and the
      worker that had taken it stopped. */
  datatype Fate = Processed(attempts: Attempts) | Lost

  /** What the pool cannot see: the splitter's answers, the limiter's verdict
      on each `Wait` call (numbered across all workers, from `firstWait` on
      for this pool), and the retry budget. `transform` is what
      `retryTransform` makes of a batch; `Wired` ties it to the splitter. */
  datatype Env = Env(transform: Batch -> Attempts, respond: Responder, admit: nat -> bool, firstWait: nat, maxRetries: int)

  ghost predicate Wired(env: Env)
  {
    forall b :: env.transform(b) == Retry(env.respond, b, env.maxRetries)
  }

  /** The environment of a pool built on `respond` and a limiter whose
      verdicts are `admit`, its first call being number `firstWait`. */
  function Wiring(respond: Responder, admit: nat -> bool, firstWait: nat, maxRetries: int): (env: Env)
    ensures Wired(env)
  {
    Env(b => Retry(respond, b, maxRetries), respond, admit, firstWait, maxRetries)
  }

  /** The pool's state between two worker steps. `live` is the number of
      workers still running (the WaitGroup's counter); `taken` and `fates`
      record every batch taken off the task queue and what became of it;
      `permits`, `calls` and `sleeps` count the limiter permits granted, the
      splitter calls made and the backoff sleeps taken. */
  datatype Sim = Sim(
    tasks: seq<Batch>, taken: seq<Batch>, fates: seq<Fate>, live: nat, waits: nat,
    permits: nat, calls: nat, sleeps: seq<int>, results: seq<Batch>)

  /** The fate of a batch taken at limiter call number `wait`. */
  function Judge(env: Env, batch: Batch, wait: nat): (r: Fate)
  {
    if env.admit(wait) then Processed(env.transform(batch)) else Lost
  }

  predicate Delivered(f: Fate)
  {
    f.Processed? && f.attempts.result.Success?
  }

  /** One iteration of a worker's `for batch := range wp.tasks` loop. */
  function Step(env: Env, s: Sim): (r: Sim)
    requires s.tasks != [] && s.live > 0
  {
    match Judge(env, s.tasks[0], s.waits)
    case Lost => Stop(Take(s))
    case Processed(a) => Record(Take(s), a)
  }

  /** A worker receives the head of the task queue and calls the limiter. */
  function Take(s: Sim): (r: Sim)
    requires s.tasks != []
  {
    s.(tasks := s.tasks[1..], taken := s.taken + [s.tasks[0]], waits := s.waits + 1)
  }

  /** The limiter refused the permit: the batch is lost and its worker returns. */
  function Stop(s: Sim): (r: Sim)
    requires s.live > 0
  {
    s.(fates := s.fates + [Lost], live := s.live - 1)
  }

  /** The batch got a permit and `retryTransform` ran with outcome `a`; only a
      success is sent on. */
  function Record(s: Sim, a: Attempts): (r: Sim)
  {
    s.(fates := s.fates + [Processed(a)], permits := s.permits + 1, calls := s.calls + a.calls,
       sleeps := s.sleeps + a.sleeps, results := s.results + (if a.result.Success? then [a.result.value] else []))
  }

  /** Worker steps until the task queue is empty or no worker is left. */
  function Drain(env: Env, s: Sim): (r: Sim)
    decreases |s.tasks|
  {
    if s.tasks == [] || s.live == 0 then s else Drain(env, Step(env, s))
  }

  /** The state right after `GenerateTasks(docs)` and the start of `Run`. */
  function Initial(env: Env, tasks: seq<Batch>, workers: int): (r: Sim)
  {
    Sim(tasks, [], [], NonNegative(workers), env.firstWait, 0, 0, [], [])
  }

  // ---------------------------------------------------------------------
  // Summaries of a sequence of fates

  /** The result batches sent, in processing order. */
  function Outputs(fates: seq<Fate>): (r: seq<Batch>)
  {
    if fates == [] then []
    else
      var f := fates[|fates| - 1];
      Outputs(fates[..|fates| - 1]) + (if Delivered(f) then [f.attempts.result.value] else [])
  }

  function Admitted(fates: seq<Fate>): (n: nat)
  {
    if fates == [] then 0 else Admitted(fates[..|fates| - 1]) + (if fates[|fates| - 1].Processed? then 1 else 0)
  }

  function LostCount(fates: seq<Fate>): (n: nat)
  {
    if fates == [] then 0 else LostCount(fates[..|fates| - 1]) + (if fates[|fates| - 1].Lost? then 1 else 0)
  }

  function CallsOf(fates: seq<Fate>): (n: nat)
  {
    if fates == [] then 0
    else
      var f := fates[|fates| - 1];
      CallsOf(fates[..|fates| - 1]) + (if f.Processed? then f.attempts.calls else 0)
  }

  function SleepsOf(fates: seq<Fate>): (r: seq<int>)
  {
    if fates == [] then []
    else
      var f := fates[|fates| - 1];
      SleepsOf(fates[..|fates| - 1]) + (if f.Processed? then f.attempts.sleeps else [])
  }

  /** Everything the pool's counters and queues hold follows from which
      batches were taken: batch j met the limiter's (firstWait + j)-th verdict,
      every counter sums over the fates, and a worker stopped for every lost
      batch and for no other reason. */
  ghost predicate Coherent(env: Env, workers: nat, s: Sim)
  {
    && |s.fates| == |s.taken|
    && s.waits == env.firstWait + |s.taken|
    && (forall j :: 0 <= j < |s.taken| ==> s.fates[j] == Judge(env, s.taken[j], env.firstWait + j))
    && s.results == Outputs(s.fates)
    && s.permits == Admitted(s.fates)
    && s.calls == CallsOf(s.fates)
    && s.sleeps == SleepsOf(s.fates)
    && s.live + LostCount(s.fates) == workers
  }

  /** The summaries of one more fate; a separate lemma keeps `StepCoherent`
      cheap for the solver. */
  lemma SummariesSnoc(fs: seq<Fate>, f: Fate)
    ensures Outputs(fs + [f]) == Outputs(fs) + (if Delivered(f) then [f.attempts.result.value] else [])
    ensures Admitted(fs + [f]) == Admitted(fs) + (if f.Processed? then 1 else 0)
    ensures LostCount(fs + [f]) == LostCount(fs) + (if f.Lost? then 1 else 0)
    ensures CallsOf(fs + [f]) == CallsOf(fs) + (if f.Processed? then f.attempts.calls else 0)
    ensures SleepsOf(fs + [f]) == SleepsOf(fs) + (if f.Processed? then f.attempts.sleeps else [])
  {
    assert (fs + [f])[..|fs|] == fs;
  }

  /** One worker pass keeps the pool coherent and takes the head batch. */
  lemma StepCoherent(env: Env, workers: nat, s: Sim)
    requires Coherent(env, workers, s) && s.tasks != [] && s.live > 0
    ensures Coherent(env, workers, Step(env, s))
    ensures Step(env, s).taken + Step(env, s).tasks == s.taken + s.tasks
    ensures |Step(env, s).tasks| < |s.tasks|
  {
    var fate := Judge(env, s.tasks[0], s.waits);
    JudgedSnoc(env, s.fates, s.taken, fate, s.tasks[0]);
    SummariesSnoc(s.fates, fate);
    TakeHead(s.taken, s.tasks);
  }

  /** Taking the head of the queue keeps taken-then-queued unchanged. */
  lemma TakeHead<T>(taken: seq<T>, tasks: seq<T>)
    requires tasks != []
    ensures (taken + [tasks[0]]) + tasks[1..] == taken + tasks
  {
    assert tasks == [tasks[0]] + tasks[1..];
  }

  /** One more judged batch keeps every fate the verdict on its batch. */
  lemma JudgedSnoc(env: Env, fates: seq<Fate>, taken: seq<Batch>, f: Fate, batch: Batch)
    requires |fates| == |taken| && f == Judge(env, batch, env.firstWait + |taken|)
    requires forall j :: 0 <= j < |taken| ==> fates[j] == Judge(env, taken[j], env.firstWait + j)
    ensures forall j :: 0 <= j < |taken| + 1 ==> (fates + [f])[j] == Judge(env, (taken + [batch])[j], env.firstWait + j)
  {
  }

  /** Running the workers to the end keeps the pool coherent, takes batches
      strictly in queue order, and stops only when the queue is empty or
      every worker has stopped. */
  lemma {:induction false} DrainCoherent(env: Env, workers: nat, s: Sim)
    requires Coherent(env, workers, s)
    ensures Coherent(env, workers, Drain(env, s))
    ensures Drain(env, s).taken + Drain(env, s).tasks == s.taken + s.tasks
    ensures Drain(env, s).tasks == [] || Drain(env, s).live == 0
    decreases |s.tasks|
  {
    if s.tasks != [] && s.live > 0 {
      StepCoherent(env, workers, s);
      DrainCoherent(env, workers, Step(env, s));
    }
  }

  /** What `Run` does with the batches `GenerateTasks` queued: a prefix of
      them is taken, in order, each one with its own limiter verdict; the rest
      stay queued only if every worker stopped on a limiter error (the
      goroutine sending them then blocks for ever). The result queue holds
      exactly the outputs of the delivered batches, in processing order. */
  lemma RunOutcome(env: Env, tasks: seq<Batch>, workers: int)
    ensures var r := Drain(env, Initial(env, tasks, workers));
      && Coherent(env, NonNegative(workers), r)
      && r.taken + r.tasks == tasks
      && (r.tasks != [] ==> r.live == 0 && LostCount(r.fates) == NonNegative(workers))
  {
    DrainCoherent(env, NonNegative(workers), Initial(env, tasks, workers));
  }

  // ---------------------------------------------------------------------
  // Properties of the summaries

  lemma {:induction false} CountsAddUp(fates: seq<Fate>)
    ensures Admitted(fates) + LostCount(fates) == |fates|
  {
    if fates != [] {
      CountsAddUp(fates[..|fates| - 1]);
    }
  }

  lemma {:induction false} CallsWithinBudget(fates: seq<Fate>, budget: nat)
    requires forall j :: 0 <= j < |fates| && fates[j].Processed? ==> fates[j].attempts.calls <= budget
    ensures CallsOf(fates) <= Admitted(fates) * budget
  {
    if fates != [] {
      var init := fates[..|fates| - 1];
      assert forall j :: 0 <= j < |init| ==> init[j] == fates[j];
      CallsWithinBudget(init, budget);
      if fates[|fates| - 1].Processed? {
        assert (Admitted(init) + 1) * budget == Admitted(init) * budget + budget;
      }
    }
  }

  lemma {:induction false} CallsAtLeastPermits(fates: seq<Fate>)
    requires forall j :: 0 <= j < |fates| && fates[j].Processed? ==> fates[j].attempts.calls >= 1
    ensures CallsOf(fates) >= Admitted(fates)
  {
    if fates != [] {
      var init := fates[..|fates| - 1];
      assert forall j :: 0 <= j < |init| ==> init[j] == fates[j];
      CallsAtLeastPermits(init);
    }
  }

  /** One limiter permit per batch, not per attempt: every batch taken either
      got exactly one permit or was lost, the splitter was called at most
      `maxRetries` times per permit, and, when `maxRetries > 0`, at least once
      per permit. */
  lemma PermitsPerBatch(env: Env, workers: nat, s: Sim)
    requires Wired(env) && Coherent(env, workers, s)
    ensures s.permits + LostCount(s.fates) == |s.taken|
    ensures s.calls <= s.permits * NonNegative(env.maxRetries)
    ensures env.maxRetries > 0 ==> s.permits <= s.calls
  {
    CountsAddUp(s.fates);
    forall j | 0 <= j < |s.fates| && s.fates[j].Processed?
      ensures s.fates[j].attempts.calls <= NonNegative(env.maxRetries)
    {
      assert s.fates[j] == Judge(env, s.taken[j], env.firstWait + j);
      RetryFacts(env.respond, s.taken[j], env.maxRetries);
    }
    CallsWithinBudget(s.fates, NonNegative(env.maxRetries));
    if env.maxRetries > 0 {
      forall j | 0 <= j < |s.fates| && s.fates[j].Processed?
        ensures s.fates[j].attempts.calls >= 1
      {
        assert s.fates[j] == Judge(env, s.taken[j], env.firstWait + j);
        RetryFacts(env.respond, s.taken[j], env.maxRetries);
      }
      CallsAtLeastPermits(s.fates);
    }
  }

  lemma {:induction false} OutputsEmpty(fates: seq<Fate>)
    ensures Outputs(fates) == [] <==> forall j :: 0 <= j < |fates| ==> !Delivered(fates[j])
  {
    if fates != [] {
      var init := fates[..|fates| - 1];
      assert forall j :: 0 <= j < |init| ==> init[j] == fates[j];
      OutputsEmpty(init);
    }
  }

  /** At most one result batch per batch processed. */
  lemma {:induction false} OutputsAtMost(fates: seq<Fate>)
    ensures |Outputs(fates)| <= |fates|
  {
    if fates != [] {
      OutputsAtMost(fates[..|fates| - 1]);
    }
  }

  lemma {:induction false} OutputsAll(fates: seq<Fate>, batches: seq<Batch>)
    requires |fates| == |batches|
    requires forall j :: 0 <= j < |fates| ==> Delivered(fates[j]) && fates[j].attempts.result.value == batches[j]
    ensures Outputs(fates) == batches
  {
    if fates != [] {
      var n := |fates| - 1;
      assert forall j :: 0 <= j < n ==> fates[..n][j] == fates[j];
      OutputsAll(fates[..n], batches[..n]);
      assert batches == batches[..n] + [batches[n]];
    }
  }

  /** With `maxRetries <= 0` (the value viper gives a missing setting) the
      splitter is never called and nothing reaches the result queue: every
      batch that gets a permit is dropped with a "failed after 0 retries"
      error. This holds in every state the pool can reach. */
  lemma NoBudgetDeliversNothing(env: Env, workers: nat, s: Sim)
    requires Wired(env) && env.maxRetries <= 0 && Coherent(env, workers, s)
    ensures s.results == [] && s.calls == 0
  {
    forall j | 0 <= j < |s.fates|
      ensures !Delivered(s.fates[j])
    {
      var b := s.taken[j];
      assert s.fates[j] == Judge(env, b, env.firstWait + j);
      RetryFacts(env.respond, b, env.maxRetries);
    }
    OutputsEmpty(s.fates);
    PermitsPerBatch(env, workers, s);
  }

  /** When the limiter admits every call and at least one worker runs, every
      queued batch is taken in order and processed, no worker stops early,
      and batch j's fate is its own `retryTransform` outcome. */
  lemma EveryBatchProcessed(env: Env, tasks: seq<Batch>, workers: int)
    requires workers > 0
    requires forall k :: env.firstWait <= k < env.firstWait + |tasks| ==> env.admit(k)
    ensures var r := Drain(env, Initial(env, tasks, workers));
      && r.tasks == [] && r.taken == tasks && |r.fates| == |tasks| && r.live == workers && r.permits == |tasks|
      && forall j :: 0 <= j < |tasks| ==> r.fates[j] == Processed(env.transform(tasks[j]))
  {
    var r := Drain(env, Initial(env, tasks, workers));
    RunOutcome(env, tasks, workers);
    forall j | 0 <= j < |r.fates|
      ensures r.fates[j].Processed?
    {
      assert r.fates[j] == Judge(env, r.taken[j], env.firstWait + j);
      assert r.taken[j] == tasks[j];
    }
    LostNone(r.fates);
    CountsAddUp(r.fates);
  }

  lemma {:induction false} LostNone(fates: seq<Fate>)
    requires forall j :: 0 <= j < |fates| ==> fates[j].Processed?
    ensures LostCount(fates) == 0
  {
    if fates != [] {
      var init := fates[..|fates| - 1];
      assert forall j :: 0 <= j < |init| ==> init[j] == fates[j];
      LostNone(init);
    }
  }

  /** End to end: with a splitter that returns every batch unchanged at the
      first attempt, a limiter that admits every call, some workers and a
      positive retry budget, the results concatenate back to the input
      documents. */
  lemma IdentitySplitterKeepsDocuments(env: Env, docs: seq<Document>, batchSize: int, workers: int)
    requires Wired(env) && batchSize > 0 && workers > 0 && env.maxRetries > 0
    requires forall b: Batch :: env.respond(b, 0) == Chunks(b)
    requires forall k :: env.firstWait <= k < env.firstWait + |Batches(docs, batchSize)| ==> env.admit(k)
    ensures Flatten(Drain(env, Initial(env, Batches(docs, batchSize), workers)).results) == docs
  {
    var tasks := Batches(docs, batchSize);
    var r := Drain(env, Initial(env, tasks, workers));
    EveryBatchProcessed(env, tasks, workers);
    RunOutcome(env, tasks, workers);
    forall j | 0 <= j < |r.fates|
      ensures Delivered(r.fates[j]) && r.fates[j].attempts.result.value == tasks[j]
    {
      RetryStops(env.respond, tasks[j], env.maxRetries, 0);
    }
    OutputsAll(r.fates, tasks);
    BatchesFlatten(docs, batchSize);
  }

  /** Receiving batch `k` of the pending results moves it to the arrivals. */
  lemma FlattenSnoc(bs: seq<Batch>, b: Batch)
    ensures Flatten(bs + [b]) == Flatten(bs) + b
  {
    FlattenAppend(bs, [b]);
    assert Flatten([b]) == b + Flatten([]);
  }

  lemma MoveOne(arrival: seq<Batch>, pending: seq<Batch>, k: nat)
    requires k < |pending|
    ensures multiset(arrival + [pending[k]]) + multiset(pending[..k] + pending[k + 1..]) == multiset(arrival) + multiset(pending)
  {
    RemoveAt(pending, k);
  }

  // ---------------------------------------------------------------------
  // The pool as the source drives it

  /** `rate.Limiter` as the workers use it: `admit(k)` is whether the k-th
      `Wait` call returns without error (false: the context was cancelled or
      its deadline cannot be met). */
  class Limiter {
    const admit: nat -> bool
    var waits: nat

    constructor (admit: nat -> bool)
      ensures this.admit == admit && waits == 0
    {
      this.admit := admit;
      waits := 0;
    }

    method Wait() returns (ok: bool)
      modifies this
      ensures waits == old(waits) + 1
      ensures ok == admit(old(waits))
    {
      ok := admit(waits);
      waits := waits + 1;
    }
  }

  /** `WorkerPool`. The channels are the sequences `tasks` and `results` with
      a closed flag each; `running` is the WaitGroup's counter. The splitter
      is the oracle `respond`; the ghost fields record what the workers did. */
  class Pool {
    const workers: int
    const maxRetries: int
    const batchSize: int
    const respond: Responder
    const limiter: Limiter
    ghost const firstWait: nat

    var tasks: seq<Batch>
    var tasksClosed: bool
    var results: seq<Batch>
    var resultsClosed: bool
    var running: nat

    ghost var taken: seq<Batch>
    ghost var fates: seq<Fate>
    ghost var permits: nat
    ghost var calls: nat
    ghost var sleeps: seq<int>

    /** `NewWorkerPool`: the settings are taken as given, unchecked. */
    constructor (respond: Responder, limiter: Limiter, workers: int, batchSize: int, maxRetries: int)
      ensures this.respond == respond && this.limiter == limiter
      ensures this.workers == workers && this.batchSize == batchSize && this.maxRetries == maxRetries
      ensures firstWait == limiter.waits
      ensures tasks == [] && !tasksClosed && results == [] && !resultsClosed && running == 0
      ensures taken == [] && fates == [] && permits == 0 && calls == 0 && sleeps == []
    {
      this.respond := respond;
      this.limiter := limiter;
      this.workers := workers;
      this.batchSize := batchSize;
      this.maxRetries := maxRetries;
      firstWait := limiter.waits;
      tasks, tasksClosed, results, resultsClosed, running := [], false, [], false, 0;
      taken, fates, permits, calls, sleeps := [], [], 0, 0, [];
    }

    ghost function Environment(): (r: Env)
    {
      Wiring(respond, limiter.admit, firstWait, maxRetries)
    }

    ghost function State(): (r: Sim)
      reads this, limiter
    {
      Sim(tasks, taken, fates, running, limiter.waits, permits, calls, sleeps, results)
    }

    /** `GenerateTasks`: queue the slices `docs[i:min(i+batchSize, n)]` in
        order, then close the task queue. The source does not check the batch
        size: 0 loops for ever when there are documents, a negative size
        panics on the slice, and with no documents the loop never runs. */
    method GenerateTasks(docs: seq<Document>)
      requires batchSize > 0 && !tasksClosed
      modifies this
      ensures tasks == old(tasks) + Batches(docs, batchSize)
      ensures tasksClosed
      ensures results == old(results) && resultsClosed == old(resultsClosed) && running == old(running)
      ensures taken == old(taken) && fates == old(fates) && permits == old(permits)
      ensures calls == old(calls) && sleeps == old(sleeps)
    {
      var i := 0;
      while i < |docs|
        invariant old(tasks) + Batches(docs, batchSize) == tasks + BatchesFrom(docs, batchSize, i)
        invariant results == old(results) && resultsClosed == old(resultsClosed) && running == old(running)
        invariant taken == old(taken) && fates == old(fates) && permits == old(permits)
        invariant calls == old(calls) && sleeps == old(sleeps) && !tasksClosed
        decreases |docs| - i
      {
        var end := Min(i + batchSize, |docs|);
        tasks := tasks + [docs[i..end]];
        i := i + batchSize;
      }
      tasksClosed := true;
    }

    /** One pass of a worker's loop: take the next batch, wait for a permit
        (on error the worker stops and the batch is lost), then process it. */
    method WorkerStep()
      requires tasks != [] && running > 0
      modifies this, limiter
      ensures State() == Step(Environment(), old(State()))
      ensures tasksClosed == old(tasksClosed) && resultsClosed == old(resultsClosed)
    {
      ghost var s := State();
      var batch := tasks[0];
      tasks := tasks[1..];
      taken := taken + [batch];
      var ok := limiter.Wait();
      assert State() == Take(s);
      if !ok {
        fates := fates + [Lost];
        running := running - 1;
        assert Judge(Environment(), batch, s.waits) == Lost;
        return;
      }
      assert Judge(Environment(), batch, s.waits) == Processed(Retry(respond, batch, maxRetries));
      Process(batch);
    }

    /** The rest of the pass once a permit is granted: run `retryTransform`
        and send the result on success; on failure the worker simply moves on
        to the next batch. */
    method Process(batch: Batch)
      modifies this
      ensures State() == Record(old(State()), Retry(respond, batch, maxRetries))
      ensures tasksClosed == old(tasksClosed) && resultsClosed == old(resultsClosed)
    {
      ghost var s := State();
      var result, c, sl := RetryTransform(respond, batch, maxRetries);
      ghost var a := Attempts(result, c, sl);
      permits, calls, sleeps, fates := permits + 1, calls + c, sleeps + sl, fates + [Processed(a)];
      if result.Success? {
        results := results + [result.value];
      }
      assert a == Retry(respond, batch, maxRetries);
      assert State() == Record(s, a);
    }

    /** `Run`: start the workers and let them drain the task queue; the result
        queue is closed once every worker has returned. */
    method Run()
      requires tasksClosed && !resultsClosed && running == 0
      modifies this, limiter
      ensures State() == Drain(Environment(), old(State()).(live := NonNegative(workers)))
      ensures resultsClosed && tasksClosed
    {
      running := NonNegative(workers);
      ghost var start := State();
      while tasks != [] && running > 0
        invariant Drain(Environment(), State()) == Drain(Environment(), start)
        invariant tasksClosed && !resultsClosed
        decreases |tasks|
      {
        WorkerStep();
      }
      resultsClosed := true;
    }

    /** `AssembleChunks`: receive the result batches until the queue is closed
        and empty, appending each one's chunks. The order of arrival is any
        order of the batches; `arrival` records the one taken. */
    method AssembleChunks() returns (all: Batch, ghost arrival: seq<Batch>)
      requires resultsClosed
      modifies this
      ensures multiset(arrival) == multiset(old(results))
      ensures all == Flatten(arrival)
      ensures multiset(all) == multiset(Flatten(old(results)))
      ensures results == [] && resultsClosed
      ensures tasks == old(tasks) && tasksClosed == old(tasksClosed) && running == old(running)
      ensures taken == old(taken) && fates == old(fates) && permits == old(permits)
      ensures calls == old(calls) && sleeps == old(sleeps)
    {
      var pending := results;
      all, arrival := [], [];
      while pending != []
        invariant multiset(arrival) + multiset(pending) == multiset(old(results))
        invariant all == Flatten(arrival)
        modifies {}
        decreases |pending|
      {
        var k :| 0 <= k < |pending|;
        var batch := pending[k];
        FlattenSnoc(arrival, batch);
        MoveOne(arrival, pending, k);
        all, arrival := all + batch, arrival + [batch];
        pending := pending[..k] + pending[k + 1..];
      }
      assert multiset(arrival) == multiset(old(results));
      FlattenPermutation(arrival, old(results));
      results := [];
    }
  }
}
