/** `retryTransform`: call the splitter on one batch, retry only errors whose
    text contains "429" after a backoff that starts at two seconds and doubles,
    give up at once on any other error, and make at most `maxRetries` calls. */
module RetryLoop {
  import opened Common

  /** What the external splitter answers to one `Transform` call. */
  datatype Response = Chunks(docs: Batch) | Error(message: string)

  /** The two errors `retryTransform` returns. `RetriesExhausted` carries the
      last error seen, which is nil (None) when no call was made. */
  datatype RetryError =
    | NonRetryable(cause: string)
    | RetriesExhausted(maxRetries: int, last: Option<string>)

  /** The outcome of one `retryTransform` call, with what it did on the way:
      how many times it called the splitter and every duration it slept. */
  datatype Attempts = Attempts(result: Result<Batch, RetryError>, calls: nat, sleeps: seq<int>)

  /** The splitter seen from outside: `respond(batch, k)` is its answer to the
      k-th attempt (counting from 0) at `batch`. */
  type Responder = (Batch, nat) -> Response

  /** `2 * time.Second`, in nanoseconds (a time.Duration is an int64). */
  const InitialBackoff: int := 2_000_000_000

  /** The transient class: an error whose text contains "429". */
  predicate IsRateLimited(message: string)
  {
    Contains(message, "429")
  }

  /** The backoff in force before attempt `i`: two seconds doubled `i` times,
      each doubling done on an int64 count of nanoseconds. */
  function Backoff(i: nat): (r: int)
  {
    WrapInt64(InitialBackoff * Pow2(i))
  }

  function Pow2(k: nat): (p: nat)
  {
    if k == 0 then 1 else 2 * Pow2(k - 1)
  }

  /** The loop of `retryTransform` once `i` calls have been made, `last`
      being the last error seen. */
  function RetryFrom(respond: Responder, batch: Batch, maxRetries: int, i: nat, last: Option<string>): (a: Attempts)
    decreases maxRetries - i
  {
    if i >= maxRetries then Attempts(Failure(RetriesExhausted(maxRetries, last)), i, [])
    else match respond(batch, i)
      case Chunks(c) => Attempts(Success(c), i + 1, [])
      case Error(m) =>
        if IsRateLimited(m) then
          var rest := RetryFrom(respond, batch, maxRetries, i + 1, Some(m));
          rest.(sleeps := [Backoff(i)] + rest.sleeps)
        else Attempts(Failure(NonRetryable(m)), i + 1, [])
  }

  /** Everything one `retryTransform(ctx, splitter, batch, maxRetries)` call does. */
  function Retry(respond: Responder, batch: Batch, maxRetries: int): (a: Attempts)
  {
    RetryFrom(respond, batch, maxRetries, 0, None)
  }

  /** The loop as the source runs it: `backoff` is doubled in place (with
      int64 wrap-around), `err` keeps the last error. */
  method RetryTransform(respond: Responder, batch: Batch, maxRetries: int)
    returns (result: Result<Batch, RetryError>, ghost calls: nat, ghost sleeps: seq<int>)
    ensures result == Retry(respond, batch, maxRetries).result
    ensures Attempts(result, calls, sleeps) == Retry(respond, batch, maxRetries)
  {
    var backoff := InitialBackoff;
    var last: Option<string> := None;
    var i := 0;
    sleeps := [];
    while i < maxRetries
      invariant backoff == Backoff(i)
      invariant
        var rest := RetryFrom(respond, batch, maxRetries, i, last);
        Retry(respond, batch, maxRetries) == rest.(sleeps := sleeps + rest.sleeps)
      decreases maxRetries - i
    {
      var response := respond(batch, i);
      match response
      case Chunks(c) =>
        result, calls := Success(c), i + 1;
        return;
      case Error(m) =>
        if IsRateLimited(m) {
          ghost var rest := RetryFrom(respond, batch, maxRetries, i + 1, Some(m));
          assert sleeps + ([backoff] + rest.sleeps) == (sleeps + [backoff]) + rest.sleeps;
          sleeps := sleeps + [backoff];
          NextBackoff(i);
          backoff := WrapInt64(2 * backoff);
          last := Some(m);
          i := i + 1;
        } else {
          result, calls := Failure(NonRetryable(m)), i + 1;
          return;
        }
    }
    result, calls := Failure(RetriesExhausted(maxRetries, last)), i;
  }

  lemma NextBackoff(i: nat)
    ensures WrapInt64(2 * Backoff(i)) == Backoff(i + 1)
  {
    var x := InitialBackoff * Pow2(i);
    assert InitialBackoff * Pow2(i + 1) == 2 * x;
    var w := WrapInt64(x);
    var m := 0x1_0000_0000_0000_0000;
    var t := (w - x) / m;
    assert w == x + t * m;
    assert 2 * w == 2 * x + (2 * t) * m;
    WrapCongruent(2 * w, 2 * x, 2 * t);
  }

  // ---------------------------------------------------------------------
  // What the retry loop promises

  predicate Exhausted(a: Attempts)
  {
    a.result.Failure? && a.result.error.RetriesExhausted?
  }

  /** The first `k` attempts at `batch` all failed with a "429" error. */
  ghost predicate RateLimitedUpTo(respond: Responder, batch: Batch, k: nat)
  {
    forall j :: 0 <= j < k ==> respond(batch, j).Error? && IsRateLimited(respond(batch, j).message)
  }

  /** The durations slept before the first `n` retries: 2s, 4s, 8s, ... */
  function Schedule(n: nat): (s: seq<int>)
  {
    seq(n, j requires 0 <= j => Backoff(j))
  }

  /** How a non-"429" answer ends the loop. */
  function StopWith(r: Response): (outcome: Result<Batch, RetryError>)
  {
    match r
    case Chunks(c) => Success(c)
    case Error(m) => Failure(NonRetryable(m))
  }

  lemma {:induction false} RetryFromFacts(respond: Responder, batch: Batch, maxRetries: int, i: nat, last: Option<string>)
    ensures var a := RetryFrom(respond, batch, maxRetries, i, last);
      && i <= a.calls && (a.calls == i || a.calls <= maxRetries)
      && (a.result.Success? ==> a.calls > i && respond(batch, a.calls - 1) == Chunks(a.result.value))
      && (a.result.Failure? && a.result.error.NonRetryable? ==>
            a.calls > i && respond(batch, a.calls - 1) == Error(a.result.error.cause) && !IsRateLimited(a.result.error.cause))
      && (Exhausted(a) ==> a.calls == NonNegative(maxRetries - i) + i && |a.sleeps| == a.calls - i)
      && (!Exhausted(a) ==> |a.sleeps| == a.calls - i - 1)
      && (forall j :: i <= j < a.calls - 1 ==> respond(batch, j).Error? && IsRateLimited(respond(batch, j).message))
    decreases maxRetries - i
  {
    if i < maxRetries && respond(batch, i).Error? && IsRateLimited(respond(batch, i).message) {
      RetryFromFacts(respond, batch, maxRetries, i + 1, Some(respond(batch, i).message));
    }
  }

  /** What every `retryTransform` call does, whatever the splitter answers:
      it calls the splitter at most `maxRetries` times (never when
      `maxRetries <= 0`); every call but the last got a "429" error; a
      success returns the last call's chunks; a non-retryable error carries
      the last call's error, which lacks "429"; running out of attempts means
      all `maxRetries` calls got "429". It sleeps once after every "429"
      answer, the last one included. */
  lemma RetryFacts(respond: Responder, batch: Batch, maxRetries: int)
    ensures var a := Retry(respond, batch, maxRetries);
      && a.calls <= NonNegative(maxRetries)
      && (maxRetries <= 0 ==> a.calls == 0 && Exhausted(a))
      && (a.result.Success? ==> a.calls > 0 && respond(batch, a.calls - 1) == Chunks(a.result.value))
      && (a.result.Failure? && a.result.error.NonRetryable? ==>
            a.calls > 0 && respond(batch, a.calls - 1) == Error(a.result.error.cause) && !IsRateLimited(a.result.error.cause))
      && (Exhausted(a) ==> a.calls == NonNegative(maxRetries) && |a.sleeps| == a.calls && RateLimitedUpTo(respond, batch, a.calls))
      && (!Exhausted(a) ==> |a.sleeps| == a.calls - 1 && RateLimitedUpTo(respond, batch, a.calls - 1))
  {
    RetryFromFacts(respond, batch, maxRetries, 0, None);
    var a := Retry(respond, batch, maxRetries);
    if Exhausted(a) && a.calls > 0 {
      var k := a.calls - 1;
      if !(respond(batch, k).Error? && IsRateLimited(respond(batch, k).message)) {
        RetryStops(respond, batch, maxRetries, k);
        assert false;
      }
    }
  }

  lemma {:induction false} RetryFromStops(respond: Responder, batch: Batch, maxRetries: int, i: nat, last: Option<string>, k: nat)
    requires i <= k < maxRetries && RateLimitedUpTo(respond, batch, k)
    requires !(respond(batch, k).Error? && IsRateLimited(respond(batch, k).message))
    ensures RetryFrom(respond, batch, maxRetries, i, last) == Attempts(StopWith(respond(batch, k)), k + 1, Schedule(k)[i..])
    decreases k - i
  {
    if i < k {
      RetryFromStops(respond, batch, maxRetries, i + 1, Some(respond(batch, i).message), k);
      assert Schedule(k)[i..] == [Backoff(i)] + Schedule(k)[i + 1..];
    }
  }

  lemma {:induction false} RetryFromExhausts(respond: Responder, batch: Batch, maxRetries: int, i: nat, last: Option<string>)
    requires i <= maxRetries && RateLimitedUpTo(respond, batch, maxRetries)
    ensures RetryFrom(respond, batch, maxRetries, i, last)
         == Attempts(Failure(RetriesExhausted(maxRetries, if i < maxRetries then Some(respond(batch, maxRetries - 1).message) else last)),
                     maxRetries, Schedule(maxRetries)[i..])
    decreases maxRetries - i
  {
    if i < maxRetries {
      var m := respond(batch, i).message;
      RetryFromExhausts(respond, batch, maxRetries, i + 1, Some(m));
      assert Schedule(maxRetries)[i..] == [Backoff(i)] + Schedule(maxRetries)[i + 1..];
    }
  }

  /** The first successful answer is returned at once: if the first k attempts
      got "429" errors and attempt k (still within the budget) got anything
      else, the call made exactly k + 1 attempts, slept k times with the
      doubling backoff, and returns attempt k's chunks, or a non-retryable
      error carrying attempt k's error. */
  lemma RetryStops(respond: Responder, batch: Batch, maxRetries: int, k: nat)
    requires k < maxRetries && RateLimitedUpTo(respond, batch, k)
    requires !(respond(batch, k).Error? && IsRateLimited(respond(batch, k).message))
    ensures Retry(respond, batch, maxRetries) == Attempts(StopWith(respond(batch, k)), k + 1, Schedule(k))
  {
    RetryFromStops(respond, batch, maxRetries, 0, None, k);
  }

  /** `maxRetries` "429" errors in a row exhaust the budget: exactly
      `maxRetries` attempts, a sleep after every one of them (the last
      included), and an error that wraps the last "429" error; with
      `maxRetries <= 0` no attempt is made and the error wraps nil. */
  lemma RetryExhausts(respond: Responder, batch: Batch, maxRetries: int)
    requires RateLimitedUpTo(respond, batch, NonNegative(maxRetries))
    ensures var n := NonNegative(maxRetries);
      Retry(respond, batch, maxRetries)
      == Attempts(Failure(RetriesExhausted(maxRetries, if n > 0 then Some(respond(batch, n - 1).message) else None)), n, Schedule(n))
  {
    if maxRetries >= 0 {
      RetryFromExhausts(respond, batch, maxRetries, 0, None);
    }
  }

  /** The backoff doubles exactly (2s, 4s, 8s, ...) for as long as it fits in
      an int64 count of nanoseconds, which covers the first 33 sleeps. */
  lemma BackoffDoubles(j: nat)
    requires j <= 32
    ensures Backoff(j) == InitialBackoff * Pow2(j)
    ensures j > 0 ==> Backoff(j) == 2 * Backoff(j - 1)
  {
    BackoffExact(j);
    if j > 0 {
      BackoffExact(j - 1);
      assert InitialBackoff * Pow2(j) == 2 * (InitialBackoff * Pow2(j - 1));
    }
  }

  lemma BackoffExact(j: nat)
    requires j <= 32
    ensures Backoff(j) == InitialBackoff * Pow2(j)
  {
    Pow2Mono(j, 32);
    Pow2At32();
    var p := Pow2(j);
    MulMono(p, 0x1_0000_0000, InitialBackoff);
    assert InitialBackoff * p == p * InitialBackoff;
  }

  lemma Pow2At32()
    ensures Pow2(32) == 0x1_0000_0000
  {
    Pow2Square(1);
    Pow2Square(2);
    Pow2Square(4);
    Pow2Square(8);
    Pow2Square(16);
  }

  lemma Pow2Square(a: nat)
    ensures Pow2(a + a) == Pow2(a) * Pow2(a)
  {
    Pow2Add(a, a);
  }

  lemma {:induction false} Pow2Add(a: nat, b: nat)
    ensures Pow2(a + b) == Pow2(a) * Pow2(b)
    decreases b
  {
    if b > 0 {
      Pow2Add(a, b - 1);
      assert Pow2(a + b) == 2 * Pow2(a + b - 1);
    }
  }

  lemma {:induction false} Pow2Mono(a: nat, b: nat)
    requires a <= b
    ensures Pow2(a) <= Pow2(b)
    decreases b - a
  {
    if a < b {
      Pow2Mono(a, b - 1);
    }
  }

  lemma WrapCongruent(x: int, y: int, t: int)
    requires x == y + t * 0x1_0000_0000_0000_0000
    ensures WrapInt64(x) == WrapInt64(y)
  {
    var m := 0x1_0000_0000_0000_0000;
    var a, b := x - Int64Min, y - Int64Min;
    assert a == b + t * m;
    ModShift(b, t, m);
  }

  lemma ModShift(b: int, t: int, m: int)
    requires m > 0
    ensures (b + t * m) % m == b % m
  {
    var q, r := b / m, b % m;
    assert b + t * m == (q + t) * m + r;
    ModUnique(b + t * m, m, q + t, r);
  }

  lemma ModUnique(x: int, d: int, q: int, r: int)
    requires d > 0 && 0 <= r < d && x == q * d + r
    ensures x % d == r
  {
    var q', r' := x / d, x % d;
    assert x == q' * d + r';
    if q' < q {
      MulMono(q' + 1, q, d);
    } else if q' > q {
      MulMono(q + 1, q', d);
    }
  }
}
