/** The lazy loader of `src/utils/lazyWithRetry.ts`: a dynamic import that is
    tried again, a bounded number of times, when it fails to fetch its chunk.

    The importer is a fixed sequence of outcomes, `importer(n)` being what its
    `n`-th invocation settles to; the delay between tries, the promises and
    React's `lazy` are not modelled, so `load` becomes a loop. */
module LazyRetry {
  import opened Wrappers
  import opened ChunkErrors

  /** The `options` argument; an absent property is `None`. */
  datatype LazyRetryOptions = LazyRetryOptions(retries: Option<int>, retryDelayMs: Option<int>)

  /** `options = {}` */
  const NoOptions := LazyRetryOptions(None, None)

  const DefaultRetries := 1
  const DefaultRetryDelayMs := 1200

  /** What one invocation of the importer settles to. */
  datatype ImportOutcome<M> = Resolved(value: M) | Rejected(error: Thrown)

  /** What the promise returned by `load` settles to. */
  datatype LoadResult<M> = Loaded(value: M) | Failed(error: Thrown)

  /** A rejection that `load` answers with another try, given the attempts
      already used and the test that tells a chunk error (`isChunkError` in
      the loader; the lemmas below hold whatever the test is). */
  predicate Retryable<M>(o: ImportOutcome<M>, isChunk: Thrown -> bool, attempt: int, retries: int) {
    o.Rejected? && isChunk(o.error) && attempt < retries
  }

  /** The most attempts that can ever be used: a negative `retries` allows none. */
  function RetryBudget(retries: int): nat {
    if retries < 0 then 0 else retries
  }

  /** The outcome of one `load` and the counters after it. */
  datatype LoadRun<M> = LoadRun(result: LoadResult<M>, invocations: nat, attempt: int)

  /** `load`, started when `invocations` importer calls have been made and
      `attempt` retries used. */
  function LoadFrom<M>(importer: nat -> ImportOutcome<M>, isChunk: Thrown -> bool, invocations: nat, attempt: int, retries: int): LoadRun<M>
    requires 0 <= attempt <= RetryBudget(retries)
    decreases RetryBudget(retries) - attempt
  {
    var o := importer(invocations);
    if Retryable(o, isChunk, attempt, retries) then LoadFrom(importer, isChunk, invocations + 1, attempt + 1, retries)
    else LoadRun(if o.Resolved? then Loaded(o.value) else Failed(o.error), invocations + 1, attempt)
  }

  /** One step of `load`: the first outcome is either retried or settles it. */
  lemma LoadStep<M>(importer: nat -> ImportOutcome<M>, isChunk: Thrown -> bool, invocations: nat, attempt: int, retries: int)
    requires 0 <= attempt <= RetryBudget(retries)
    ensures Retryable(importer(invocations), isChunk, attempt, retries) ==>
      LoadFrom(importer, isChunk, invocations, attempt, retries) == LoadFrom(importer, isChunk, invocations + 1, attempt + 1, retries)
    ensures importer(invocations).Resolved? ==>
      LoadFrom(importer, isChunk, invocations, attempt, retries) == LoadRun(Loaded(importer(invocations).value), invocations + 1, attempt)
    ensures importer(invocations).Rejected? && !Retryable(importer(invocations), isChunk, attempt, retries) ==>
      LoadFrom(importer, isChunk, invocations, attempt, retries) == LoadRun(Failed(importer(invocations).error), invocations + 1, attempt)
  {
  }

  /** One load invokes the importer once plus once per retry, retries at most
      until the budget is used up, and so calls the importer at most
      `retries + 1` times. */
  lemma {:induction false} LoadIsBounded<M>(importer: nat -> ImportOutcome<M>, isChunk: Thrown -> bool, invocations: nat, attempt: int, retries: int)
    requires 0 <= attempt <= RetryBudget(retries)
    ensures var run := LoadFrom(importer, isChunk, invocations, attempt, retries);
      && attempt <= run.attempt <= RetryBudget(retries)
      && run.invocations - invocations == run.attempt - attempt + 1
      && run.invocations - invocations <= RetryBudget(retries) - attempt + 1
    decreases RetryBudget(retries) - attempt
  {
    LoadStep(importer, isChunk, invocations, attempt, retries);
    if Retryable(importer(invocations), isChunk, attempt, retries) {
      LoadIsBounded(importer, isChunk, invocations + 1, attempt + 1, retries);
    }
  }

  /** One load retries exactly the invocations before its last one: each of
      them was a chunk error that found a retry left, and the last is not. */
  lemma {:induction false} LoadRetriesUntilTerminal<M>(importer: nat -> ImportOutcome<M>, isChunk: Thrown -> bool, invocations: nat, attempt: int, retries: int)
    requires 0 <= attempt <= RetryBudget(retries)
    ensures var run := LoadFrom(importer, isChunk, invocations, attempt, retries);
      && invocations < run.invocations
      && (forall k :: invocations <= k < run.invocations - 1 ==>
            Retryable(importer(k), isChunk, attempt + (k - invocations), retries))
      && !Retryable(importer(run.invocations - 1), isChunk, run.attempt, retries)
    decreases RetryBudget(retries) - attempt
  {
    if Retryable(importer(invocations), isChunk, attempt, retries) {
      LoadRetriesUntilTerminal(importer, isChunk, invocations + 1, attempt + 1, retries);
    }
  }

  /** One load settles with its last invocation: a success passes its module
      on unchanged, a rejection is rethrown as it is. */
  lemma {:induction false} LoadSettlesWithLastOutcome<M>(importer: nat -> ImportOutcome<M>, isChunk: Thrown -> bool, invocations: nat, attempt: int, retries: int)
    requires 0 <= attempt <= RetryBudget(retries)
    ensures var run := LoadFrom(importer, isChunk, invocations, attempt, retries);
      && invocations < run.invocations
      && (match importer(run.invocations - 1)
          case Resolved(m) => run.result == Loaded(m)
          case Rejected(e) => run.result == Failed(e))
    decreases RetryBudget(retries) - attempt
  {
    if Retryable(importer(invocations), isChunk, attempt, retries) {
      LoadSettlesWithLastOutcome(importer, isChunk, invocations + 1, attempt + 1, retries);
    }
  }

  /** A failure that is not a chunk error is rethrown at once, without
      touching `attempt`. */
  lemma OtherErrorRethrownAtOnce<M>(importer: nat -> ImportOutcome<M>, isChunk: Thrown -> bool, invocations: nat, attempt: int, retries: int)
    requires 0 <= attempt <= RetryBudget(retries)
    requires importer(invocations).Rejected? && !isChunk(importer(invocations).error)
    ensures LoadFrom(importer, isChunk, invocations, attempt, retries) ==
              LoadRun(Failed(importer(invocations).error), invocations + 1, attempt)
  {
  }

  /** `attempt` is never reset: once the retries are used up, every later
      load makes a single invocation and rethrows a chunk error at once. */
  lemma ExhaustedLoaderNeverRetries<M>(importer: nat -> ImportOutcome<M>, isChunk: Thrown -> bool, invocations: nat, attempt: int, retries: int)
    requires 0 <= attempt <= RetryBudget(retries)
    requires retries <= attempt
    ensures var run := LoadFrom(importer, isChunk, invocations, attempt, retries);
      && run.invocations == invocations + 1
      && run.attempt == attempt
      && (importer(invocations).Rejected? ==> run.result == Failed(importer(invocations).error))
  {
  }

  /** The closure `lazyWithRetry` builds around one importer. */
  class LazyLoader<M> {
    const importer: nat -> ImportOutcome<M>
    const isChunk: Thrown -> bool   // the `isChunkError` the closure calls
    const retries: int
    const retryDelayMs: int
    var attempt: int        // the closure's `attempt`, shared by every `load`
    var invocations: nat    // importer calls made so far

    ghost predicate Valid()
      reads this
    {
      0 <= attempt <= RetryBudget(retries)
    }

    /** `lazyWithRetry(importer, options)`: the options default to one retry
        after 1200 ms, and `attempt` starts at 0. */
    constructor (importer: nat -> ImportOutcome<M>, options: LazyRetryOptions)
      ensures Valid()
      ensures this.importer == importer && isChunk == IsChunkError
      ensures retries == (if options.retries.Some? then options.retries.value else DefaultRetries)
      ensures retryDelayMs == (if options.retryDelayMs.Some? then options.retryDelayMs.value else DefaultRetryDelayMs)
      ensures options == NoOptions ==> retries == 1 && retryDelayMs == 1200
      ensures attempt == 0 && invocations == 0
    {
      this.importer := importer;
      isChunk := IsChunkError;
      retries := options.retries.GetOr(DefaultRetries);
      retryDelayMs := options.retryDelayMs.GetOr(DefaultRetryDelayMs);
      attempt := 0;
      invocations := 0;
    }

    /** `load`: invoke the importer; on a chunk error with a retry left, count
        the retry and invoke it again; otherwise settle. */
    method Load() returns (r: LoadResult<M>)
      requires Valid()
      modifies this
      ensures Valid()
      ensures LoadRun(r, invocations, attempt) == LoadFrom(importer, isChunk, old(invocations), old(attempt), retries)
      ensures old(attempt) <= attempt
      ensures invocations - old(invocations) == attempt - old(attempt) + 1
    {
      ghost var run := LoadFrom(importer, isChunk, invocations, attempt, retries);
      LoadIsBounded(importer, isChunk, invocations, attempt, retries);
      while true
        invariant Valid()
        invariant old(attempt) <= attempt
        invariant invocations - old(invocations) == attempt - old(attempt)
        invariant LoadFrom(importer, isChunk, invocations, attempt, retries) == run
        decreases RetryBudget(retries) - attempt
      {
        LoadStep(importer, isChunk, invocations, attempt, retries);
        var outcome := importer(invocations);
        invocations := invocations + 1;
        match outcome
        case Resolved(m) =>
          return Loaded(m);
        case Rejected(e) =>
          if !isChunk(e) || attempt >= retries {
            return Failed(e);
          }
          attempt := attempt + 1;
      }
    }
  }

  /** A loader with the default options whose importer's first three
      invocations fail with a chunk error, the fourth succeeding: its first
      load retries once, then rethrows; the second load does not retry at
      all and rethrows the third failure. */
  method DefaultLoaderGivesUpAfterOneRetry(e: Thrown, m: int) returns (first: LoadResult<int>, second: LoadResult<int>, calls: nat)
    requires IsChunkError(e)
    ensures first == Failed(e) && second == Failed(e) && calls == 3
  {
    var importer := (n: nat) => if n < 3 then Rejected(e) else Resolved(m);
    var loader := new LazyLoader(importer, NoOptions);
    first := loader.Load();
    second := loader.Load();
    calls := loader.invocations;
  }
}
