/**
 One batch of callbacks: prepare in order, run the bodies over a number of workers,
 validate, then publish in order.
 */
module BatchExecution {
  import opened Basics
  import opened StableSort

  datatype Failure = CallbackError | Panic

  datatype BatchError<E> =
    | NoWorkers
    | Callback(index: nat, failure: Failure)
    | BeforeCommit(error: E)

  datatype Failed = Failed(position: nat, failure: Failure)

  datatype Numbered<T> = Numbered(position: nat, value: T)

  function PositionOf<T>(x: Numbered<T>): int { x.position }

  // ---------------------------------------------------------------- one after the other

  /** Running the jobs in order: the results of all of them, or the first failure. */
  function Sequential<J, R>(jobs: seq<J>, run: J -> Result<R, Failure>): Result<seq<R>, Failed> {
    if jobs == [] then Ok([])
    else
      var last := |jobs| - 1;
      match Sequential(jobs[..last], run)
      case Err(e) => Err(e)
      case Ok(done) =>
        match run(jobs[last])
        case Ok(r) => Ok(done + [r])
        case Err(f) => Err(Failed(last, f))
  }

  lemma {:induction false} FailureStays<J, R>(jobs: seq<J>, run: J -> Result<R, Failure>, n: nat)
    requires n <= |jobs| && Sequential(jobs[..n], run).Err?
    ensures Sequential(jobs, run) == Sequential(jobs[..n], run)
  {
    if n == |jobs| {
      assert jobs[..n] == jobs;
    } else {
      var shorter := jobs[..|jobs| - 1];
      assert shorter[..n] == jobs[..n];
      FailureStays(shorter, run, n);
    }
  }

  /** The sequential outcome in terms of the single bodies. */
  lemma {:induction false} SequentialMeans<J, R>(jobs: seq<J>, run: J -> Result<R, Failure>)
    ensures match Sequential(jobs, run)
      case Ok(done) => |done| == |jobs| && forall k :: 0 <= k < |jobs| ==> run(jobs[k]) == Ok(done[k])
      case Err(failed) =>
        && failed.position < |jobs| && run(jobs[failed.position]) == Err(failed.failure)
        && forall k :: 0 <= k < failed.position ==> run(jobs[k]).Ok?
  {
    if jobs != [] {
      SequentialMeans(jobs[..|jobs| - 1], run);
    }
  }

  // ---------------------------------------------------------------- over several workers

  function Ran<J, R>(jobs: seq<Numbered<J>>, run: J -> Result<R, Failure>): (r: seq<Numbered<Result<R, Failure>>>)
    ensures |r| == |jobs|
  {
    seq(|jobs|, k requires 0 <= k < |jobs| => Numbered(jobs[k].position, run(jobs[k].value)))
  }

  /** A worker runs its chunk in order; a panic in one body does not stop the rest. */
  method RunChunk<J, R>(jobs: seq<Numbered<J>>, run: J -> Result<R, Failure>)
    returns (r: seq<Numbered<Result<R, Failure>>>)
    ensures r == Ran(jobs, run)
  {
    r := [];
    for k := 0 to |jobs|
      invariant r == Ran(jobs[..k], run)
    {
      r := r + [Numbered(jobs[k].position, run(jobs[k].value))];
    }
    assert jobs[..|jobs|] == jobs;
  }

  /** Where the round-robin split puts position `p` of the first `n` jobs. */
  ghost function Share<T>(items: seq<T>, n: nat, p: int, here: bool): seq<Numbered<T>>
    requires n <= |items|
  {
    if 0 <= p < n && here then [Numbered(p, items[p])] else []
  }

  lemma {:induction false} PushToChunk<J>(chunk: seq<Numbered<J>>, jobs: seq<J>, n: nat, p: int, here: bool)
    requires n < |jobs| && WithKey(chunk, PositionOf, p) == Share(jobs, n, p, here) && (p == n ==> here)
    ensures WithKey(chunk + [Numbered(n, jobs[n])], PositionOf, p) == Share(jobs, n + 1, p, here)
  {
    WithKeyConcat(chunk, [Numbered(n, jobs[n])], PositionOf, p);
    WithKeyOne(Numbered(n, jobs[n]), PositionOf, p);
  }

  /** Splits the jobs round-robin over `count` chunks. */
  method Split<J>(jobs: seq<J>, count: nat) returns (chunks: seq<seq<Numbered<J>>>)
    requires count > 0
    ensures |chunks| == count
    ensures forall c, p :: 0 <= c < count ==>
      WithKey(chunks[c], PositionOf, p) == Share(jobs, |jobs|, p, p % count == c)
  {
    chunks := seq(count, _ => []);
    for n := 0 to |jobs|
      invariant |chunks| == count
      invariant forall c, p :: 0 <= c < count ==> WithKey(chunks[c], PositionOf, p) == Share(jobs, n, p, p % count == c)
    {
      var c := n % count;
      var before := chunks;
      chunks := chunks[c := chunks[c] + [Numbered(n, jobs[n])]];
      forall d, p | 0 <= d < count
        ensures WithKey(chunks[d], PositionOf, p) == Share(jobs, n + 1, p, p % count == d)
      {
        assert WithKey(before[d], PositionOf, p) == Share(jobs, n, p, p % count == d);
        if d == c {
          PushToChunk(before[c], jobs, n, p, p % count == c);
        }
      }
    }
  }

  lemma {:induction false} RanWithKey<J, R>(jobs: seq<Numbered<J>>, run: J -> Result<R, Failure>, p: int)
    ensures WithKey(Ran(jobs, run), PositionOf, p) == Ran(WithKey(jobs, PositionOf, p), run)
  {
    if jobs != [] {
      var last := |jobs| - 1;
      RanWithKey(jobs[..last], run, p);
      assert Ran(jobs, run)[..last] == Ran(jobs[..last], run);
    }
  }

  function Number<T>(values: seq<T>): (r: seq<Numbered<T>>)
    ensures |r| == |values| && forall k :: 0 <= k < |values| ==> r[k] == Numbered(k, values[k])
  {
    seq(|values|, k requires 0 <= k < |values| => Numbered(k, values[k]))
  }

  lemma {:induction false} NumberWithKey<T>(values: seq<T>, p: int)
    ensures WithKey(Number(values), PositionOf, p) == if 0 <= p < |values| then [Numbered(p, values[p])] else []
  {
    if values != [] {
      var last := |values| - 1;
      NumberWithKey(values[..last], p);
      assert Number(values)[..last] == Number(values[..last]);
    }
  }

  /** Items that hold every position once are sorted into the order of positions. */
  lemma {:induction false} SortsByPosition<T>(items: seq<Numbered<T>>, values: seq<T>)
    requires forall p :: WithKey(items, PositionOf, p) == if 0 <= p < |values| then [Numbered(p, values[p])] else []
    ensures SortBy(items, PositionOf) == Number(values)
  {
    forall p ensures WithKey(Number(values), PositionOf, p) == WithKey(items, PositionOf, p) {
      NumberWithKey(values, p);
    }
    StableSortIsSortBy(Number(values), items, PositionOf);
  }

  function Results<J, R>(jobs: seq<J>, run: J -> Result<R, Failure>): (r: seq<Result<R, Failure>>)
    ensures |r| == |jobs|
  {
    seq(|jobs|, k requires 0 <= k < |jobs| => run(jobs[k]))
  }

  /** Every chunk on its worker, joined in worker order. */
  method RunChunks<J, R>(chunks: seq<seq<Numbered<J>>>, ghost jobs: seq<J>, run: J -> Result<R, Failure>)
    returns (results: seq<Numbered<Result<R, Failure>>>)
    requires |chunks| > 0
    requires forall c, p :: 0 <= c < |chunks| ==>
      WithKey(chunks[c], PositionOf, p) == Share(jobs, |jobs|, p, p % |chunks| == c)
    ensures forall p :: WithKey(results, PositionOf, p) == if 0 <= p < |jobs| then [Numbered(p, run(jobs[p]))] else []
  {
    results := [];
    for c := 0 to |chunks|
      invariant forall p ::
        WithKey(results, PositionOf, p) == if 0 <= p < |jobs| && p % |chunks| < c then [Numbered(p, run(jobs[p]))] else []
    {
      var before := results;
      var more := RunChunk(chunks[c], run);
      results := results + more;
      forall p
        ensures WithKey(results, PositionOf, p) == if 0 <= p < |jobs| && p % |chunks| < c + 1 then [Numbered(p, run(jobs[p]))] else []
      {
        WithKeyConcat(before, more, PositionOf, p);
        RanWithKey(chunks[c], run, p);
        assert WithKey(chunks[c], PositionOf, p) == Share(jobs, |jobs|, p, p % |chunks| == c);
      }
    }
  }

  /**
   `run_prepared_batch`: for any positive number of workers, the ordered results or the
   lowest-position failure of running the jobs one after the other.
   */
  method RunPreparedBatch<J, R>(jobs: seq<J>, run: J -> Result<R, Failure>, workers: nat)
    returns (r: Result<seq<R>, Failed>)
    requires workers > 0
    ensures r == Sequential(jobs, run)
  {
    if jobs == [] {
      return Ok([]);
    }
    var count := if workers < |jobs| then workers else |jobs|;
    var chunks := Split(jobs, count);
    var results := RunChunks(chunks, jobs, run);
    SortsByPosition(results, Results(jobs, run));
    results := SortBy(results, PositionOf);
    var done: seq<R> := [];
    for k := 0 to |results|
      invariant Sequential(jobs[..k], run) == Ok(done)
    {
      assert jobs[..k + 1][..k] == jobs[..k];
      match results[k].value {
        case Ok(v) => done := done + [v];
        case Err(f) =>
          FailureStays(jobs, run, k + 1);
          return Err(Failed(results[k].position, f));
      }
    }
    assert jobs[..|jobs|] == jobs;
    return Ok(done);
  }

  // ---------------------------------------------------------------- the whole batch

  /** The callbacks whose required inputs are ready once updated, in the supplied order. */
  function Ready(callbacks: seq<nat>, prepare: nat -> bool): seq<nat> {
    if callbacks == [] then []
    else Ready(callbacks[..|callbacks| - 1], prepare)
         + if prepare(callbacks[|callbacks| - 1]) then [callbacks[|callbacks| - 1]] else []
  }

  /** The batch as a function: bodies, then validation of the whole batch, then publication. */
  function Batch<R, V, E>(callbacks: seq<nat>, prepare: nat -> bool, run: nat -> Result<R, Failure>,
                          workers: nat, validate: seq<nat> -> Result<V, E>): Result<(seq<nat>, V), BatchError<E>>
  {
    if workers == 0 then Err(NoWorkers)
    else
      var executed := Ready(callbacks, prepare);
      match Sequential(executed, run)
      case Err(failed) => Err(Callback(if failed.position < |executed| then executed[failed.position] else 0, failed.failure))
      case Ok(_) =>
        match validate(executed)
        case Err(e) => Err(BeforeCommit(e))
        case Ok(v) => Ok((executed, v))
  }

  /**
   `execute_callback_batch`. `published` lists the callbacks whose outputs were committed:
   all that ran, in order, on success, and none otherwise.
   */
  method ExecuteCallbackBatch<R, V, E>(callbacks: seq<nat>, prepare: nat -> bool, run: nat -> Result<R, Failure>,
                                       workers: nat, validate: seq<nat> -> Result<V, E>)
    returns (r: Result<(seq<nat>, V), BatchError<E>>, published: seq<nat>)
    ensures r == Batch(callbacks, prepare, run, workers, validate)
    ensures published == if r.Ok? then r.value.0 else []
  {
    published := [];
    if workers == 0 {
      return Err(NoWorkers), [];
    }
    var executed := [];
    for k := 0 to |callbacks|
      invariant executed == Ready(callbacks[..k], prepare)
    {
      assert callbacks[..k + 1][..k] == callbacks[..k];
      if prepare(callbacks[k]) {
        executed := executed + [callbacks[k]];
      }
    }
    assert callbacks[..|callbacks|] == callbacks;
    var completed := RunPreparedBatch(executed, run, workers);
    SequentialMeans(executed, run);
    if completed.Err? {
      return Err(Callback(executed[completed.error.position], completed.error.failure)), [];
    }
    var result := validate(executed);
    if result.Err? {
      return Err(BeforeCommit(result.error)), [];
    }
    for k := 0 to |executed|
      invariant published == executed[..k]
    {
      published := published + [executed[k]];
    }
    return Ok((executed, result.value)), published;
  }

  ghost predicate AllSucceed<R>(executed: seq<nat>, run: nat -> Result<R, Failure>) {
    forall k :: 0 <= k < |executed| ==> run(executed[k]).Ok?
  }

  /** The callback at position `p` failed and every earlier one succeeded. */
  ghost predicate FirstFailure<R>(executed: seq<nat>, run: nat -> Result<R, Failure>, p: nat, index: nat, failure: Failure) {
    && p < |executed| && executed[p] == index && run(index) == Err(failure)
    && forall k :: 0 <= k < p ==> run(executed[k]).Ok?
  }

  /** Success means every ready body succeeded and the batch validated; failure names the first failing body. */
  lemma {:induction false} BatchMeans<R, V, E>(
      callbacks: seq<nat>, prepare: nat -> bool, run: nat -> Result<R, Failure>,
      workers: nat, validate: seq<nat> -> Result<V, E>, executed: seq<nat>)
    requires workers > 0 && executed == Ready(callbacks, prepare)
    ensures var r := Batch(callbacks, prepare, run, workers, validate);
      && (r.Ok? ==> r.value.0 == executed && validate(executed) == Ok(r.value.1) && AllSucceed(executed, run))
      && (r.Err? ==> !r.error.NoWorkers?)
      && (r.Err? && r.error.BeforeCommit? ==> validate(executed) == Err(r.error.error) && AllSucceed(executed, run))
      && (r.Err? && r.error.Callback? ==> exists p :: FirstFailure(executed, run, p, r.error.index, r.error.failure))
  {
    SequentialMeans(executed, run);
    var s := Sequential(executed, run);
    if s.Err? {
      assert FirstFailure(executed, run, s.error.position, executed[s.error.position], s.error.failure);
    }
  }
}
