/**
 * What `embedAllBisection` returns in continue mode: each input index in exactly one of
 * results and errors, in order, whatever the batch size and the order chunks finish in.
 */
module BisectionRuns {
  import opened Bisection
  import WorkerPool

  // ---- Chunks, pool and merge --------------------------------------------------------------

  /** The indexed items lo, ..., hi-1. */
  function Slice<I>(items: seq<I>, lo: nat, hi: nat): seq<Indexed<I>>
    requires lo <= hi <= |items|
  {
    seq(hi - lo, k requires 0 <= k < hi - lo => Indexed(lo + k, items[lo + k]))
  }

  function End<I>(items: seq<I>, lo: nat, size: nat): nat {
    if lo + size <= |items| then lo + size else |items|
  }

  function ChunksFrom<I>(items: seq<I>, lo: nat, size: nat): seq<seq<Indexed<I>>>
    requires size >= 1
    decreases |items| - lo
  {
    if lo >= |items| then []
    else [Slice(items, lo, End(items, lo, size))] + ChunksFrom(items, End(items, lo, size), size)
  }

  method ChunkIndexed<I>(items: seq<I>, size: nat) returns (chunks: seq<seq<Indexed<I>>>)
    requires size >= 1
    ensures chunks == ChunksFrom(items, 0, size)
  {
    chunks := [];
    var index := 0;
    while index < |items|
      invariant 0 <= index <= |items|
      invariant ChunksFrom(items, 0, size) == chunks + ChunksFrom(items, index, size)
    {
      var hi := End(items, index, size);
      chunks := chunks + [Slice(items, index, hi)];
      index := hi;
    }
  }

  datatype ChunkResult<I, V, E> = ChunkResult(results: map<nat, V>, errors: seq<ItemError<I, E>>)

  /** One chunk task in continue mode: a thrown error is reported for the chunk's first item alone. */
  function RunChunk<I, V, E>(chunk: seq<Indexed<I>>, env: Env<I, V, E>): ChunkResult<I, V, E>
    requires chunk != []
  {
    var (o, acc) := Embed(chunk, env, Acc(map[], [], 0));
    if o.Thrown? then ChunkResult(map[], [ItemError(chunk[0].index, chunk[0].value, o.cause)])
    else ChunkResult(acc.results, acc.errors)
  }

  /** The results of all chunks from item lo on; `envs(c)` is what chunk number c meets. */
  function RunChunks<I, V, E>(items: seq<I>, lo: nat, size: nat, envs: nat -> Env<I, V, E>, c: nat)
    : (rs: seq<ChunkResult<I, V, E>>)
    requires size >= 1
    decreases |items| - lo
  {
    if lo >= |items| then []
    else [RunChunk(Slice(items, lo, End(items, lo, size)), envs(c))]
         + RunChunks(items, End(items, lo, size), size, envs, c + 1)
  }

  function Merge<I, V, E>(rs: seq<ChunkResult<I, V, E>>): ChunkResult<I, V, E> {
    if rs == [] then ChunkResult(map[], [])
    else
      var rest := Merge(rs[1..]);
      ChunkResult(rs[0].results + rest.results, rs[0].errors + rest.errors)
  }

  function Insert<I, E>(e: ItemError<I, E>, sorted: seq<ItemError<I, E>>): seq<ItemError<I, E>> {
    if sorted == [] || e.index <= sorted[0].index then [e] + sorted
    else [sorted[0]] + Insert(e, sorted[1..])
  }

  /** The stable sort by index. */
  function SortByIndex<I, E>(errors: seq<ItemError<I, E>>): seq<ItemError<I, E>> {
    if errors == [] then [] else Insert(errors[0], SortByIndex(errors[1..]))
  }

  /** The sparse results array from slot lo on, without its holes. */
  function Dense<V>(results: map<nat, V>, lo: nat, n: nat): seq<V>
    decreases n - lo
  {
    if lo >= n then [] else (if lo in results then [results[lo]] else []) + Dense(results, lo + 1, n)
  }

  datatype Output<I, V, E> = Output(results: seq<V>, errors: seq<ItemError<I, E>>)

  function Assemble<I, V, E>(n: nat, rs: seq<ChunkResult<I, V, E>>): Output<I, V, E> {
    var m := Merge(rs);
    Output(Dense(m.results, 0, n), SortByIndex(m.errors))
  }

  method MergeChunks<I, V, E>(n: nat, rs: seq<ChunkResult<I, V, E>>) returns (out: Output<I, V, E>)
    ensures out == Assemble(n, rs)
  {
    var merged := MergeAll(rs);
    var dense := DropHoles(merged.results, n);
    return Output(dense, SortByIndex(merged.errors));
  }

  method MergeAll<I, V, E>(rs: seq<ChunkResult<I, V, E>>) returns (r: ChunkResult<I, V, E>)
    ensures r == Merge(rs)
  {
    var results: map<nat, V>, errors: seq<ItemError<I, E>> := map[], [];
    for i := 0 to |rs|
      invariant Merge(rs).results == results + Merge(rs[i..]).results
      invariant Merge(rs).errors == errors + Merge(rs[i..]).errors
    {
      MergeNext(results, errors, rs, i);
      results := results + rs[i].results;
      errors := errors + rs[i].errors;
    }
    assert rs[|rs|..] == [];
    assert results + map[] == results && errors + [] == errors;
    return ChunkResult(results, errors);
  }

  lemma MergeNext<I, V, E>(
    results: map<nat, V>, errors: seq<ItemError<I, E>>, rs: seq<ChunkResult<I, V, E>>, i: nat)
    requires i < |rs|
    ensures results + Merge(rs[i..]).results == (results + rs[i].results) + Merge(rs[i + 1..]).results
    ensures errors + Merge(rs[i..]).errors == (errors + rs[i].errors) + Merge(rs[i + 1..]).errors
  {
    assert rs[i..][1..] == rs[i + 1..];
  }

  method DropHoles<V>(results: map<nat, V>, n: nat) returns (dense: seq<V>)
    ensures dense == Dense(results, 0, n)
  {
    dense := [];
    for i := 0 to n
      invariant Dense(results, 0, n) == dense + Dense(results, i, n)
    {
      if i in results { dense := dense + [results[i]]; }
    }
  }

  // ---- One chunk -----------------------------------------------------------------------------

  ghost predicate Increasing<I, E>(errors: seq<ItemError<I, E>>, lo: nat, hi: nat) {
    && (forall e | e in errors :: lo <= e.index < hi)
    && forall i, j | 0 <= i < j < |errors| :: errors[i].index < errors[j].index
  }

  ghost predicate HasError<I, E>(errors: seq<ItemError<I, E>>, i: nat) {
    exists e :: e in errors && e.index == i
  }

  /** Every index from lo to hi is in exactly one of results and errors. */
  ghost predicate Partitioned<I, V, E>(r: ChunkResult<I, V, E>, lo: nat, hi: nat) {
    forall i | lo <= i < hi :: (i in r.results) != HasError(r.errors, i)
  }

  /** Results and errors name only items lo, ..., hi-1, errors strictly in order and with their own item. */
  ghost predicate WithinRange<I(!new), V, E(!new)>(r: ChunkResult<I, V, E>, items: seq<I>, lo: nat, hi: nat)
    requires hi <= |items|
  {
    && (forall i | i in r.results :: lo <= i < hi)
    && Increasing(r.errors, lo, hi)
    && (forall e | e in r.errors :: e.item == items[e.index])
    && (forall i | i in r.results :: !HasError(r.errors, i))
  }

  lemma {:induction false} SetAllSlice<I, V>(results: map<nat, V>, items: seq<I>, lo: nat, hi: nat, vs: seq<V>)
    requires lo <= hi <= |items| && |vs| == hi - lo
    ensures var m := SetAll(results, Slice(items, lo, hi), vs);
            && (forall i :: i in m <==> i in results || lo <= i < hi)
            && (forall i | lo <= i < hi :: m[i] == vs[i - lo])
            && (forall i | i in results && !(lo <= i < hi) :: m[i] == results[i])
    decreases hi - lo
  {
    if lo < hi {
      assert Slice(items, lo, hi)[..hi - lo - 1] == Slice(items, lo, hi - 1);
      SetAllSlice(results, items, lo, hi - 1, vs[..|vs| - 1]);
    }
  }

  /**
   * From `acc` to `a`, each index from lo to hi has gone to exactly one of results and
   * errors, the errors after those already there and in order.
   */
  ghost predicate Adds<I(!new), V, E(!new)>(acc: Acc<I, V, E>, a: Acc<I, V, E>, items: seq<I>, lo: nat, hi: nat)
    requires hi <= |items|
  {
    && |acc.errors| <= |a.errors| && a.errors[..|acc.errors|] == acc.errors
    && (forall i | !(lo <= i < hi) :: i in a.results <==> i in acc.results)
    && var added := a.errors[|acc.errors|..];
       && Increasing(added, lo, hi)
       && (forall e | e in added :: e.item == items[e.index])
       && (forall i | lo <= i < hi :: (i in a.results) != HasError(added, i))
  }

  lemma HasErrorAppended<I, E>(first: seq<ItemError<I, E>>, second: seq<ItemError<I, E>>, i: nat)
    ensures HasError(first + second, i) <==> HasError(first, i) || HasError(second, i)
  {
    if HasError(first, i) {
      var e :| e in first && e.index == i;
      assert e in first + second;
    }
    if HasError(second, i) {
      var e :| e in second && e.index == i;
      assert e in first + second;
    }
  }

  lemma IncreasingAppended<I, E>(first: seq<ItemError<I, E>>, second: seq<ItemError<I, E>>, lo: nat, mid: nat, hi: nat)
    requires lo <= mid <= hi && Increasing(first, lo, mid) && Increasing(second, mid, hi)
    ensures Increasing(first + second, lo, hi)
  {
    var both := first + second;
    forall i, j | 0 <= i < j < |both| ensures both[i].index < both[j].index {
      if i < |first| <= j { assert both[i] in first && both[j] in second; }
    }
  }

  lemma AddsCompose<I(!new), V, E(!new)>(
    acc: Acc<I, V, E>, left: Acc<I, V, E>, a: Acc<I, V, E>, items: seq<I>, lo: nat, mid: nat, hi: nat)
    requires lo <= mid <= hi <= |items|
    requires Adds(acc, left, items, lo, mid) && Adds(left, a, items, mid, hi)
    ensures Adds(acc, a, items, lo, hi)
  {
    var n, m := |acc.errors|, |left.errors|;
    var first, second := left.errors[n..], a.errors[m..];
    assert a.errors == a.errors[..m] + second;
    assert a.errors[n..] == first + second;
    assert a.errors[..n] == left.errors[..n];
    IncreasingAppended(first, second, lo, mid, hi);
    forall i | lo <= i < hi ensures (i in a.results) != HasError(first + second, i) {
      HasErrorAppended(first, second, i);
      if HasError(first, i) { assert i < mid; }
      if HasError(second, i) { assert i >= mid; }
    }
  }

  lemma AddsResults<I(!new), V, E(!new)>(acc: Acc<I, V, E>, a: Acc<I, V, E>, items: seq<I>, lo: nat, hi: nat,
      vs: seq<V>)
    requires lo <= hi <= |items| && |vs| == hi - lo
    requires a.errors == acc.errors && a.results == SetAll(acc.results, Slice(items, lo, hi), vs)
    ensures Adds(acc, a, items, lo, hi)
  {
    SetAllSlice(acc.results, items, lo, hi, vs);
  }

  lemma AddsError<I(!new), V, E(!new)>(acc: Acc<I, V, E>, a: Acc<I, V, E>, items: seq<I>, lo: nat, cause: Cause<E>)
    requires lo < |items| && lo !in acc.results
    requires a.results == acc.results && a.errors == acc.errors + [ItemError(lo, items[lo], cause)]
    ensures Adds(acc, a, items, lo, lo + 1)
  {
    var e := ItemError(lo, items[lo], cause);
    assert a.errors[|acc.errors|..] == [e] && e in [e];
  }

  /** A rejected batch of several items either splits in the middle or throws. */
  lemma SplitStep<I, V, E>(items: seq<I>, lo: nat, hi: nat, env: Env<I, V, E>, acc: Acc<I, V, E>)
    returns (mid: nat, left: Acc<I, V, E>)
    requires lo + 1 < hi <= |items| && !env.aborted(acc.calls)
    requires var r := env.provider(acc.calls, Values(Slice(items, lo, hi))); !(r.Vectors? && |r.vs| == hi - lo)
    ensures lo < mid < hi
    ensures var next := acc.(calls := acc.calls + 1);
            var (o, l) := Embed(Slice(items, lo, mid), env, next);
            && left == l
            && var r := Embed(Slice(items, lo, hi), env, acc);
               r.0.Thrown? || r == (if o.Returned? then Embed(Slice(items, mid, hi), env, l) else (o, l))
    ensures AlwaysSplitsHere(items, lo, hi, env, acc) ==>
              var (o, l) := Embed(Slice(items, lo, mid), env, acc.(calls := acc.calls + 1));
              Embed(Slice(items, lo, hi), env, acc)
                  == (if o.Returned? then Embed(Slice(items, mid, hi), env, l) else (o, l))
  {
    var batch := Slice(items, lo, hi);
    mid := lo + Midpoint(hi - lo);
    assert batch[..mid - lo] == Slice(items, lo, mid) && batch[mid - lo..] == Slice(items, mid, hi);
    left := Embed(Slice(items, lo, mid), env, acc.(calls := acc.calls + 1)).1;
  }

  predicate AlwaysSplitsHere<I, V, E>(items: seq<I>, lo: nat, hi: nat, env: Env<I, V, E>, acc: Acc<I, V, E>)
    requires lo <= hi <= |items|
  {
    var xs := Values(Slice(items, lo, hi));
    var r := env.provider(acc.calls, xs);
    !(r.Vectors? && |r.vs| == hi - lo) ==> env.classify(CauseOf(r, hi - lo), xs) == Split
  }

  /** Whatever the provider answers, a batch that returns has partitioned its indices. */
  lemma {:induction false} BatchPartition<I(!new), V, E(!new)>(
    items: seq<I>, lo: nat, hi: nat, env: Env<I, V, E>, acc: Acc<I, V, E>)
    requires lo < hi <= |items| && (forall i | lo <= i < hi :: i !in acc.results)
    requires Embed(Slice(items, lo, hi), env, acc).0.Returned?
    ensures Adds(acc, Embed(Slice(items, lo, hi), env, acc).1, items, lo, hi)
    decreases hi - lo
  {
    var batch := Slice(items, lo, hi);
    var r := env.provider(acc.calls, Values(batch));
    var next := acc.(calls := acc.calls + 1);
    var a := Embed(batch, env, acc).1;
    if r.Vectors? && |r.vs| == |batch| {
      AddsResults(acc, a, items, lo, hi, r.vs);
    } else if hi - lo > 1 {
      var mid, left := SplitStep(items, lo, hi, env, acc);
      BatchPartition(items, lo, mid, env, next);
      BatchPartition(items, mid, hi, env, left);
      AddsCompose(next, left, a, items, lo, mid, hi);
    } else {
      AddsError(acc, a, items, lo, CauseOf(r, |batch|));
    }
  }

  /** A batch throws only when the classifier refuses to split a rejection of several items. */
  lemma {:induction false} ThrowsOnlyOnFail<I, V, E>(batch: seq<Indexed<I>>, env: Env<I, V, E>, acc: Acc<I, V, E>)
    returns (cause: Cause<E>, xs: seq<I>)
    requires batch != [] && Embed(batch, env, acc).0.Thrown?
    ensures |batch| > 1 && |xs| > 1 && env.classify(cause, xs) == Fail
    decreases |batch|
  {
    var r := env.provider(acc.calls, Values(batch));
    cause, xs := CauseOf(r, |batch|), Values(batch);
    if env.classify(cause, xs) == Split {
      var mid := Midpoint(|batch|);
      var next := acc.(calls := acc.calls + 1);
      var (o, left) := Embed(batch[..mid], env, next);
      if o.Returned? {
        cause, xs := ThrowsOnlyOnFail(batch[mid..], env, left);
      } else {
        cause, xs := ThrowsOnlyOnFail(batch[..mid], env, next);
      }
    }
  }

  // ---- All chunks ------------------------------------------------------------------------------

  predicate ChunkThrows<I, V, E>(chunk: seq<Indexed<I>>, env: Env<I, V, E>)
    requires chunk != []
  {
    Embed(chunk, env, Acc(map[], [], 0)).0.Thrown?
  }

  predicate SomeChunkThrows<I, V, E>(items: seq<I>, lo: nat, size: nat, envs: nat -> Env<I, V, E>, c: nat)
    requires size >= 1
    decreases |items| - lo
  {
    lo < |items| && (ChunkThrows(Slice(items, lo, End(items, lo, size)), envs(c))
                     || SomeChunkThrows(items, End(items, lo, size), size, envs, c + 1))
  }

  lemma {:induction false} NeverAborts<I, V, E>(batch: seq<Indexed<I>>, env: Env<I, V, E>, acc: Acc<I, V, E>)
    requires batch != [] && NeverAborted(env)
    ensures !Embed(batch, env, acc).0.Aborted?
    decreases |batch|
  {
    if |batch| > 1 {
      var mid := Midpoint(|batch|);
      var next := acc.(calls := acc.calls + 1);
      NeverAborts(batch[..mid], env, next);
      NeverAborts(batch[mid..], env, Embed(batch[..mid], env, next).1);
    }
  }

  lemma ChunkPartition<I(!new), V, E(!new)>(items: seq<I>, lo: nat, hi: nat, env: Env<I, V, E>)
    requires lo < hi <= |items| && NeverAborted(env)
    ensures var r := RunChunk(Slice(items, lo, hi), env);
            && WithinRange(r, items, lo, hi)
            && (Partitioned(r, lo, hi) <==> !ChunkThrows(Slice(items, lo, hi), env))
  {
    var chunk, start: Acc<I, V, E> := Slice(items, lo, hi), Acc(map[], [], 0);
    var r := RunChunk(chunk, env);
    NeverAborts(chunk, env, start);
    if ChunkThrows(chunk, env) {
      var _, _ := ThrowsOnlyOnFail(chunk, env, start);
      assert lo + 1 !in r.results && !HasError(r.errors, lo + 1);
    } else {
      BatchPartition(items, lo, hi, env, start);
      assert r.errors[0..] == r.errors;
    }
  }

  lemma MergeTwo<I(!new), V, E(!new)>(
    a: ChunkResult<I, V, E>, b: ChunkResult<I, V, E>, items: seq<I>, lo: nat, mid: nat, hi: nat)
    requires lo <= mid <= hi <= |items| && WithinRange(a, items, lo, mid) && WithinRange(b, items, mid, hi)
    ensures var r := ChunkResult(a.results + b.results, a.errors + b.errors);
            && WithinRange(r, items, lo, hi)
            && (Partitioned(r, lo, hi) <==> Partitioned(a, lo, mid) && Partitioned(b, mid, hi))
  {
    var r := ChunkResult(a.results + b.results, a.errors + b.errors);
    IncreasingAppended(a.errors, b.errors, lo, mid, hi);
    forall i | i in r.results ensures lo <= i < hi && !HasError(r.errors, i) {
      MergedIndex(a, b, items, lo, mid, hi, i);
    }
    forall i | lo <= i < hi
      ensures ((i in r.results) != HasError(r.errors, i)) ==
              if i < mid then (i in a.results) != HasError(a.errors, i) else (i in b.results) != HasError(b.errors, i)
    {
      MergedIndex(a, b, items, lo, mid, hi, i);
    }
  }

  /** One index of two merged chunk results: it is the first chunk's below mid, the second's from there on. */
  lemma MergedIndex<I(!new), V, E(!new)>(
    a: ChunkResult<I, V, E>, b: ChunkResult<I, V, E>, items: seq<I>, lo: nat, mid: nat, hi: nat, i: nat)
    requires lo <= mid <= hi <= |items| && WithinRange(a, items, lo, mid) && WithinRange(b, items, mid, hi)
    ensures i in a.results || HasError(a.errors, i) ==> lo <= i < mid
    ensures i in b.results || HasError(b.errors, i) ==> mid <= i < hi
    ensures HasError(a.errors + b.errors, i) <==> HasError(a.errors, i) || HasError(b.errors, i)
  {
    HasErrorAppended(a.errors, b.errors, i);
  }

  lemma {:induction false} ChunksPartition<I(!new), V, E(!new)>(
    items: seq<I>, lo: nat, size: nat, envs: nat -> Env<I, V, E>, c: nat)
    requires size >= 1 && lo <= |items| && forall k :: NeverAborted(envs(k))
    ensures var r := Merge(RunChunks(items, lo, size, envs, c));
            && WithinRange(r, items, lo, |items|)
            && (Partitioned(r, lo, |items|) <==> !SomeChunkThrows(items, lo, size, envs, c))
    decreases |items| - lo
  {
    if lo < |items| {
      var hi := End(items, lo, size);
      var rs := RunChunks(items, lo, size, envs, c);
      assert rs[1..] == RunChunks(items, hi, size, envs, c + 1);
      ChunkPartition(items, lo, hi, envs(c));
      ChunksPartition(items, hi, size, envs, c + 1);
      MergeTwo(rs[0], Merge(rs[1..]), items, lo, hi, |items|);
    }
  }

  lemma {:induction false} SortedAlready<I, E>(errors: seq<ItemError<I, E>>)
    requires forall i, j | 0 <= i < j < |errors| :: errors[i].index < errors[j].index
    ensures SortByIndex(errors) == errors
  {
    if errors != [] {
      SortedAlready(errors[1..]);
      assert errors == [errors[0]] + errors[1..];
    }
  }

  /**
   * Errors come out in strictly increasing index order, each with its own item; and every
   * input index is in exactly one of results and errors exactly when no chunk threw.
   */
  lemma {:induction false} OutputPartition<I(!new), V, E(!new)>(items: seq<I>, size: nat, envs: nat -> Env<I, V, E>)
    requires size >= 1 && forall k :: NeverAborted(envs(k))
    ensures var rs := RunChunks(items, 0, size, envs, 0);
            var out, merged := Assemble(|items|, rs), Merge(rs);
            && out.errors == merged.errors && out.results == Dense(merged.results, 0, |items|)
            && Increasing(out.errors, 0, |items|)
            && (forall e | e in out.errors :: e.item == items[e.index])
            && (forall i | i in merged.results :: i < |items| && !HasError(out.errors, i))
            && ((forall i | 0 <= i < |items| :: (i in merged.results) != HasError(out.errors, i))
                 <==> !SomeChunkThrows(items, 0, size, envs, 0))
  {
    ChunksPartition(items, 0, size, envs, 0);
    SortedAlready(Merge(RunChunks(items, 0, size, envs, 0)).errors);
  }

  /** When every rejection of several items is split, no chunk throws. */
  lemma {:induction false} SplittersNeverThrow<I(!new), V, E(!new)>(
    items: seq<I>, lo: nat, size: nat, envs: nat -> Env<I, V, E>, c: nat)
    requires size >= 1 && forall k :: AlwaysSplits(envs(k))
    ensures !SomeChunkThrows(items, lo, size, envs, c)
    decreases |items| - lo
  {
    if lo < |items| {
      var chunk := Slice(items, lo, End(items, lo, size));
      if ChunkThrows(chunk, envs(c)) {
        var cause, xs := ThrowsOnlyOnFail(chunk, envs(c), Acc(map[], [], 0));
        assert false;
      }
      SplittersNeverThrow(items, End(items, lo, size), size, envs, c + 1);
    }
  }

  // ---- Independence of batch size and order ------------------------------------------------------

  /** What the provider makes of one item. */
  datatype Answer<V, E> = Good(v: V) | BadItem(e: E)

  /** The provider answers item by item: a batch is rejected exactly when it holds a bad item. */
  ghost predicate PerItem<I(!new), V, E>(env: Env<I, V, E>, answer: I -> Answer<V, E>) {
    forall n, xs: seq<I> ::
      var r := env.provider(n, xs);
      if forall x | x in xs :: answer(x).Good?
      then r.Vectors? && |r.vs| == |xs| && forall i | 0 <= i < |xs| :: Good(r.vs[i]) == answer(xs[i])
      else r.Rejects? && (|xs| == 1 ==> BadItem(r.error) == answer(xs[0]))
  }

  /** The vectors of the good items lo, ..., hi-1, by index. */
  function GoodMap<I, V, E>(items: seq<I>, lo: nat, hi: nat, answer: I -> Answer<V, E>): map<nat, V>
    requires lo <= hi <= |items|
  {
    map i | lo <= i < hi && answer(items[i]).Good? :: answer(items[i]).v
  }

  /** The errors of the bad items lo, ..., hi-1, in order. */
  function BadList<I, V, E>(items: seq<I>, lo: nat, hi: nat, answer: I -> Answer<V, E>): seq<ItemError<I, E>>
    requires lo <= hi <= |items|
    decreases hi - lo
  {
    if lo == hi then []
    else (match answer(items[lo])
          case Good(_) => []
          case BadItem(e) => [ItemError(lo, items[lo], Provider(e))]) + BadList(items, lo + 1, hi, answer)
  }

  lemma {:induction false} BadListSplits<I, V, E>(items: seq<I>, lo: nat, mid: nat, hi: nat, answer: I -> Answer<V, E>)
    requires lo <= mid <= hi <= |items|
    ensures BadList(items, lo, hi, answer) == BadList(items, lo, mid, answer) + BadList(items, mid, hi, answer)
    decreases mid - lo
  {
    if lo < mid { BadListSplits(items, lo + 1, mid, hi, answer); }
  }

  lemma GoodMapSplits<I, V, E>(items: seq<I>, lo: nat, mid: nat, hi: nat, answer: I -> Answer<V, E>)
    requires lo <= mid <= hi <= |items|
    ensures GoodMap(items, lo, hi, answer) == GoodMap(items, lo, mid, answer) + GoodMap(items, mid, hi, answer)
  {
  }

  lemma {:induction false} AllGoodNoneBad<I, V, E>(items: seq<I>, lo: nat, hi: nat, answer: I -> Answer<V, E>)
    requires lo <= hi <= |items| && forall i | lo <= i < hi :: answer(items[i]).Good?
    ensures BadList(items, lo, hi, answer) == []
    decreases hi - lo
  {
    if lo < hi { AllGoodNoneBad(items, lo + 1, hi, answer); }
  }

  lemma GoodBatch<I(!new), V, E>(
    items: seq<I>, lo: nat, hi: nat, env: Env<I, V, E>, answer: I -> Answer<V, E>, acc: Acc<I, V, E>)
    requires lo < hi <= |items| && PerItem(env, answer) && !env.aborted(acc.calls)
    requires forall i | lo <= i < hi :: answer(items[i]).Good?
    ensures var (o, a) := Embed(Slice(items, lo, hi), env, acc);
            && o.Returned? && a.errors == acc.errors
            && a.results == acc.results + GoodMap(items, lo, hi, answer)
  {
    var xs := Values(Slice(items, lo, hi));
    var r := env.provider(acc.calls, xs);
    assert forall k | 0 <= k < |xs| :: xs[k] == items[lo + k];
    assert r.Vectors? && |r.vs| == hi - lo;
    SetAllSlice(acc.results, items, lo, hi, r.vs);
    forall i | lo <= i < hi
      ensures Good(r.vs[i - lo]) == answer(items[i])
    {
      assert xs[i - lo] == items[i];
    }
    assert SetAll(acc.results, Slice(items, lo, hi), r.vs) == acc.results + GoodMap(items, lo, hi, answer);
  }

  /** A bad item makes the provider reject; a batch of several is then split. */
  lemma BadBatch<I(!new), V, E(!new)>(
    items: seq<I>, lo: nat, hi: nat, env: Env<I, V, E>, answer: I -> Answer<V, E>, acc: Acc<I, V, E>, bad: nat)
    requires lo <= bad < hi <= |items| && PerItem(env, answer) && AlwaysSplits(env) && answer(items[bad]).BadItem?
    ensures env.provider(acc.calls, Values(Slice(items, lo, hi))).Rejects?
    ensures hi - lo == 1 ==> env.provider(acc.calls, Values(Slice(items, lo, hi))) == Rejects(answer(items[lo]).e)
    ensures hi - lo > 1 ==> AlwaysSplitsHere(items, lo, hi, env, acc)
  {
    var xs := Values(Slice(items, lo, hi));
    assert xs[bad - lo] == items[bad];
    assert xs[0] == items[lo];
  }

  lemma SingleBad<I(!new), V, E(!new)>(
    items: seq<I>, lo: nat, env: Env<I, V, E>, answer: I -> Answer<V, E>, acc: Acc<I, V, E>)
    requires lo < |items| && answer(items[lo]).BadItem? && !env.aborted(acc.calls)
    requires env.provider(acc.calls, Values(Slice(items, lo, lo + 1))) == Rejects(answer(items[lo]).e)
    ensures var (o, a) := Embed(Slice(items, lo, lo + 1), env, acc);
            && o.Returned?
            && a.results == acc.results + GoodMap(items, lo, lo + 1, answer)
            && a.errors == acc.errors + BadList(items, lo, lo + 1, answer)
  {
    assert GoodMap(items, lo, lo + 1, answer) == map[];
    assert BadList(items, lo + 1, lo + 1, answer) == [];
  }

  lemma JoinHalves<I(!new), V, E(!new)>(
    items: seq<I>, lo: nat, mid: nat, hi: nat, answer: I -> Answer<V, E>, acc: Acc<I, V, E>)
    requires lo <= mid <= hi <= |items|
    ensures acc.results + GoodMap(items, lo, mid, answer) + GoodMap(items, mid, hi, answer)
         == acc.results + GoodMap(items, lo, hi, answer)
    ensures acc.errors + BadList(items, lo, mid, answer) + BadList(items, mid, hi, answer)
         == acc.errors + BadList(items, lo, hi, answer)
  {
    BadListSplits(items, lo, mid, hi, answer);
    GoodMapSplits(items, lo, mid, hi, answer);
  }

  /** A split-always batch adds exactly the good vectors and the bad items' errors. */
  lemma {:induction false} BatchIsPerItem<I(!new), V, E(!new)>(
    items: seq<I>, lo: nat, hi: nat, env: Env<I, V, E>, answer: I -> Answer<V, E>, acc: Acc<I, V, E>)
    requires lo < hi <= |items| && PerItem(env, answer) && AlwaysSplits(env) && NeverAborted(env)
    ensures var (o, a) := Embed(Slice(items, lo, hi), env, acc);
            && o.Returned?
            && a.results == acc.results + GoodMap(items, lo, hi, answer)
            && a.errors == acc.errors + BadList(items, lo, hi, answer)
    decreases hi - lo
  {
    if forall i | lo <= i < hi :: answer(items[i]).Good? {
      GoodBatch(items, lo, hi, env, answer, acc);
      AllGoodNoneBad(items, lo, hi, answer);
    } else {
      var bad :| lo <= bad < hi && answer(items[bad]).BadItem?;
      BadBatch(items, lo, hi, env, answer, acc, bad);
      if hi - lo > 1 {
        var mid, left := SplitStep(items, lo, hi, env, acc);
        BatchIsPerItem(items, lo, mid, env, answer, acc.(calls := acc.calls + 1));
        BatchIsPerItem(items, mid, hi, env, answer, left);
        JoinHalves(items, lo, mid, hi, answer, acc);
      } else {
        SingleBad(items, lo, env, answer, acc);
      }
    }
  }

  lemma {:induction false} ChunksArePerItem<I(!new), V, E(!new)>(
    items: seq<I>, lo: nat, size: nat, envs: nat -> Env<I, V, E>, c: nat, answer: I -> Answer<V, E>)
    requires size >= 1 && lo <= |items|
    requires forall k :: PerItem(envs(k), answer) && AlwaysSplits(envs(k)) && NeverAborted(envs(k))
    ensures Merge(RunChunks(items, lo, size, envs, c))
         == ChunkResult(GoodMap(items, lo, |items|, answer), BadList(items, lo, |items|, answer))
    decreases |items| - lo
  {
    var rs := RunChunks(items, lo, size, envs, c);
    if lo < |items| {
      var hi := End(items, lo, size);
      assert rs[1..] == RunChunks(items, hi, size, envs, c + 1);
      BatchIsPerItem(items, lo, hi, envs(c), answer, Acc(map[], [], 0));
      ChunksArePerItem(items, hi, size, envs, c + 1, answer);
      BadListSplits(items, lo, hi, |items|, answer);
      GoodMapSplits(items, lo, hi, |items|, answer);
      assert map[] + GoodMap(items, lo, hi, answer) == GoodMap(items, lo, hi, answer);
      assert rs[0] == ChunkResult(GoodMap(items, lo, hi, answer), BadList(items, lo, hi, answer));
    } else {
      assert GoodMap(items, lo, |items|, answer) == map[];
    }
  }

  /**
   * For a provider that is deterministic per item the output depends on neither the batch
   * size nor the calls the chunks happened to make.
   */
  lemma {:induction false} OutputIgnoresBatching<I(!new), V, E(!new)>(
    items: seq<I>, size1: nat, envs1: nat -> Env<I, V, E>, size2: nat, envs2: nat -> Env<I, V, E>,
    answer: I -> Answer<V, E>)
    requires size1 >= 1 && size2 >= 1
    requires forall k :: PerItem(envs1(k), answer) && AlwaysSplits(envs1(k)) && NeverAborted(envs1(k))
    requires forall k :: PerItem(envs2(k), answer) && AlwaysSplits(envs2(k)) && NeverAborted(envs2(k))
    ensures Assemble(|items|, RunChunks(items, 0, size1, envs1, 0))
        == Assemble(|items|, RunChunks(items, 0, size2, envs2, 0))
    ensures Assemble(|items|, RunChunks(items, 0, size1, envs1, 0)).errors == BadList(items, 0, |items|, answer)
  {
    ChunksArePerItem(items, 0, size1, envs1, 0, answer);
    ChunksArePerItem(items, 0, size2, envs2, 0, answer);
    OutputPartition(items, size1, envs1);
  }

  // ---- The chunks in the pool ------------------------------------------------------------------

  lemma {:induction false} ChunkPerTask<I, V, E>(
    items: seq<I>, lo: nat, size: nat, envs: nat -> Env<I, V, E>, c: nat)
    requires size >= 1
    ensures |RunChunks(items, lo, size, envs, c)| == |ChunksFrom(items, lo, size)|
    decreases |items| - lo
  {
    if lo < |items| { ChunkPerTask(items, End(items, lo, size), size, envs, c + 1); }
  }

  /** The pool after `es`, over the chunks of `items`. */
  function Pooled<I, V, E>(
    items: seq<I>, size: nat, envs: nat -> Env<I, V, E>, concurrency: nat, es: seq<WorkerPool.Event>)
    : WorkerPool.Vars<ChunkResult<I, V, E>>
    requires size >= 1
  {
    var rs := RunChunks(items, 0, size, envs, 0);
    WorkerPool.Run(WorkerPool.Init(concurrency, rs), es, rs)
  }

  /** The output assembled from the pool's results array, once every worker is done. */
  function PooledOutput<I, V, E>(n: nat, v: WorkerPool.Vars<ChunkResult<I, V, E>>, chunks: nat): Output<I, V, E>
    requires forall i: nat | i < chunks :: i in v.slots
  {
    Assemble(n, WorkerPool.Results(v.slots, chunks))
  }

  /**
   * Whatever order the chunks finish in and however many workers run them, the output of a
   * pool that resolves is that of the chunks in order.
   */
  lemma PoolKeepsOutput<I, V, E>(
    items: seq<I>, size: nat, envs: nat -> Env<I, V, E>, concurrency: nat, es: seq<WorkerPool.Event>)
    requires size >= 1 && concurrency >= 1 && WorkerPool.AllDone(Pooled(items, size, envs, concurrency, es))
    ensures var v, chunks := Pooled(items, size, envs, concurrency, es), |ChunksFrom(items, 0, size)|;
            && (forall i: nat | i < chunks :: i in v.slots)
            && PooledOutput(|items|, v, chunks) == Assemble(|items|, RunChunks(items, 0, size, envs, 0))
  {
    var rs, v := RunChunks(items, 0, size, envs, 0), Pooled(items, size, envs, concurrency, es);
    ChunkPerTask(items, 0, size, envs, 0);
    WorkerPool.SlotsAreAnswers(concurrency, es, rs);
    assert WorkerPool.Results(v.slots, |rs|) == rs;
  }

  /**
   * For a provider that is deterministic per item, two calls that resolve give the same
   * output, whatever their batch sizes, their concurrency and the order their chunks
   * finish in; and its errors are the bad items in order.
   */
  lemma OutputIgnoresSchedule<I(!new), V, E(!new)>(
    items: seq<I>, answer: I -> Answer<V, E>,
    size1: nat, envs1: nat -> Env<I, V, E>, concurrency1: nat, es1: seq<WorkerPool.Event>,
    size2: nat, envs2: nat -> Env<I, V, E>, concurrency2: nat, es2: seq<WorkerPool.Event>)
    requires size1 >= 1 && size2 >= 1 && concurrency1 >= 1 && concurrency2 >= 1
    requires forall k :: PerItem(envs1(k), answer) && AlwaysSplits(envs1(k)) && NeverAborted(envs1(k))
    requires forall k :: PerItem(envs2(k), answer) && AlwaysSplits(envs2(k)) && NeverAborted(envs2(k))
    requires WorkerPool.AllDone(Pooled(items, size1, envs1, concurrency1, es1))
    requires WorkerPool.AllDone(Pooled(items, size2, envs2, concurrency2, es2))
    ensures var v1 := Pooled(items, size1, envs1, concurrency1, es1);
            var v2 := Pooled(items, size2, envs2, concurrency2, es2);
            var chunks1, chunks2 := |ChunksFrom(items, 0, size1)|, |ChunksFrom(items, 0, size2)|;
            && (forall i: nat | i < chunks1 :: i in v1.slots) && (forall i: nat | i < chunks2 :: i in v2.slots)
            && PooledOutput(|items|, v1, chunks1) == PooledOutput(|items|, v2, chunks2)
            && PooledOutput(|items|, v1, chunks1).errors == BadList(items, 0, |items|, answer)
  {
    PoolKeepsOutput(items, size1, envs1, concurrency1, es1);
    PoolKeepsOutput(items, size2, envs2, concurrency2, es2);
    OutputIgnoresBatching(items, size1, envs1, size2, envs2, answer);
  }
}
