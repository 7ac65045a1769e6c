/**
 * The provider calls of a bisection one by one: which batches it asks for, and that it
 * throws exactly at a rejection of several items it may not split.
 */
module BisectionCalls {
  import opened Wrappers
  import opened Bisection
  import opened BisectionRuns

  /** One provider call and what it failed with, if it did; or the abort seen instead of making it. */
  datatype Asked<I, E> = Asked(number: nat, items: seq<I>, failure: Option<Cause<E>>) | SawAbort(number: nat)

  function Ask<I, V, E>(env: Env<I, V, E>, n: nat, items: seq<I>): Asked<I, E> {
    var r := env.provider(n, items);
    Asked(n, items, if r.Vectors? && |r.vs| == |items| then None else Some(CauseOf(r, |items|)))
  }

  /** A failed call on several items whose classifier refuses to split. */
  predicate Fatal<I, V, E>(a: Asked<I, E>, env: Env<I, V, E>) {
    a.Asked? && |a.items| > 1 && a.failure.Some? && env.classify(a.failure.value, a.items) == Fail
  }

  predicate Stops<I, V, E>(a: Asked<I, E>, env: Env<I, V, E>) {
    a.SawAbort? || Fatal(a, env)
  }

  /** The batch fails on several items and may be split. */
  predicate Splits<I, V, E>(batch: seq<Indexed<I>>, env: Env<I, V, E>, n: nat) {
    var first := Ask(env, n, Values(batch));
    |batch| > 1 && !env.aborted(n) && first.failure.Some? && !Fatal(first, env)
  }

  /**
   * The calls for a batch from call number n on: the batch itself, and if that fails and
   * may be split, its halves in order, the larger first, until one stops.
   */
  function Calls<I, V, E>(batch: seq<Indexed<I>>, env: Env<I, V, E>, n: nat): (calls: seq<Asked<I, E>>)
    requires batch != []
    ensures calls != []
    decreases |batch|
  {
    if env.aborted(n) then [SawAbort(n)]
    else
      var first := Ask(env, n, Values(batch));
      if !Splits(batch, env, n) then [first]
      else
        var mid := Midpoint(|batch|);
        var left := Calls(batch[..mid], env, n + 1);
        if Stops(left[|left| - 1], env) then [first] + left
        else [first] + left + Calls(batch[mid..], env, n + 1 + |left|)
  }

  /** How the batch ends, by its last call. */
  function EndsBy<I, V, E>(last: Asked<I, E>, env: Env<I, V, E>): Outcome<E> {
    if last.SawAbort? then Aborted else if Fatal(last, env) then Thrown(last.failure.value) else Returned
  }

  predicate OnlyLastStops<I, V, E>(calls: seq<Asked<I, E>>, env: Env<I, V, E>) {
    forall i | 0 <= i < |calls| - 1 :: !Stops(calls[i], env)
  }

  /** The recursion that ended as `o` after call number `end` made these calls from n on. */
  ghost predicate Made<I, V, E>(o: Outcome<E>, end: nat, calls: seq<Asked<I, E>>, n: nat, env: Env<I, V, E>) {
    && calls != [] && OnlyLastStops(calls, env)
    && o == EndsBy(calls[|calls| - 1], env)
    && end == n + |calls| - (if o.Aborted? then 1 else 0)
  }

  lemma MadeFirst<I, V, E>(
    first: Asked<I, E>, o: Outcome<E>, end: nat, left: seq<Asked<I, E>>, n: nat, env: Env<I, V, E>)
    requires !Stops(first, env) && Made(o, end, left, n + 1, env)
    ensures Made(o, end, [first] + left, n, env)
  {
  }

  lemma MadeBoth<I, V, E>(
    left: seq<Asked<I, E>>, mid: nat, o: Outcome<E>, end: nat, right: seq<Asked<I, E>>, n: nat, env: Env<I, V, E>)
    requires Made(Returned, mid, left, n, env) && Made(o, end, right, mid, env)
    ensures Made(o, end, left + right, n, env)
  {
    assert !Stops(left[|left| - 1], env);
  }

  lemma EmbedSplits<I, V, E>(batch: seq<Indexed<I>>, env: Env<I, V, E>, acc: Acc<I, V, E>)
    requires Splits(batch, env, acc.calls)
    ensures var mid, next := Midpoint(|batch|), acc.(calls := acc.calls + 1);
            var (o, a) := Embed(batch[..mid], env, next);
            Embed(batch, env, acc) == if o.Returned? then Embed(batch[mid..], env, a) else (o, a)
  {
  }

  lemma CallsSplit<I, V, E>(batch: seq<Indexed<I>>, env: Env<I, V, E>, n: nat)
    requires Splits(batch, env, n)
    ensures var mid, first := Midpoint(|batch|), Ask(env, n, Values(batch));
            var left := Calls(batch[..mid], env, n + 1);
            Calls(batch, env, n) ==
            if Stops(left[|left| - 1], env) then [first] + left
            else [first] + left + Calls(batch[mid..], env, n + 1 + |left|)
  {
  }

  /** The first half stops the batch, or the second half follows it. */
  lemma HalvesMade<I, V, E>(
    first: Asked<I, E>, left: seq<Asked<I, E>>, o: Outcome<E>, mid: nat, right: seq<Asked<I, E>>,
    p: Outcome<E>, end: nat, n: nat, env: Env<I, V, E>)
    requires !Stops(first, env) && Made(o, mid, left, n + 1, env)
    requires o.Returned? ==> Made(p, end, right, mid, env)
    ensures o.Returned? <==> !Stops(left[|left| - 1], env)
    ensures if o.Returned? then Made(p, end, [first] + left + right, n, env) else Made(o, mid, [first] + left, n, env)
  {
    MadeFirst(first, o, mid, left, n, env);
    if o.Returned? { MadeBoth([first] + left, mid, p, end, right, n, env); }
  }

  ghost predicate EmbedMade<I, V, E>(batch: seq<Indexed<I>>, env: Env<I, V, E>, acc: Acc<I, V, E>)
    requires batch != []
  {
    var (o, a) := Embed(batch, env, acc);
    Made(o, a.calls, Calls(batch, env, acc.calls), acc.calls, env)
  }

  lemma SplitMade<I, V, E>(
    first: Asked<I, E>, left: seq<Asked<I, E>>, half: (Outcome<E>, Acc<I, V, E>), right: seq<Asked<I, E>>,
    rest: (Outcome<E>, Acc<I, V, E>), whole: (Outcome<E>, Acc<I, V, E>), calls: seq<Asked<I, E>>, n: nat,
    env: Env<I, V, E>)
    requires !Stops(first, env) && Made(half.0, half.1.calls, left, n + 1, env)
    requires half.0.Returned? ==> Made(rest.0, rest.1.calls, right, half.1.calls, env)
    requires whole == if half.0.Returned? then rest else half
    requires calls == if Stops(left[|left| - 1], env) then [first] + left else [first] + left + right
    ensures Made(whole.0, whole.1.calls, calls, n, env)
  {
    HalvesMade(first, left, half.0, half.1.calls, right, rest.0, rest.1.calls, n, env);
  }

  lemma UnsplitMade<I, V, E>(batch: seq<Indexed<I>>, env: Env<I, V, E>, acc: Acc<I, V, E>)
    requires batch != [] && !Splits(batch, env, acc.calls)
    ensures EmbedMade(batch, env, acc)
  {
  }

  /** A first half that returned has counted exactly its calls. */
  lemma ReturnedCount<I, V, E>(o: Outcome<E>, end: nat, left: seq<Asked<I, E>>, n: nat, env: Env<I, V, E>)
    requires Made(o, end, left, n, env) && !Stops(left[|left| - 1], env)
    ensures o.Returned? && end == n + |left|
  {
  }

  /** The second half is numbered on from where a first half that returned left off. */
  lemma SecondHalfFollows<I, V, E>(o: Outcome<E>, end: nat, left: seq<Asked<I, E>>, n: nat, env: Env<I, V, E>)
    requires Made(o, end, left, n, env)
    ensures Stops(left[|left| - 1], env) || n + |left| == end
  {
    if !Stops(left[|left| - 1], env) { ReturnedCount(o, end, left, n, env); }
  }

  lemma CallsOfHalves<I, V, E>(
    batch: seq<Indexed<I>>, env: Env<I, V, E>, n: nat, left: seq<Asked<I, E>>, end: nat)
    requires Splits(batch, env, n) && left == Calls(batch[..Midpoint(|batch|)], env, n + 1)
    requires Stops(left[|left| - 1], env) || n + 1 + |left| == end
    ensures var first, right := Ask(env, n, Values(batch)), Calls(batch[Midpoint(|batch|)..], env, end);
            Calls(batch, env, n) == if Stops(left[|left| - 1], env) then [first] + left else [first] + left + right
  {
    var first, whole := Ask(env, n, Values(batch)), Calls(batch, env, n);
    if Stops(left[|left| - 1], env) {
      assert whole == [first] + left by { CallsSplit(batch, env, n); }
    } else {
      assert n + 1 + |left| == end;
      assert whole == [first] + left + Calls(batch[Midpoint(|batch|)..], env, end) by { CallsSplit(batch, env, n); }
    }
  }

  lemma HalvesMakeWhole<I, V, E>(
    batch: seq<Indexed<I>>, env: Env<I, V, E>, acc: Acc<I, V, E>, half: (Outcome<E>, Acc<I, V, E>),
    rest: (Outcome<E>, Acc<I, V, E>), left: seq<Asked<I, E>>, right: seq<Asked<I, E>>)
    requires Splits(batch, env, acc.calls)
    requires half == Embed(batch[..Midpoint(|batch|)], env, acc.(calls := acc.calls + 1))
    requires left == Calls(batch[..Midpoint(|batch|)], env, acc.calls + 1)
    requires rest == Embed(batch[Midpoint(|batch|)..], env, half.1)
    requires right == Calls(batch[Midpoint(|batch|)..], env, half.1.calls)
    requires Made(half.0, half.1.calls, left, acc.calls + 1, env)
    requires Made(rest.0, rest.1.calls, right, half.1.calls, env)
    ensures EmbedMade(batch, env, acc)
  {
    var first, whole, calls := Ask(env, acc.calls, Values(batch)), Embed(batch, env, acc), Calls(batch, env, acc.calls);
    assert whole == (if half.0.Returned? then rest else half) by { EmbedSplits(batch, env, acc); }
    assert calls == (if Stops(left[|left| - 1], env) then [first] + left else [first] + left + right) by {
      SecondHalfFollows(half.0, half.1.calls, left, acc.calls + 1, env);
      CallsOfHalves(batch, env, acc.calls, left, half.1.calls);
    }
    assert Made(whole.0, whole.1.calls, calls, acc.calls, env) by {
      SplitMade(first, left, half, right, rest, whole, calls, acc.calls, env);
    }
  }

  /** The recursion makes these calls, numbered on, and ends as the last of them does. */
  lemma {:induction false} EmbedMakesCalls<I, V, E>(batch: seq<Indexed<I>>, env: Env<I, V, E>, acc: Acc<I, V, E>)
    requires batch != []
    ensures EmbedMade(batch, env, acc)
    decreases |batch|
  {
    if !Splits(batch, env, acc.calls) {
      UnsplitMade(batch, env, acc);
    } else {
      var mid, next := Midpoint(|batch|), acc.(calls := acc.calls + 1);
      var half := Embed(batch[..mid], env, next);
      EmbedMakesCalls(batch[..mid], env, next);
      EmbedMakesCalls(batch[mid..], env, half.1);
      HalvesMakeWhole(batch, env, acc, half, Embed(batch[mid..], env, half.1), Calls(batch[..mid], env, next.calls),
                      Calls(batch[mid..], env, half.1.calls));
    }
  }

  predicate SomeFatal<I, V, E>(calls: seq<Asked<I, E>>, env: Env<I, V, E>) {
    exists i :: 0 <= i < |calls| && Fatal(calls[i], env)
  }

  predicate SomeAbort<I, E>(calls: seq<Asked<I, E>>) {
    exists i :: 0 <= i < |calls| && calls[i].SawAbort?
  }

  /** When only the last call may stop, whether any does is whether the last does. */
  lemma LastTells<I, V, E>(calls: seq<Asked<I, E>>, env: Env<I, V, E>)
    requires calls != [] && OnlyLastStops(calls, env)
    ensures SomeFatal(calls, env) <==> Fatal(calls[|calls| - 1], env)
    ensures SomeAbort(calls) <==> calls[|calls| - 1].SawAbort?
    ensures forall i | 0 <= i < |calls| && Fatal(calls[i], env) :: i == |calls| - 1
  {
    forall i | 0 <= i < |calls| && (Fatal(calls[i], env) || calls[i].SawAbort?) ensures i == |calls| - 1 {
      assert Stops(calls[i], env);
    }
  }

  /**
   * A batch throws exactly when some call it makes fails on several items and may not be
   * split; that is its last call, and what it failed with is thrown. It is aborted exactly
   * when the abort is seen before a call, and otherwise it returns.
   */
  lemma {:induction false} ThrowsIff<I, V, E>(batch: seq<Indexed<I>>, env: Env<I, V, E>, acc: Acc<I, V, E>)
    requires batch != []
    ensures var o, calls := Embed(batch, env, acc).0, Calls(batch, env, acc.calls);
            && (o.Thrown? <==> SomeFatal(calls, env))
            && (o.Aborted? <==> SomeAbort(calls))
            && (forall i | 0 <= i < |calls| && Fatal(calls[i], env) ::
                  i == |calls| - 1 && o == Thrown(calls[i].failure.value))
  {
    EmbedMakesCalls(batch, env, acc);
    LastTells(Calls(batch, env, acc.calls), env);
  }

  /**
   * A chunk that throws is reported for its first item alone, with the failure of its last
   * call; nothing it found on the way is kept.
   */
  lemma ThrownChunkReportsFirst<I, V, E>(chunk: seq<Indexed<I>>, env: Env<I, V, E>)
    requires chunk != [] && ChunkThrows(chunk, env)
    ensures var calls := Calls(chunk, env, 0);
            && Fatal(calls[|calls| - 1], env)
            && RunChunk(chunk, env) ==
               ChunkResult(map[], [ItemError(chunk[0].index, chunk[0].value, calls[|calls| - 1].failure.value)])
  {
    EmbedMakesCalls(chunk, env, Acc(map[], [], 0));
  }
}
