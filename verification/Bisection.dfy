/**
 * Batch embedding with bisection (packages/core/src/ai/index.ts, lines 262-325 and
 * 532-574): a rejected batch is split until single bad items remain.
 *
 * The provider may answer every call differently; its answers, the error classifier and
 * the abort signal are functions of the call number.
 */
module Bisection {
  import opened Powers

  datatype Reply<V, E> = Vectors(vs: seq<V>) | Rejects(error: E)

  /** What a failed call throws. */
  datatype Cause<E> = Provider(error: E) | WrongCount(got: nat, want: nat)

  datatype Verdict = Split | Fail

  datatype Env<!I, V, !E> = Env(
    provider: (nat, seq<I>) -> Reply<V, E>,
    classify: (Cause<E>, seq<I>) -> Verdict,
    aborted: nat -> bool)

  datatype Indexed<I> = Indexed(index: nat, value: I)

  datatype ItemError<I, E> = ItemError(index: nat, item: I, cause: Cause<E>)

  /** How a batch ends: normally, with a thrown error, or with the abort reason. */
  datatype Outcome<E> = Returned | Thrown(cause: Cause<E>) | Aborted

  /** The results map and errors array one chunk fills, and the provider calls made so far. */
  datatype Acc<I, V, E> = Acc(results: map<nat, V>, errors: seq<ItemError<I, E>>, calls: nat)

  function Values<I>(batch: seq<Indexed<I>>): seq<I> {
    seq(|batch|, i requires 0 <= i < |batch| => batch[i].value)
  }

  /** `results.set` for every item of a batch, in order. */
  function SetAll<I, V>(results: map<nat, V>, batch: seq<Indexed<I>>, vs: seq<V>): map<nat, V>
    requires |vs| == |batch|
    decreases |batch|
  {
    if batch == [] then results
    else SetAll(results, batch[..|batch| - 1], vs[..|vs| - 1])[batch[|batch| - 1].index := vs[|vs| - 1]]
  }

  function CauseOf<V, E>(r: Reply<V, E>, want: nat): Cause<E>
    requires r.Vectors? ==> |r.vs| != want
  {
    match r
    case Rejects(e) => Provider(e)
    case Vectors(vs) => WrongCount(|vs|, want)
  }

  function Midpoint(n: nat): nat {
    (n + 1) / 2
  }

  function Embed<I, V, E>(batch: seq<Indexed<I>>, env: Env<I, V, E>, acc: Acc<I, V, E>): (Outcome<E>, Acc<I, V, E>)
    requires batch != []
    decreases |batch|
  {
    if env.aborted(acc.calls) then (Aborted, acc)
    else
      var r := env.provider(acc.calls, Values(batch));
      var next := acc.(calls := acc.calls + 1);
      if r.Vectors? && |r.vs| == |batch| then (Returned, next.(results := SetAll(acc.results, batch, r.vs)))
      else
        var cause := CauseOf(r, |batch|);
        if |batch| > 1 && env.classify(cause, Values(batch)) == Split then
          var mid := Midpoint(|batch|);
          var (o, left) := Embed(batch[..mid], env, next);
          if o.Returned? then Embed(batch[mid..], env, left) else (o, left)
        else if |batch| == 1 then
          (Returned, next.(errors := acc.errors + [ItemError(batch[0].index, batch[0].value, cause)]))
        else (Thrown(cause), next)
  }

  /** The Map and the array shared by the recursion. */
  class Accumulator<!I, V, !E> {
    var results: map<nat, V>
    var errors: seq<ItemError<I, E>>
    var calls: nat

    constructor ()
      ensures Now() == Acc(map[], [], 0)
    {
      results, errors, calls := map[], [], 0;
    }

    function Now(): Acc<I, V, E>
      reads this
    {
      Acc(results, errors, calls)
    }

    method EmbedIndexedBatch(batch: seq<Indexed<I>>, env: Env<I, V, E>) returns (o: Outcome<E>)
      requires batch != []
      modifies this
      ensures (o, Now()) == Embed(batch, env, old(Now()))
      decreases |batch|
    {
      if env.aborted(calls) { return Aborted; }
      var reply := env.provider(calls, Values(batch));
      calls := calls + 1;
      if reply.Vectors? && |reply.vs| == |batch| {
        for i := 0 to |batch|
          invariant results == SetAll(old(results), batch[..i], reply.vs[..i])
          invariant errors == old(errors) && calls == old(calls) + 1
        {
          assert batch[..i + 1][..i] == batch[..i] && reply.vs[..i + 1][..i] == reply.vs[..i];
          results := results[batch[i].index := reply.vs[i]];
        }
        assert batch[..|batch|] == batch && reply.vs[..|batch|] == reply.vs;
        return Returned;
      }
      var cause := CauseOf(reply, |batch|);
      if |batch| > 1 && env.classify(cause, Values(batch)) == Split {
        var mid := Midpoint(|batch|);
        o := EmbedIndexedBatch(batch[..mid], env);
        if o.Returned? { o := EmbedIndexedBatch(batch[mid..], env); }
        return;
      }
      if |batch| == 1 {
        errors := errors + [ItemError(batch[0].index, batch[0].value, cause)];
        return Returned;
      }
      return Thrown(cause);
    }
  }

  // ---- Cost --------------------------------------------------------------------------------

  /** How often n halves, rounding up, before it is one. */
  function CeilLog2(n: nat): nat
    requires n >= 1
  {
    if n == 1 then 0 else 1 + CeilLog2(Midpoint(n))
  }

  /** `CeilLog2(n)` is the least exponent whose power of two reaches n. */
  lemma {:induction false} CeilLog2IsLog(n: nat, e: nat)
    requires n >= 1
    ensures Pow2(e) >= n <==> e >= CeilLog2(n)
  {
    if e == 0 {
    } else if n > 1 {
      CeilLog2IsLog(Midpoint(n), e - 1);
    } else {
      CeilLog2IsLog(1, e - 1);
    }
  }

  lemma CeilLog2Monotone(m: nat, n: nat)
    requires 1 <= m <= n
    ensures CeilLog2(m) <= CeilLog2(n)
  {
    CeilLog2IsLog(n, CeilLog2(n));
    CeilLog2IsLog(m, CeilLog2(n));
  }

  function Bad<I>(batch: seq<Indexed<I>>, bad: I -> bool): nat {
    if batch == [] then 0
    else (if bad(batch[0].value) then 1 else 0) + Bad(batch[1..], bad)
  }

  lemma {:induction false} BadSplits<I>(batch: seq<Indexed<I>>, mid: nat, bad: I -> bool)
    requires mid <= |batch|
    ensures Bad(batch, bad) == Bad(batch[..mid], bad) + Bad(batch[mid..], bad)
  {
    if mid > 0 {
      assert batch[..mid][1..] == batch[1..][..mid - 1] && batch[mid..] == batch[1..][mid - 1..];
      BadSplits(batch[1..], mid - 1, bad);
    } else {
      assert batch[..0] == [] && batch[0..] == batch;
    }
  }

  lemma {:induction false} NoBadMeansGood<I>(batch: seq<Indexed<I>>, bad: I -> bool)
    ensures Bad(batch, bad) == 0 <==> forall x | x in Values(batch) :: !bad(x)
  {
    if batch != [] {
      NoBadMeansGood(batch[1..], bad);
      assert Values(batch) == [batch[0].value] + Values(batch[1..]);
    }
  }

  /** The provider rejects exactly the batches that hold a bad item; otherwise it answers in full. */
  ghost predicate RejectsExactly<I(!new), V, E>(env: Env<I, V, E>, bad: I -> bool) {
    forall n, xs: seq<I> ::
      if exists x :: x in xs && bad(x) then env.provider(n, xs).Rejects?
      else env.provider(n, xs).Vectors? && |env.provider(n, xs).vs| == |xs|
  }

  ghost predicate AlwaysSplits<I(!new), V, E(!new)>(env: Env<I, V, E>) {
    forall cause, xs: seq<I> :: |xs| > 1 ==> env.classify(cause, xs) == Split
  }

  ghost predicate NeverAborted<I, V, E>(env: Env<I, V, E>) {
    forall n :: !env.aborted(n)
  }

  /** k paths of d levels each. */
  function Levels(k: nat, d: nat): nat {
    if k == 0 then 0 else d + Levels(k - 1, d)
  }

  lemma {:induction false} LevelsIsProduct(k: nat, d: nat)
    ensures Levels(k, d) == k * d
  {
    if k > 0 {
      LevelsIsProduct(k - 1, d);
      assert k * d == (k - 1) * d + d;
    }
  }

  lemma {:induction false} LevelsAdd(k1: nat, k2: nat, d: nat)
    ensures Levels(k1 + k2, d) == Levels(k1, d) + Levels(k2, d)
  {
    if k1 > 0 { LevelsAdd(k1 - 1, k2, d); }
  }

  lemma {:induction false} LevelsDeeper(k: nat, lower: nat, upper: nat)
    requires lower <= upper
    ensures Levels(k, lower) <= Levels(k, upper)
    ensures Levels(k, upper + 1) == Levels(k, upper) + k
  {
    if k > 0 { LevelsDeeper(k - 1, lower, upper); }
  }

  /** Two halves with k1 and k2 bad items, one level further down. */
  lemma SplitLevels(k1: nat, k2: nat, lower: nat, upper: nat)
    requires lower <= upper && k1 + k2 >= 1
    ensures Levels(k1, upper) + Levels(k2, lower) + 1 <= Levels(k1 + k2, upper + 1)
  {
    LevelsAdd(k1, k2, upper + 1);
    LevelsDeeper(k1, upper, upper);
    LevelsDeeper(k2, lower, upper);
  }

  /** A batch without bad items takes one call. */
  lemma GoodBatchCost<I(!new), V, E>(batch: seq<Indexed<I>>, env: Env<I, V, E>, acc: Acc<I, V, E>, bad: I -> bool)
    requires batch != [] && RejectsExactly(env, bad) && Bad(batch, bad) == 0
    ensures Embed(batch, env, acc).1.calls <= acc.calls + 1
  {
    NoBadMeansGood(batch, bad);
  }

  /** Any longer batch takes one call, or one more than its first half, or than both halves. */
  lemma SplitCalls<I, V, E>(batch: seq<Indexed<I>>, env: Env<I, V, E>, acc: Acc<I, V, E>)
    requires |batch| > 1
    ensures var next, mid := acc.(calls := acc.calls + 1), Midpoint(|batch|);
            var left := Embed(batch[..mid], env, next).1;
            var both := Embed(batch[mid..], env, left).1;
            var calls := Embed(batch, env, acc).1.calls;
            calls <= acc.calls + 1 || calls == left.calls || calls == both.calls
  {
  }

  /** The two halves within their levels keep the whole batch within its own. */
  lemma HalvesWithin(n: nat, mid: nat, k1: nat, k2: nat, calls: nat, start: nat, left: nat, both: nat)
    requires n > 1 && mid == Midpoint(n) && k1 + k2 >= 1
    requires calls <= start + 1 || calls == left || calls == both
    requires left <= start + 2 + 2 * Levels(k1, CeilLog2(mid))
    requires both <= left + 1 + 2 * Levels(k2, CeilLog2(n - mid))
    ensures calls <= start + 1 + 2 * Levels(k1 + k2, CeilLog2(n))
  {
    CeilLog2Monotone(n - mid, mid);
    SplitLevels(k1, k2, CeilLog2(n - mid), CeilLog2(mid));
  }

  /** Batches without bad items, and batches of one, take one call. */
  ghost predicate GoodIsCheap<I(!new), V(!new), E(!new)>(env: Env<I, V, E>, bad: I -> bool) {
    forall batch, acc: Acc<I, V, E> | batch != [] && (Bad(batch, bad) == 0 || |batch| == 1) ::
      Embed(batch, env, acc).1.calls <= acc.calls + 1
  }

  lemma SplitWithin<I, V, E>(batch: seq<Indexed<I>>, env: Env<I, V, E>, acc: Acc<I, V, E>, bad: I -> bool)
    requires |batch| > 1 && Bad(batch, bad) > 0
    requires var mid, next := Midpoint(|batch|), acc.(calls := acc.calls + 1);
             var left := Embed(batch[..mid], env, next).1;
             && left.calls <= next.calls + 1 + 2 * Levels(Bad(batch[..mid], bad), CeilLog2(mid))
             && Embed(batch[mid..], env, left).1.calls
                <= left.calls + 1 + 2 * Levels(Bad(batch[mid..], bad), CeilLog2(|batch| - mid))
    ensures Embed(batch, env, acc).1.calls <= acc.calls + 1 + 2 * Levels(Bad(batch, bad), CeilLog2(|batch|))
  {
    var mid, next := Midpoint(|batch|), acc.(calls := acc.calls + 1);
    var left := Embed(batch[..mid], env, next).1;
    SplitCalls(batch, env, acc);
    BadSplits(batch, mid, bad);
    HalvesWithin(|batch|, mid, Bad(batch[..mid], bad), Bad(batch[mid..], bad),
                 Embed(batch, env, acc).1.calls, acc.calls, left.calls, Embed(batch[mid..], env, left).1.calls);
  }

  lemma {:induction false} BisectionLevels<I(!new), V(!new), E(!new)>(
    batch: seq<Indexed<I>>, env: Env<I, V, E>, acc: Acc<I, V, E>, bad: I -> bool)
    requires batch != [] && GoodIsCheap(env, bad)
    ensures Embed(batch, env, acc).1.calls <= acc.calls + 1 + 2 * Levels(Bad(batch, bad), CeilLog2(|batch|))
    decreases |batch|
  {
    if Bad(batch, bad) > 0 && |batch| > 1 {
      var mid, next := Midpoint(|batch|), acc.(calls := acc.calls + 1);
      BisectionLevels(batch[..mid], env, next, bad);
      BisectionLevels(batch[mid..], env, Embed(batch[..mid], env, next).1, bad);
      SplitWithin(batch, env, acc, bad);
    }
  }

  lemma TwiceLevels(k: nat, d: nat)
    ensures 2 * Levels(k, d) == 2 * k * d
  {
    LevelsAdd(k, k, d);
    LevelsIsProduct(2 * k, d);
  }

  /** With k bad items, splitting a batch of n costs at most 1 + 2k * ceil(log2 n) provider calls. */
  lemma {:induction false} BisectionCost<I(!new), V(!new), E(!new)>(
    batch: seq<Indexed<I>>, env: Env<I, V, E>, acc: Acc<I, V, E>, bad: I -> bool)
    requires batch != [] && RejectsExactly(env, bad)
    ensures Embed(batch, env, acc).1.calls <= acc.calls + (1 + 2 * Bad(batch, bad) * CeilLog2(|batch|))
  {
    forall b, a: Acc<I, V, E> | b != [] && (Bad(b, bad) == 0 || |b| == 1)
      ensures Embed(b, env, a).1.calls <= a.calls + 1
    {
      if Bad(b, bad) == 0 { GoodBatchCost(b, env, a, bad); }
    }
    BisectionLevels(batch, env, acc, bad);
    TwiceLevels(Bad(batch, bad), CeilLog2(|batch|));
  }

  /** Whatever the provider answers, a batch of n costs at most 2n - 1 calls. */
  lemma {:induction false} CostAtMostTwice<I, V, E>(batch: seq<Indexed<I>>, env: Env<I, V, E>, acc: Acc<I, V, E>)
    requires batch != []
    ensures Embed(batch, env, acc).1.calls - acc.calls <= 2 * |batch| - 1
    decreases |batch|
  {
    if |batch| > 1 {
      var mid := Midpoint(|batch|);
      var next := acc.(calls := acc.calls + 1);
      CostAtMostTwice(batch[..mid], env, next);
      CostAtMostTwice(batch[mid..], env, Embed(batch[..mid], env, next).1);
    }
  }
}
