/**
 * `run.pool` (packages/core/src/run/index.ts, lines 149-171): workers that claim the next
 * task, await it and write its own slot, whatever order the tasks finish in.
 *
 * `answers[i]` is what task i resolves with, if it does.
 */
module WorkerPool {

  datatype Worker = Unstarted | Awaiting(index: nat) | Done | Rejected

  /**
   * The closure's variables: the next index to claim, whether the group's scope still
   * accepts tasks, the workers, and the results array. `started` and `settled` log the
   * tasks in the order they started and settled.
   */
  datatype Vars<R> = Vars(
    next: nat, open: bool, workers: seq<Worker>, slots: map<nat, R>, started: seq<nat>, settled: seq<nat>)

  datatype Event =
    | Begin(worker: nat)
    | Resolves(worker: nat)
    | Rejects(worker: nat, cancelled: bool)  // with a cancellation, or with a failure that closes the scope
    | CancelScope

  function Least(a: nat, b: nat): nat {
    if a <= b then a else b
  }

  function Init<R>(concurrency: nat, answers: seq<R>): Vars<R> {
    Vars(0, true, seq(Least(concurrency, |answers|), _ => Unstarted), map[], [], [])
  }

  /** The head of a worker's loop: done, or a claim whose spawn a cancelled scope refuses. */
  function Claim<R>(v: Vars<R>, w: nat, n: nat): Vars<R>
    requires w < |v.workers|
  {
    if v.next >= n then v.(workers := v.workers[w := Done])
    else if !v.open then v.(next := v.next + 1, workers := v.workers[w := Rejected])
    else v.(next := v.next + 1, workers := v.workers[w := Awaiting(v.next)], started := v.started + [v.next])
  }

  predicate Enabled<R>(v: Vars<R>, e: Event) {
    match e
    case Begin(w) => w < |v.workers| && v.workers[w].Unstarted? && (w > 0 ==> !v.workers[w - 1].Unstarted?)
    case Resolves(w) => w < |v.workers| && v.workers[w].Awaiting?
    case Rejects(w, _) => w < |v.workers| && v.workers[w].Awaiting?
    case CancelScope => true
  }

  /** One synchronous stretch; an event that cannot happen changes nothing. */
  function Step<R>(v: Vars<R>, e: Event, answers: seq<R>): Vars<R> {
    if !Enabled(v, e) then v else
    match e
    case Begin(w) => Claim(v, w, |answers|)
    case Resolves(w) =>
      var i := v.workers[w].index;
      var slots := if i < |answers| then v.slots[i := answers[i]] else v.slots;
      Claim(v.(slots := slots, settled := v.settled + [i]), w, |answers|)
    case Rejects(w, cancelled) =>
      v.(open := v.open && cancelled, workers := v.workers[w := Rejected],
         settled := v.settled + [v.workers[w].index])
    case CancelScope => v.(open := false)
  }

  function Run<R>(v: Vars<R>, es: seq<Event>, answers: seq<R>): Vars<R>
    decreases |es|
  {
    if es == [] then v else Step(Run(v, es[..|es| - 1], answers), es[|es| - 1], answers)
  }

  // ---- The closure, updated in place -------------------------------------------------------

  class Pool<R> {
    const answers: seq<R>
    var next: nat
    var open: bool
    var workers: seq<Worker>
    var slots: map<nat, R>
    ghost var started: seq<nat>
    ghost var settled: seq<nat>

    ghost function Now(): Vars<R>
      reads this
    {
      Vars(next, open, workers, slots, started, settled)
    }

    constructor (concurrency: nat, answers: seq<R>)
      ensures this.answers == answers && Now() == Init(concurrency, answers)
    {
      this.answers := answers;
      next, open, slots, started, settled := 0, true, map[], [], [];
      workers := seq(Least(concurrency, |answers|), _ => Unstarted);
    }

    /** A worker at the head of its loop. */
    method ClaimNext(w: nat)
      requires w < |workers|
      modifies this
      ensures Now() == Claim(old(Now()), w, |answers|)
    {
      if next >= |answers| {
        workers := workers[w := Done];
        return;
      }
      var index := next;
      next := next + 1;
      if !open {
        workers := workers[w := Rejected];
        return;
      }
      started := started + [index];
      workers := workers[w := Awaiting(index)];
    }

    method OnResolved(w: nat)
      requires w < |workers| && workers[w].Awaiting? && workers[w].index < |answers|
      modifies this
      ensures Now() == Step(old(Now()), Resolves(w), answers)
    {
      var index := workers[w].index;
      slots := slots[index := answers[index]];
      settled := settled + [index];
      ClaimNext(w);
    }

    method OnRejected(w: nat, cancelled: bool)
      requires w < |workers| && workers[w].Awaiting?
      modifies this
      ensures Now() == Step(old(Now()), Rejects(w, cancelled), answers)
    {
      settled := settled + [workers[w].index];
      workers := workers[w := Rejected];
      if !cancelled { open := false; }
    }
  }

  // ---- Over every interleaving ---------------------------------------------------------------

  function UpTo(n: nat): seq<nat> {
    seq(n, i requires 0 <= i < n => i)
  }

  function InFlight(workers: seq<Worker>): nat {
    if workers == [] then 0
    else InFlight(workers[..|workers| - 1]) + (if workers[|workers| - 1].Awaiting? then 1 else 0)
  }

  lemma {:induction false} InFlightUpdated(ws: seq<Worker>, w: nat, x: Worker)
    requires w < |ws|
    ensures InFlight(ws[w := x]) + (if ws[w].Awaiting? then 1 else 0) == InFlight(ws) + (if x.Awaiting? then 1 else 0)
  {
    var n := |ws| - 1;
    if w < n {
      assert ws[w := x][..n] == ws[..n][w := x];
      InFlightUpdated(ws[..n], w, x);
    } else {
      assert ws[w := x][..n] == ws[..n];
    }
  }

  lemma {:induction false} InFlightBounded(ws: seq<Worker>)
    ensures InFlight(ws) <= |ws|
    ensures (forall w | 0 <= w < |ws| :: ws[w].Awaiting?) ==> InFlight(ws) == |ws|
  {
    if ws != [] { InFlightBounded(ws[..|ws| - 1]); }
  }

  lemma {:induction false} NoneInFlight(k: nat)
    ensures InFlight(seq(k, _ => Unstarted)) == 0
  {
    if k > 0 {
      assert seq(k, _ => Unstarted)[..k - 1] == seq(k - 1, _ => Unstarted);
      NoneInFlight(k - 1);
    }
  }

  /** Tasks start in index order; each worker awaits a started, unsettled task of its own. */
  ghost predicate Claimed<R>(v: Vars<R>, n: nat) {
    && |v.started| <= v.next <= n && (v.open ==> |v.started| == v.next)
    && v.started == UpTo(|v.started|)
    && (forall w | 0 <= w < |v.workers| && v.workers[w].Awaiting? ::
          v.workers[w].index < |v.started| && v.workers[w].index !in v.settled)
    && (forall w, x | 0 <= w < x < |v.workers| && v.workers[w].Awaiting? && v.workers[x].Awaiting? ::
          v.workers[w].index != v.workers[x].index)
  }

  /** Every started task is settled or in flight, once. */
  ghost predicate Counted<R>(v: Vars<R>) {
    |v.started| == |v.settled| + InFlight(v.workers)
  }

  ghost predicate AnyRejected<R>(v: Vars<R>) {
    exists w :: 0 <= w < |v.workers| && v.workers[w].Rejected?
  }

  /** Slots hold answers of settled tasks; without a rejection they hold all of them, and every claim was started. */
  ghost predicate Filled<R>(v: Vars<R>, answers: seq<R>) {
    && (forall i | i in v.slots :: i in v.settled && i < |answers| && v.slots[i] == answers[i])
    && (forall i | i in v.settled :: i < |v.started|)
    && (forall w | 0 <= w < |v.workers| && v.workers[w].Done? :: v.next >= |answers|)
    && (AnyRejected(v) || (v.next == |v.started| && forall i | i in v.settled :: i in v.slots))
  }

  /** Each started task is settled or held by a worker. */
  ghost predicate Held<R>(v: Vars<R>) {
    forall i | 0 <= i < |v.started| && i !in v.settled :: Holder(v, i)
  }

  ghost predicate Holder<R>(v: Vars<R>, i: nat) {
    exists w :: 0 <= w < |v.workers| && v.workers[w] == Awaiting(i)
  }

  ghost predicate Invariant<R>(v: Vars<R>, answers: seq<R>) {
    Claimed(v, |answers|) && Counted(v) && Filled(v, answers) && Held(v)
  }

  /** The worker lets go of its task, which has settled. */
  function Release<R>(v: Vars<R>, w: nat, to: Worker, slots: map<nat, R>): Vars<R>
    requires w < |v.workers| && v.workers[w].Awaiting?
  {
    v.(workers := v.workers[w := to], slots := slots, settled := v.settled + [v.workers[w].index])
  }

  lemma ReleaseKeeps<R>(v: Vars<R>, w: nat, to: Worker, n: nat, slots: map<nat, R>)
    requires w < |v.workers| && v.workers[w].Awaiting? && (to.Unstarted? || to.Rejected?)
    requires Claimed(v, n) && Counted(v)
    ensures Claimed(Release(v, w, to, slots), n) && Counted(Release(v, w, to, slots))
  {
    InFlightUpdated(v.workers, w, to);
  }

  lemma ReleaseHeld<R>(v: Vars<R>, w: nat, to: Worker, slots: map<nat, R>)
    requires w < |v.workers| && v.workers[w].Awaiting? && Held(v)
    ensures Held(Release(v, w, to, slots))
  {
    var z := Release(v, w, to, slots);
    forall i | 0 <= i < |z.started| && i !in z.settled ensures Holder(z, i) {
      assert i !in v.settled && i != v.workers[w].index by {
        assert z.settled[|v.settled|] == v.workers[w].index && forall k | k in v.settled :: k in z.settled;
      }
      assert Holder(v, i);
      var x :| 0 <= x < |v.workers| && v.workers[x] == Awaiting(i);
      assert z.workers[x] == Awaiting(i);
    }
  }

  lemma ResolveFills<R>(v: Vars<R>, w: nat, answers: seq<R>)
    requires w < |v.workers| && v.workers[w].Awaiting? && Claimed(v, |answers|) && Filled(v, answers)
    ensures var i := v.workers[w].index;
            i < |answers| && Filled(Release(v, w, Unstarted, v.slots[i := answers[i]]), answers)
  {
    var i := v.workers[w].index;
    var z := Release(v, w, Unstarted, v.slots[i := answers[i]]);
    if AnyRejected(v) {
      var x :| 0 <= x < |v.workers| && v.workers[x].Rejected?;
      assert z.workers[x].Rejected?;
    }
    assert z.settled[|v.settled|] == i;
  }

  lemma RejectFills<R>(v: Vars<R>, w: nat, answers: seq<R>)
    requires w < |v.workers| && v.workers[w].Awaiting? && Claimed(v, |answers|) && Filled(v, answers)
    ensures Filled(Release(v, w, Rejected, v.slots), answers)
  {
    var z := Release(v, w, Rejected, v.slots);
    assert z.workers[w].Rejected?;
  }

  lemma ClaimKeeps<R>(v: Vars<R>, w: nat, n: nat)
    requires w < |v.workers| && v.workers[w].Unstarted? && Claimed(v, n) && Counted(v)
    requires forall i | i in v.settled :: i < |v.started|
    ensures Claimed(Claim(v, w, n), n) && Counted(Claim(v, w, n))
  {
    InFlightUpdated(v.workers, w, Claim(v, w, n).workers[w]);
  }

  lemma ClaimHeld<R>(v: Vars<R>, w: nat, n: nat)
    requires w < |v.workers| && v.workers[w].Unstarted? && Held(v)
    requires v.open ==> |v.started| == v.next
    ensures Held(Claim(v, w, n))
  {
    var z := Claim(v, w, n);
    forall i | 0 <= i < |z.started| && i !in z.settled ensures Holder(z, i) {
      if i < |v.started| {
        assert Holder(v, i);
        var x :| 0 <= x < |v.workers| && v.workers[x] == Awaiting(i);
        assert z.workers[x] == Awaiting(i);
      } else {
        assert z.workers[w] == Awaiting(i);
      }
    }
  }

  lemma ClaimFills<R>(v: Vars<R>, w: nat, answers: seq<R>)
    requires w < |v.workers| && v.workers[w].Unstarted? && Filled(v, answers)
    requires v.open ==> |v.started| == v.next
    ensures Filled(Claim(v, w, |answers|), answers)
  {
    var z := Claim(v, w, |answers|);
    if AnyRejected(v) {
      var x :| 0 <= x < |v.workers| && v.workers[x].Rejected?;
      assert z.workers[x].Rejected?;
    } else if z.next != |z.started| {
      assert z.workers[w].Rejected?;
    }
  }

  lemma ClaimInvariant<R>(v: Vars<R>, w: nat, answers: seq<R>)
    requires w < |v.workers| && v.workers[w].Unstarted? && Invariant(v, answers)
    ensures Invariant(Claim(v, w, |answers|), answers)
  {
    ClaimKeeps(v, w, |answers|);
    ClaimHeld(v, w, |answers|);
    ClaimFills(v, w, answers);
  }

  lemma ResolveInvariant<R>(v: Vars<R>, w: nat, answers: seq<R>)
    requires w < |v.workers| && v.workers[w].Awaiting? && Invariant(v, answers)
    ensures Invariant(Step(v, Resolves(w), answers), answers)
  {
    var i := v.workers[w].index;
    ResolveFills(v, w, answers);
    var slots := v.slots[i := answers[i]];
    ReleaseKeeps(v, w, Unstarted, |answers|, slots);
    ReleaseHeld(v, w, Unstarted, slots);
    ClaimInvariant(Release(v, w, Unstarted, slots), w, answers);
    ClaimsAlike(v.(slots := slots, settled := v.settled + [i]), w, |answers|);
  }

  /** A claim does not look at what the worker did before. */
  lemma ClaimsAlike<R>(v: Vars<R>, w: nat, n: nat)
    requires w < |v.workers|
    ensures Claim(v.(workers := v.workers[w := Unstarted]), w, n) == Claim(v, w, n)
  {
    var x := Claim(v, w, n).workers[w];
    assert v.workers[w := Unstarted][w := x] == v.workers[w := x];
  }

  lemma RejectInvariant<R>(v: Vars<R>, w: nat, cancelled: bool, answers: seq<R>)
    requires w < |v.workers| && v.workers[w].Awaiting? && Invariant(v, answers)
    ensures Invariant(Step(v, Rejects(w, cancelled), answers), answers)
  {
    var z := Release(v, w, Rejected, v.slots);
    ReleaseKeeps(v, w, Rejected, |answers|, v.slots);
    ReleaseHeld(v, w, Rejected, v.slots);
    RejectFills(v, w, answers);
    CloseInvariant(z, answers);
  }

  lemma CloseInvariant<R>(v: Vars<R>, answers: seq<R>)
    requires Invariant(v, answers)
    ensures Invariant(v.(open := false), answers)
  {
    var z := v.(open := false);
    assert AnyRejected(v) == AnyRejected(z);
    forall i | 0 <= i < |z.started| && i !in z.settled ensures Holder(z, i) { assert Holder(v, i); }
  }

  lemma StepKeepsInvariant<R>(v: Vars<R>, e: Event, answers: seq<R>)
    requires Invariant(v, answers)
    ensures Invariant(Step(v, e, answers), answers)
  {
    if Enabled(v, e) {
      match e
      case Begin(w) => ClaimInvariant(v, w, answers);
      case Resolves(w) => ResolveInvariant(v, w, answers);
      case Rejects(w, cancelled) => RejectInvariant(v, w, cancelled, answers);
      case CancelScope => CloseInvariant(v, answers);
    }
  }

  lemma {:induction false} RunKeepsInvariant<R>(concurrency: nat, es: seq<Event>, answers: seq<R>)
    ensures Invariant(Run(Init(concurrency, answers), es, answers), answers)
    ensures |Run(Init(concurrency, answers), es, answers).workers| == Least(concurrency, |answers|)
    decreases |es|
  {
    if es == [] {
      NoneInFlight(Least(concurrency, |answers|));
    } else {
      RunKeepsInvariant(concurrency, es[..|es| - 1], answers);
      StepKeepsInvariant(Run(Init(concurrency, answers), es[..|es| - 1], answers), es[|es| - 1], answers);
    }
  }

  /**
   * Over every interleaving tasks start in index order, each at most once; every started
   * task has settled or is awaited by exactly one worker; and no more than `concurrency`
   * are in flight.
   */
  lemma {:induction false} StartsOnceWithinConcurrency<R>(concurrency: nat, es: seq<Event>, answers: seq<R>)
    ensures var v := Run(Init(concurrency, answers), es, answers);
            && |v.started| <= |answers| && v.started == UpTo(|v.started|)
            && (forall i | 0 <= i < |v.started| && i !in v.settled :: Holder(v, i))
            && (forall w, x | 0 <= w < x < |v.workers| && v.workers[w].Awaiting? && v.workers[x].Awaiting? ::
                  v.workers[w].index != v.workers[x].index)
            && |v.started| - |v.settled| == InFlight(v.workers) <= concurrency
  {
    var v := Run(Init(concurrency, answers), es, answers);
    RunKeepsInvariant(concurrency, es, answers);
    InFlightBounded(v.workers);
  }

  /** The pool is never idle: while tasks are left and no worker was rejected, every worker that began awaits one. */
  lemma {:induction false} FullyUsed<R>(concurrency: nat, es: seq<Event>, answers: seq<R>)
    requires var v := Run(Init(concurrency, answers), es, answers);
             && v.next < |answers| && !AnyRejected(v) && forall w | 0 <= w < |v.workers| :: !v.workers[w].Unstarted?
    ensures var v := Run(Init(concurrency, answers), es, answers);
            |v.started| - |v.settled| == Least(concurrency, |answers|)
  {
    var v := Run(Init(concurrency, answers), es, answers);
    RunKeepsInvariant(concurrency, es, answers);
    assert forall w | 0 <= w < |v.workers| :: v.workers[w].Awaiting?;
    InFlightBounded(v.workers);
  }

  /** The promise of the pool resolves: `Promise.all` of its workers. */
  predicate AllDone<R>(v: Vars<R>) {
    forall w | 0 <= w < |v.workers| :: v.workers[w].Done?
  }

  lemma {:induction false} InFlightNone(ws: seq<Worker>)
    requires forall w | 0 <= w < |ws| :: !ws[w].Awaiting?
    ensures InFlight(ws) == 0
  {
    if ws != [] { InFlightNone(ws[..|ws| - 1]); }
  }

  /**
   * When every worker is done, in whatever order the tasks finished, each task has started
   * and settled once and the slots are exactly the answers.
   */
  lemma {:induction false} SlotsAreAnswers<R>(concurrency: nat, es: seq<Event>, answers: seq<R>)
    requires concurrency >= 1 && AllDone(Run(Init(concurrency, answers), es, answers))
    ensures var v := Run(Init(concurrency, answers), es, answers);
            && v.started == UpTo(|answers|) && |v.settled| == |answers|
            && v.slots == map i: nat | i < |answers| :: answers[i]
  {
    var v := Run(Init(concurrency, answers), es, answers);
    RunKeepsInvariant(concurrency, es, answers);
    InFlightNone(v.workers);
    if answers != [] { assert v.workers[0].Done?; }
    assert !AnyRejected(v);
    assert forall i | 0 <= i < |v.started| :: !Holder(v, i);
    assert forall i: nat | i < |answers| :: i in v.settled && i in v.slots;
  }

  /** The results array. */
  function Results<R>(slots: map<nat, R>, n: nat): seq<R>
    requires forall i: nat | i < n :: i in slots
  {
    seq(n, i requires 0 <= i < n => slots[i])
  }
}
