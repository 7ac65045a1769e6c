/**
 * `run.hedge` (packages/core/src/run/index.ts, lines 282-356): staggered duplicate
 * attempts racing to settle one promise. Attempt bodies, timers and the parent signal
 * fire in any order the environment chooses; bodies return promises and do not throw
 * synchronously.
 */
module Hedge {

  datatype Body = Running | Won | Lost

  /** One started attempt and its AbortController. */
  datatype Started = Started(attempt: nat, aborted: bool, body: Body)

  /** How the outer promise settles. */
  datatype Finish<V, E> = Resolved(value: V) | AllFailed(errors: seq<E>) | ParentReason

  /**
   * The closure's variables. `next` is the loop counter of the set-up, `pending` the
   * attempts whose timer is live, `finishes` every call of resolve or reject.
   */
  datatype Vars<V, E> = Vars(
    max: nat, after: nat, next: nat, listening: bool, settled: bool, completed: nat, errors: seq<E>,
    started: seq<Started>, pending: set<nat>, finishes: seq<Finish<V, E>>)

  datatype Event<V, E> =
    | SetUp                       // one iteration of the set-up loop
    | ParentAborts
    | TimerFires(attempt: nat)
    | BodyResolves(i: nat, value: V)
    | BodyRejects(i: nat, error: E)

  function Init<V, E>(max: int, after: nat, parentAborted: bool): Vars<V, E> {
    var n := if max > 1 then max else 1;
    if parentAborted then Vars(n, after, n + 1, false, false, 0, [], [], {}, [ParentReason])
    else Vars(n, after, 1, true, false, 0, [], [], {}, [])
  }

  function AbortAll(started: seq<Started>): seq<Started> {
    seq(|started|, i requires 0 <= i < |started| => started[i].(aborted := true))
  }

  /** `settle`: first one wins; pending starts are cleared. */
  function Settle<V, E>(v: Vars<V, E>, abort: bool, finish: Finish<V, E>): Vars<V, E> {
    if v.settled then v
    else v.(settled := true, pending := {}, started := if abort then AbortAll(v.started) else v.started,
            finishes := v.finishes + [finish])
  }

  function Start<V, E>(v: Vars<V, E>, attempt: nat): Vars<V, E> {
    if v.settled then v else v.(started := v.started + [Started(attempt, false, Running)])
  }

  /** Events can only happen when their source exists; anything else changes nothing. */
  predicate Enabled<V, E>(v: Vars<V, E>, e: Event<V, E>) {
    match e
    case SetUp => v.next <= v.max
    case ParentAborts => v.listening
    case TimerFires(a) => v.next > v.max && a in v.pending
    case BodyResolves(i, _) => v.next > v.max && i < |v.started| && v.started[i].body.Running?
    case BodyRejects(i, _) => v.next > v.max && i < |v.started| && v.started[i].body.Running?
  }

  function Step<V, E>(v: Vars<V, E>, e: Event<V, E>): Vars<V, E> {
    if !Enabled(v, e) then v else
    match e
    case SetUp =>
      var w := v.(next := v.next + 1);
      if (v.next as int - 1) * v.after == 0 then Start(w, v.next) else w.(pending := v.pending + {v.next})
    case ParentAborts => Settle(v.(listening := false), true, ParentReason)
    case TimerFires(a) => Start(v.(pending := v.pending - {a}), a)
    case BodyResolves(i, value) =>
      Settle(v.(started := v.started[i := v.started[i].(body := Won)]), true, Resolved(value))
    case BodyRejects(i, error) =>
      var w := v.(started := v.started[i := v.started[i].(body := Lost)]);
      if v.settled then w
      else
        var x := w.(errors := v.errors + [error], completed := v.completed + 1);
        if x.completed == x.max then Settle(x, false, AllFailed(x.errors)) else x
  }

  function Run<V, E>(v: Vars<V, E>, es: seq<Event<V, E>>): Vars<V, E>
    decreases |es|
  {
    if es == [] then v else Step(Run(v, es[..|es| - 1]), es[|es| - 1])
  }

  /** The first n iterations of the set-up loop; in those of `aborts` the parent aborts before the next. */
  function SetUps<V, E>(n: nat, aborts: set<nat>): seq<Event<V, E>> {
    if n == 0 then []
    else SetUps(n - 1, aborts) + [SetUp] + (if n in aborts then [ParentAborts] else [])
  }

  function SetUpStep<V, E>(v: Vars<V, E>, abortsParent: bool): Vars<V, E> {
    var w := Step(v, SetUp);
    if abortsParent then Step(w, ParentAborts) else w
  }

  lemma SetUpsRun<V, E>(v: Vars<V, E>, n: nat, aborts: set<nat>)
    requires n >= 1
    ensures Run(v, SetUps(n, aborts)) == SetUpStep(Run(v, SetUps(n - 1, aborts)), n in aborts)
  {
    var es := SetUps<V, E>(n - 1, aborts);
    assert (es + [SetUp])[..|es|] == es;
    assert (es + [SetUp, ParentAborts])[..|es| + 1] == es + [SetUp];
    assert es + [SetUp] + [ParentAborts] == es + [SetUp, ParentAborts];
    assert es + [SetUp] + [] == es + [SetUp];
  }

  // ---- The wrapper's state, updated in place -------------------------------------------

  class Hedged<V, E> {
    const max: nat
    const after: nat
    var next: nat
    var listening: bool
    var settled: bool
    var completed: nat
    var errors: seq<E>
    var started: seq<Started>
    var pending: set<nat>
    var finishes: seq<Finish<V, E>>

    function Now(): Vars<V, E>
      reads this
    {
      Vars(max, after, next, listening, settled, completed, errors, started, pending, finishes)
    }

    constructor (max: int, after: nat, parentAborted: bool)
      ensures Now() == Init(max, after, parentAborted)
    {
      var n: nat := if max > 1 then max else 1;
      this.max, this.after := n, after;
      settled, completed, errors, started, pending := false, 0, [], [], {};
      if parentAborted {
        next, listening, finishes := n + 1, false, [ParentReason];
      } else {
        next, listening, finishes := 1, true, [];
      }
    }

    method SettleWith(abort: bool, finish: Finish<V, E>)
      modifies this
      ensures Now() == Settle(old(Now()), abort, finish)
    {
      if settled { return; }
      settled := true;
      while pending != {}
        invariant Now() == old(Now()).(settled := true, pending := pending)
      {
        var t :| t in pending;
        pending := pending - {t};
      }
      if abort {
        var i := 0;
        ghost var was := started;
        while i < |started|
          invariant 0 <= i <= |started| == |was|
          invariant Now() == old(Now()).(settled := true, pending := {}, started := started)
          invariant forall j | 0 <= j < |was| :: started[j] == if j < i then was[j].(aborted := true) else was[j]
        {
          started := started[i := started[i].(aborted := true)];
          i := i + 1;
        }
        assert started == AbortAll(was);
      }
      finishes := finishes + [finish];
    }

    method StartAttempt(attempt: nat)
      modifies this
      ensures Now() == Start(old(Now()), attempt)
    {
      if settled { return; }
      started := started + [Started(attempt, false, Running)];
    }

    /** One iteration of the set-up loop, whose attempt may abort the parent from its synchronous prefix. */
    method SetUpAttempt(abortsParent: bool)
      requires next <= max
      modifies this
      ensures Now() == SetUpStep(old(Now()), abortsParent)
    {
      var attempt := next;
      next := next + 1;
      var delayMs := (attempt as int - 1) * after;
      if delayMs == 0 { StartAttempt(attempt); } else { pending := pending + {attempt}; }
      if abortsParent && listening { OnParentAbort(); }
    }

    /** The set-up loop; the attempts of `aborts` abort the parent. */
    method SetUpLoop(aborts: set<nat>)
      requires next == 1
      modifies this
      ensures Now() == Run(old(Now()), SetUps(max, aborts))
    {
      ghost var before := Now();
      for attempt := 1 to max + 1
        invariant next == attempt && Now() == Run(before, SetUps(attempt - 1, aborts))
      {
        SetUpsRun(before, attempt, aborts);
        SetUpAttempt(attempt in aborts);
      }
    }

    method OnParentAbort()
      requires listening
      modifies this
      ensures Now() == Step(old(Now()), ParentAborts)
    {
      listening := false;
      SettleWith(true, ParentReason);
    }

    method OnTimer(attempt: nat)
      requires next > max && attempt in pending
      modifies this
      ensures Now() == Step(old(Now()), TimerFires(attempt))
    {
      pending := pending - {attempt};
      StartAttempt(attempt);
    }

    method OnResolve(i: nat, value: V)
      requires next > max && i < |started| && started[i].body.Running?
      modifies this
      ensures Now() == Step(old(Now()), BodyResolves(i, value))
    {
      started := started[i := started[i].(body := Won)];
      SettleWith(true, Resolved(value));
    }

    method OnReject(i: nat, error: E)
      requires next > max && i < |started| && started[i].body.Running?
      modifies this
      ensures Now() == Step(old(Now()), BodyRejects(i, error))
    {
      started := started[i := started[i].(body := Lost)];
      if settled { return; }
      errors := errors + [error];
      completed := completed + 1;
      if completed == max { SettleWith(false, AllFailed(errors)); }
    }
  }

  // ---- Over every interleaving ----------------------------------------------------------

  function Losses(started: seq<Started>): nat {
    if started == [] then 0
    else Losses(started[..|started| - 1]) + (if started[|started| - 1].body.Lost? then 1 else 0)
  }

  lemma {:induction false} LossesUpdate(s: seq<Started>, i: nat, x: Started)
    requires i < |s|
    ensures Losses(s[i := x]) == Losses(s) - (if s[i].body.Lost? then 1 else 0) + (if x.body.Lost? then 1 else 0)
  {
    var t := s[i := x];
    if i == |s| - 1 {
      assert t[..i] == s[..i];
    } else {
      assert t[..|s| - 1] == s[..|s| - 1][i := x];
      LossesUpdate(s[..|s| - 1], i, x);
    }
  }

  lemma {:induction false} LossesBound(s: seq<Started>)
    ensures Losses(s) <= |s|
    ensures Losses(s) == |s| <==> forall i | 0 <= i < |s| :: s[i].body.Lost?
  {
    if s != [] { LossesBound(s[..|s| - 1]); }
  }

  ghost predicate Invariant<V, E>(v: Vars<V, E>) {
    && v.max >= 1 && 1 <= v.next <= v.max + 1
    // One settlement, and only with its cause.
    && |v.finishes| == (if v.settled || !v.listening then 1 else 0)
    && (!v.listening && !v.settled ==> v.next > v.max && v.started == [] && v.pending == {})
    && (v.settled && !v.finishes[0].AllFailed? ==> forall i | 0 <= i < |v.started| :: v.started[i].aborted)
    && (v.settled && v.finishes[0].AllFailed? ==>
          && v.completed == v.max == |v.started| && |v.finishes[0].errors| == v.max
          && forall i | 0 <= i < |v.started| :: v.started[i].body.Lost?)
    && (!v.settled && v.listening ==> |v.started| + |v.pending| == v.next - 1)
    && (!v.settled ==>
          && v.completed == Losses(v.started) == |v.errors| && v.completed < v.max
          && forall i | 0 <= i < |v.started| :: !v.started[i].body.Won?)
    && (forall a | a in v.pending :: a < v.next)
  }

  lemma SetUpStarts<V, E>(v: Vars<V, E>)
    requires Invariant(v) && v.next <= v.max
    ensures Invariant(Start(v.(next := v.next + 1), v.next))
  {
    assert (v.started + [Started(v.next, false, Running)])[..|v.started|] == v.started;
  }

  lemma SetUpWaits<V, E>(v: Vars<V, E>)
    requires Invariant(v) && v.next <= v.max
    ensures Invariant(v.(next := v.next + 1, pending := v.pending + {v.next}))
  {
    assert |v.pending + {v.next}| == |v.pending| + 1;
  }

  lemma SetUpKeeps<V, E>(v: Vars<V, E>)
    requires Invariant(v)
    ensures Invariant(Step(v, SetUp))
  {
    if v.next <= v.max {
      SetUpStarts(v);
      SetUpWaits(v);
    }
  }

  lemma TimerKeeps<V, E>(v: Vars<V, E>, a: nat)
    requires Invariant(v)
    ensures Invariant(Step(v, TimerFires(a)))
  {
    assert (v.started + [Started(a, false, Running)])[..|v.started|] == v.started;
  }

  lemma ResolveKeeps<V, E>(v: Vars<V, E>, i: nat, value: V)
    requires Invariant(v)
    ensures Invariant(Step(v, BodyResolves(i, value)))
  {
  }

  lemma RejectKeeps<V, E>(v: Vars<V, E>, i: nat, error: E)
    requires Invariant(v)
    ensures Invariant(Step(v, BodyRejects(i, error)))
  {
    if Enabled(v, BodyRejects(i, error)) {
      var s := v.started[i := v.started[i].(body := Lost)];
      LossesUpdate(v.started, i, v.started[i].(body := Lost));
      LossesBound(s);
    }
  }

  lemma StepKeepsInvariant<V, E>(v: Vars<V, E>, e: Event<V, E>)
    requires Invariant(v)
    ensures Invariant(Step(v, e))
  {
    match e
    case SetUp => SetUpKeeps(v);
    case ParentAborts =>
    case TimerFires(a) => TimerKeeps(v, a);
    case BodyResolves(i, value) => ResolveKeeps(v, i, value);
    case BodyRejects(i, error) => RejectKeeps(v, i, error);
  }

  lemma {:induction false} RunKeepsInvariant<V, E>(v: Vars<V, E>, es: seq<Event<V, E>>)
    requires Invariant(v)
    ensures Invariant(Run(v, es))
    decreases |es|
  {
    if es != [] {
      RunKeepsInvariant(v, es[..|es| - 1]);
      StepKeepsInvariant(Run(v, es[..|es| - 1]), es[|es| - 1]);
    }
  }

  /**
   * Over every interleaving: the promise settles at most once; while it is unsettled after
   * the set-up, every attempt is started or waiting for its timer; the aggregate rejection
   * comes after exactly max failures; and a win or a parent abort leaves no started
   * attempt's controller unaborted.
   */
  lemma {:induction false} HedgeProtocol<V, E>(max: int, after: nat, es: seq<Event<V, E>>)
    ensures var v := Run(Init(max, after, false), es);
            && v.max == (if max > 1 then max else 1)
            && |v.finishes| <= 1 && (v.settled <==> |v.finishes| == 1)
            && (!v.settled && v.next > v.max ==> |v.started| + |v.pending| == v.max)
            && (v.settled && v.finishes[0].AllFailed? ==>
                  && |v.started| == v.max && |v.finishes[0].errors| == v.max
                  && forall i | 0 <= i < v.max :: v.started[i].body.Lost?)
            && (v.settled && !v.finishes[0].AllFailed? ==> forall i | 0 <= i < |v.started| :: v.started[i].aborted)
  {
    RunKeepsInvariant(Init<V, E>(max, after, false), es);
    RunKeepsConstants(Init<V, E>(max, after, false), es);
  }

  lemma {:induction false} RunKeepsConstants<V, E>(v: Vars<V, E>, es: seq<Event<V, E>>)
    requires v.listening || v.settled
    ensures Run(v, es).max == v.max && (Run(v, es).listening || Run(v, es).settled)
    decreases |es|
  {
    if es != [] { RunKeepsConstants(v, es[..|es| - 1]); }
  }

  lemma StepStaysSettled<V, E>(v: Vars<V, E>, e: Event<V, E>)
    requires v.settled
    ensures Step(v, e).settled && Step(v, e).finishes == v.finishes && |Step(v, e).started| == |v.started|
  {
  }

  /**
   * A hedge whose parent is already aborted rejects once, with the parent's reason, and in
   * every continuation starts no attempt and sets no timer.
   */
  lemma {:induction false} AbortedAtStart<V, E>(max: int, after: nat, es: seq<Event<V, E>>)
    ensures var v := Run(Init(max, after, true), es);
            && v == Init(max, after, true)
            && v.finishes == [ParentReason] && v.started == [] && v.pending == {}
    decreases |es|
  {
    if es != [] { AbortedAtStart(max, after, es[..|es| - 1]); }
  }

  /** Once settled, no event starts an attempt or settles the promise again. */
  lemma {:induction false} SettledIsFinal<V, E>(v: Vars<V, E>, es: seq<Event<V, E>>)
    requires v.settled
    ensures var w := Run(v, es);
            w.settled && w.finishes == v.finishes && |w.started| == |v.started|
    decreases |es|
  {
    if es != [] {
      SettledIsFinal(v, es[..|es| - 1]);
      StepStaysSettled(Run(v, es[..|es| - 1]), es[|es| - 1]);
    }
  }

  /** The promise is never left hanging: an unsettled hedge has a live timer or a running body. */
  lemma {:induction false} UnsettledCanProceed<V, E>(max: int, after: nat, es: seq<Event<V, E>>)
    requires var v := Run(Init(max, after, false), es);
             !v.settled && v.next > v.max
    ensures var v := Run(Init(max, after, false), es);
            v.pending != {} || exists i :: 0 <= i < |v.started| && v.started[i].body.Running?
  {
    var v := Run(Init(max, after, false), es);
    RunKeepsInvariant(Init<V, E>(max, after, false), es);
    RunKeepsConstants(Init<V, E>(max, after, false), es);
    LossesBound(v.started);
  }
}
