/**
 * How a hedge ends: by the first event that can settle it, with that event's own value,
 * reason or collected errors; and which attempts its set-up starts.
 */
module HedgeOutcomes {
  import opened Wrappers
  import opened Hedge

  /** The errors of the bodies that rejected, in the order they did, up to the settlement. */
  function Rejections<V, E>(v: Vars<V, E>, es: seq<Event<V, E>>): seq<E>
    decreases |es|
  {
    if es == [] then []
    else
      var w, e, earlier := Run(v, es[..|es| - 1]), es[|es| - 1], Rejections(v, es[..|es| - 1]);
      if e.BodyRejects? && Enabled(w, e) && FirstSettling(v, es[..|es| - 1]).None? then earlier + [e.error] else earlier
  }

  /** What the first event that can settle the hedge settles it with. */
  function FirstSettling<V, E>(v: Vars<V, E>, es: seq<Event<V, E>>): Option<Finish<V, E>>
    decreases |es|
  {
    if es == [] then None
    else
      var front, e := es[..|es| - 1], es[|es| - 1];
      var earlier := FirstSettling(v, front);
      if earlier.Some? then earlier
      else if !Enabled(Run(v, front), e) then None
      else match e
           case BodyResolves(_, value) => Some(Resolved(value))
           case ParentAborts => Some(ParentReason)
           case BodyRejects(_, error) =>
             var errors := Rejections(v, front) + [error];
             if |errors| == v.max then Some(AllFailed(errors)) else None
           case _ => None
  }

  ghost predicate EndsAs<V, E>(w: Vars<V, E>, max: nat, finish: Option<Finish<V, E>>, errors: seq<E>) {
    && w.max == max
    && (w.settled <==> finish.Some?)
    && w.finishes == (if finish.Some? then [finish.value] else [])
    && (!w.settled ==> w.errors == errors && w.completed == |errors| && w.listening)
  }

  lemma StepEndsAs<V, E>(
    w: Vars<V, E>, e: Event<V, E>, max: nat, finish: Option<Finish<V, E>>, errors: seq<E>)
    requires EndsAs(w, max, finish, errors)
    ensures var next := if finish.Some? || !Enabled(w, e) then finish
                        else match e
                             case BodyResolves(_, value) => Some(Resolved(value))
                             case ParentAborts => Some(ParentReason)
                             case BodyRejects(_, error) =>
                               if |errors| + 1 == max then Some(AllFailed(errors + [error])) else None
                             case _ => None;
            var collects := e.BodyRejects? && Enabled(w, e) && finish.None?;
            EndsAs(Step(w, e), max, next, if collects then errors + [e.error] else errors)
  {
  }

  lemma {:induction false} RunEndsAs<V, E>(max: int, after: nat, es: seq<Event<V, E>>)
    ensures var v := Init(max, after, false);
            EndsAs(Run(v, es), v.max, FirstSettling(v, es), Rejections(v, es))
    decreases |es|
  {
    if es != [] {
      var v := Init(max, after, false);
      var front := es[..|es| - 1];
      RunEndsAs(max, after, front);
      StepEndsAs(Run(v, front), es[|es| - 1], v.max, FirstSettling(v, front), Rejections(v, front));
    }
  }

  /**
   * Over every interleaving the hedge has settled exactly when some event could settle it,
   * and then with what the first such event brought: the value of the body that resolved,
   * the parent's reason, or, with the last of max rejections, every error in the order the
   * bodies rejected.
   */
  lemma {:induction false} FirstEventDecides<V, E>(max: int, after: nat, es: seq<Event<V, E>>)
    ensures var v := Init(max, after, false);
            Run(v, es).finishes == if FirstSettling(v, es).Some? then [FirstSettling(v, es).value] else []
  {
    RunEndsAs(max, after, es);
  }

  // ---- The set-up ------------------------------------------------------------------------------

  function FromOne(n: nat): seq<nat> {
    seq(n, i requires 0 <= i < n => i + 1)
  }

  function FromTwo(n: nat): set<nat> {
    if n < 2 then {} else FromTwo(n - 1) + {n}
  }

  function Attempts(started: seq<Started>): seq<nat> {
    seq(|started|, i requires 0 <= i < |started| => started[i].attempt)
  }

  ghost predicate SetUpTo<V, E>(w: Vars<V, E>, max: nat, after: nat, n: nat) {
    && w.max == max && w.after == after && w.next == n + 1 && !w.settled && w.listening
    && (after == 0 ==> Attempts(w.started) == FromOne(n) && w.pending == {})
    && (after > 0 ==>
          && Attempts(w.started) == FromOne(if n == 0 then 0 else 1)
          && w.pending == FromTwo(n))
  }

  lemma SetUpStepTo<V, E>(w: Vars<V, E>, max: nat, after: nat, n: nat)
    requires n < max && SetUpTo(w, max, after, n)
    ensures SetUpTo(Step(w, SetUp), max, after, n + 1)
  {
    var z := Step(w, SetUp);
    if after == 0 {
      assert n * after == 0;
      assert Attempts(z.started) == Attempts(w.started) + [n + 1];
    } else if n == 0 {
      assert n * after == 0;
      assert Attempts(z.started) == Attempts(w.started) + [1];
    } else {
      assert n * after == (n - 1) * after + after;
      assert n * after != 0;
    }
  }

  lemma {:induction false} SetUpsReach<V, E>(max: int, after: nat, n: nat)
    requires n <= Init<V, E>(max, after, false).max
    ensures SetUpTo(Run(Init<V, E>(max, after, false), SetUps(n, {})), Init<V, E>(max, after, false).max, after, n)
  {
    if n > 0 {
      var v := Init<V, E>(max, after, false);
      SetUpsReach<V, E>(max, after, n - 1);
      SetUpsRun(v, n, {});
      SetUpStepTo(Run(v, SetUps(n - 1, {})), v.max, after, n - 1);
    }
  }

  /**
   * An undisturbed set-up starts every attempt at once, in order, when they are not
   * staggered; otherwise it starts the first and sets a timer for every other.
   */
  lemma SetUpExactly<V, E>(max: int, after: nat)
    ensures var n := if max > 1 then max else 1;
            var w := Run(Init<V, E>(max, after, false), SetUps(n, {}));
            && (after == 0 ==> Attempts(w.started) == FromOne(n) && w.pending == {})
            && (after > 0 ==> Attempts(w.started) == [1] && w.pending == FromTwo(n))
  {
    SetUpsReach<V, E>(max, after, if max > 1 then max else 1);
  }

  // ---- Every attempt starts once -----------------------------------------------------------------

  /** Unsettled, every attempt set up so far has started once or waits for its timer. */
  ghost predicate EachOnce<V, E>(w: Vars<V, E>) {
    !w.settled ==>
      && (forall i | 0 <= i < |w.started| :: 1 <= w.started[i].attempt < w.next && w.started[i].attempt !in w.pending)
      && (forall i, j | 0 <= i < j < |w.started| :: w.started[i].attempt != w.started[j].attempt)
      && (forall a | a in w.pending :: 1 <= a < w.next)
      && (forall a | 1 <= a < w.next :: a in w.pending || HasStarted(w, a))
  }

  ghost predicate HasStarted<V, E>(w: Vars<V, E>, a: nat) {
    exists i :: 0 <= i < |w.started| && w.started[i].attempt == a
  }

  lemma StartsEachOnce<V, E>(w: Vars<V, E>, z: Vars<V, E>, attempt: nat)
    requires EachOnce(w) && !w.settled && 1 <= attempt < z.next
    requires z.next == w.next || (z.next == w.next + 1 && attempt == w.next)
    requires z.started == w.started + [Started(attempt, false, Running)] && z.pending == w.pending - {attempt}
    requires attempt in w.pending || attempt >= w.next
    ensures EachOnce(z)
  {
    forall a | 1 <= a < z.next ensures a in z.pending || HasStarted(z, a) {
      if a == attempt {
        assert z.started[|w.started|].attempt == a;
      } else if a !in w.pending {
        assert HasStarted(w, a);
        var i :| 0 <= i < |w.started| && w.started[i].attempt == a;
        assert z.started[i].attempt == a;
      }
    }
  }

  /** Settling bodies, and collecting errors, starts nothing. */
  lemma SameStarts<V, E>(w: Vars<V, E>, z: Vars<V, E>)
    requires EachOnce(w) && z.next == w.next && z.pending == w.pending && |z.started| == |w.started|
    requires forall i | 0 <= i < |w.started| :: z.started[i].attempt == w.started[i].attempt
    requires z.settled || !w.settled
    ensures EachOnce(z)
  {
    if !z.settled {
      forall a | 1 <= a < z.next ensures a in z.pending || HasStarted(z, a) {
        if a !in w.pending {
          assert HasStarted(w, a);
          var i :| 0 <= i < |w.started| && w.started[i].attempt == a;
          assert z.started[i].attempt == a;
        }
      }
    }
  }

  lemma WaitsOnce<V, E>(w: Vars<V, E>, z: Vars<V, E>)
    requires EachOnce(w) && !w.settled && z.next == w.next + 1 && z.started == w.started
    requires z.pending == w.pending + {w.next} && w.next >= 1
    ensures EachOnce(z)
  {
    forall a | 1 <= a < z.next ensures a in z.pending || HasStarted(z, a) {
      if a < w.next && a !in w.pending { assert HasStarted(w, a); }
    }
  }

  lemma StepEachOnce<V, E>(w: Vars<V, E>, e: Event<V, E>)
    requires EachOnce(w) && w.next >= 1
    ensures EachOnce(Step(w, e)) && Step(w, e).next >= 1
  {
    var z := Step(w, e);
    if Enabled(w, e) && !z.settled {
      match e
      case SetUp => if |z.started| > |w.started| { StartsEachOnce(w, z, w.next); } else { WaitsOnce(w, z); }
      case TimerFires(a) => StartsEachOnce(w, z, a);
      case BodyResolves(_, _) | BodyRejects(_, _) | ParentAborts => SameStarts(w, z);
    }
  }

  lemma {:induction false} RunEachOnce<V, E>(max: int, after: nat, es: seq<Event<V, E>>)
    ensures EachOnce(Run(Init(max, after, false), es)) && Run(Init(max, after, false), es).next >= 1
    decreases |es|
  {
    if es != [] {
      RunEachOnce(max, after, es[..|es| - 1]);
      StepEachOnce(Run(Init(max, after, false), es[..|es| - 1]), es[|es| - 1]);
    }
  }

  /**
   * Over every interleaving, while the hedge is unsettled each attempt has started exactly
   * once or waits for its timer.
   */
  lemma {:induction false} EveryAttemptOnce<V, E>(max: int, after: nat, es: seq<Event<V, E>>, a: nat)
    requires var w := Run(Init(max, after, false), es); !w.settled && 1 <= a < w.next
    ensures var w := Run(Init(max, after, false), es);
            && (a in w.pending <==> !HasStarted(w, a))
            && (forall i, j | 0 <= i < j < |w.started| :: w.started[i].attempt != w.started[j].attempt)
  {
    RunEachOnce(max, after, es);
  }
}
