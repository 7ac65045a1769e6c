/**
 * Cancellation of the scope tree: the links that `AbortSignal.any` sets up and `abort`
 * follows (section 3.2 of the WHATWG DOM Standard) make a scope's signal say what the
 * cancellations of the scope and its ancestors, in order, ask of it.
 */
module CancellationTree {
  import opened Wrappers
  import opened ScopeTree

  // ---- What a signal should be ------------------------------------------------------------------

  /** The reason of the earliest logged cancellation of c or of a scope above it. */
  function FirstCancel(cancels: seq<Cancel>, parents: seq<Option<nat>>, c: nat): Option<Reason> {
    if cancels == [] then None
    else
      var earlier, last := FirstCancel(cancels[..|cancels| - 1], parents, c), cancels[|cancels| - 1];
      if earlier.None? && Under(parents, c, last.scope) then Some(last.reason) else earlier
  }

  /** How often s itself was cancelled. */
  function TimesCancelled(cancels: seq<Cancel>, s: nat): nat {
    if cancels == [] then 0
    else TimesCancelled(cancels[..|cancels| - 1], s) + (if cancels[|cancels| - 1].scope == s then 1 else 0)
  }

  /** The reading of `FirstCancel`: it is an entry about c or a scope above it, and no earlier entry is. */
  lemma {:induction false} FirstCancelIsEarliest(cancels: seq<Cancel>, parents: seq<Option<nat>>, c: nat)
    ensures var r := FirstCancel(cancels, parents, c);
            && (r.None? <==> forall i | 0 <= i < |cancels| :: !Under(parents, c, cancels[i].scope))
            && (r.Some? ==> exists i :: && 0 <= i < |cancels|
                                        && Under(parents, c, cancels[i].scope) && r == Some(cancels[i].reason)
                                        && forall j | 0 <= j < i :: !Under(parents, c, cancels[j].scope))
  {
    if cancels != [] {
      var n := |cancels| - 1;
      FirstCancelIsEarliest(cancels[..n], parents, c);
      if FirstCancel(cancels[..n], parents, c).Some? {
        var i :| && 0 <= i < n && Under(parents, c, cancels[..n][i].scope)
                 && FirstCancel(cancels[..n], parents, c) == Some(cancels[..n][i].reason)
                 && forall j | 0 <= j < i :: !Under(parents, c, cancels[..n][j].scope);
        assert Under(parents, c, cancels[i].scope);
        assert forall j | 0 <= j < i :: !Under(parents, c, cancels[j].scope);
      } else {
        assert forall j | 0 <= j < n :: !Under(parents, c, cancels[j].scope) by {
          forall j | 0 <= j < n ensures !Under(parents, c, cancels[j].scope) { assert cancels[..n][j] == cancels[j]; }
        }
        if Under(parents, c, cancels[n].scope) {
          assert FirstCancel(cancels, parents, c) == Some(cancels[n].reason);
        }
      }
    }
  }

  // ---- Opening a scope changes nothing above ------------------------------------------------------

  lemma {:induction false} UnderKept(parents: seq<Option<nat>>, p: Option<nat>, c: nat, a: nat)
    requires c < |parents|
    ensures Under(parents + [p], c, a) <==> Under(parents, c, a)
    decreases c
  {
    if c != a && parents[c].Some? && parents[c].value < c { UnderKept(parents, p, parents[c].value, a); }
  }

  lemma UnderNew(parents: seq<Option<nat>>, p: Option<nat>, a: nat)
    requires p.Some? ==> p.value < |parents|
    ensures Under(parents + [p], |parents|, a) <==> a == |parents| || (p.Some? && Under(parents, p.value, a))
  {
    if p.Some? { UnderKept(parents, p, p.value, a); }
  }

  lemma {:induction false} UnderBounded(parents: seq<Option<nat>>, c: nat, a: nat)
    requires Under(parents, c, a)
    ensures a <= c
    decreases c
  {
    if c != a { UnderBounded(parents, parents[c].value, a); }
  }

  lemma {:induction false} FirstCancelKept(cancels: seq<Cancel>, parents: seq<Option<nat>>, p: Option<nat>, c: nat)
    requires c < |parents|
    ensures FirstCancel(cancels, parents + [p], c) == FirstCancel(cancels, parents, c)
  {
    if cancels != [] {
      FirstCancelKept(cancels[..|cancels| - 1], parents, p, c);
      UnderKept(parents, p, c, cancels[|cancels| - 1].scope);
    }
  }

  lemma {:induction false} FirstCancelNew(cancels: seq<Cancel>, parents: seq<Option<nat>>, p: Option<nat>)
    requires p.Some? ==> p.value < |parents|
    requires forall i | 0 <= i < |cancels| :: cancels[i].scope < |parents|
    ensures FirstCancel(cancels, parents + [p], |parents|) ==
            if p.Some? then FirstCancel(cancels, parents, p.value) else None
  {
    if cancels != [] {
      FirstCancelNew(cancels[..|cancels| - 1], parents, p);
      UnderNew(parents, p, cancels[|cancels| - 1].scope);
    }
  }

  // ---- The invariant ------------------------------------------------------------------------------

  /**
   * Sources are the scopes on the path to the root; dependents lie below, and include every
   * signal still unaborted there.
   */
  ghost predicate Linked(y: System)
    requires Shaped(y)
  {
    && (forall c, a | 0 <= c < |y.fields| && 0 <= a < |y.fields| :: a in y.sources[c] <==> Under(y.parents, c, a))
    && (forall c | 0 <= c < |y.fields| :: forall a | a in y.sources[c] :: a < |y.fields|)
  }

  ghost predicate Following(y: System)
    requires Shaped(y)
  {
    && (forall a, c | 0 <= a < |y.fields| && c in y.dependents[a] :: c < |y.fields| && Under(y.parents, c, a))
    && (forall a, c | 0 <= a < |y.fields| && 0 <= c < |y.fields| && y.signals[c].None? && Under(y.parents, c, a) ::
          c in y.dependents[a])
  }

  ghost predicate Signalled(y: System)
    requires Shaped(y)
  {
    && (forall i | 0 <= i < |y.cancels| :: y.cancels[i].scope < |y.fields|)
    && (forall c | 0 <= c < |y.fields| :: y.signals[c] == FirstCancel(y.cancels, y.parents, c))
  }

  ghost predicate CancelledOnce(y: System)
    requires Shaped(y)
  {
    && (forall i | 0 <= i < |y.cancels| :: y.cancels[i].scope < |y.fields|)
    && (forall s | 0 <= s < |y.fields| ::
          && y.fields[s].rounds == TimesCancelled(y.cancels, s) <= 1
          && (y.fields[s].state.Running? ==> y.fields[s].rounds == 0)
          && (y.fields[s].state.Cancelling? ==> y.fields[s].rounds == 1))
  }

  ghost predicate Invariant(y: System)
    requires Shaped(y)
  {
    Linked(y) && Following(y) && Signalled(y) && CancelledOnce(y)
  }

  lemma OpenKeeps(y: System, p: Option<nat>)
    requires Shaped(y) && Invariant(y) && (p.Some? ==> p.value < |y.fields|)
    ensures Linked(OpenScope(y, p)) && Following(OpenScope(y, p)) && Signalled(OpenScope(y, p))
  {
    var z, n := OpenScope(y, p), |y.fields|;
    forall c, a | 0 <= c < n ensures Under(z.parents, c, a) <==> Under(y.parents, c, a) {
      UnderKept(y.parents, p, c, a);
    }
    forall a ensures Under(z.parents, n, a) <==> a == n || (p.Some? && Under(y.parents, p.value, a)) {
      UnderNew(y.parents, p, a);
    }
    forall c | 0 <= c < n ensures z.signals[c] == FirstCancel(z.cancels, z.parents, c) {
      FirstCancelKept(y.cancels, y.parents, p, c);
    }
    FirstCancelNew(y.cancels, y.parents, p);
    forall c | 0 <= c < n ensures !Under(z.parents, c, n) {
      if Under(z.parents, c, n) { UnderBounded(z.parents, c, n); }
    }
  }

  lemma AbortKeeps(y: System, s: nat, r: Reason)
    requires Shaped(y) && Linked(y) && Following(y) && Signalled(y) && s < |y.fields|
    ensures Linked(AbortFrom(y, s, r)) && Following(AbortFrom(y, s, r)) && Signalled(AbortFrom(y, s, r))
  {
    var z := AbortFrom(y, s, r);
    assert z.cancels[..|y.cancels|] == y.cancels;
  }

  lemma NoAbortKeeps(y: System, z: System)
    requires Shaped(y) && Shaped(z) && Linked(y) && Following(y) && Signalled(y)
    requires z == y.(tasks := z.tasks, fields := z.fields)
    ensures Linked(z) && Following(z) && Signalled(z)
  {
  }

  lemma StepKeepsSignals(y: System, e: Event)
    requires Shaped(y) && Invariant(y)
    ensures Linked(Step(y, e)) && Following(Step(y, e)) && Signalled(Step(y, e))
  {
    var z := Step(y, e);
    if z.cancels != y.cancels {
      var s := if e.CancelCall? then e.scope else y.tasks[e.task].scope;
      var r := if e.CancelCall? then e.reason else SiblingFailed(e.task, e.outcome.error);
      var x := y.(tasks := z.tasks, fields := z.fields);
      NoAbortKeeps(y, x);
      AbortKeeps(x, s, r);
    } else if e.Open? {
      if e.parent.Some? ==> e.parent.value < |y.fields| { OpenKeeps(y, e.parent); }
    } else {
      NoAbortKeeps(y, z);
    }
  }

  lemma {:induction false} NeverCancelled(cancels: seq<Cancel>, s: nat)
    requires forall i | 0 <= i < |cancels| :: cancels[i].scope < s
    ensures TimesCancelled(cancels, s) == 0
  {
    if cancels != [] { NeverCancelled(cancels[..|cancels| - 1], s); }
  }

  /** One cancellation of s, and nothing else, changes what is counted. */
  lemma CancelKeepsOnce(y: System, z: System, s: nat, r: Reason)
    requires Shaped(y) && Shaped(z) && CancelledOnce(y) && s < |y.fields| == |z.fields| && y.fields[s].state.Running?
    requires z.cancels == y.cancels + [Cancel(s, r)]
    requires z.fields[s].state.Cancelling? && z.fields[s].rounds == y.fields[s].rounds + 1
    requires forall i | 0 <= i < |y.fields| && i != s :: z.fields[i] == y.fields[i]
    ensures CancelledOnce(z)
  {
    assert z.cancels[..|y.cancels|] == y.cancels;
  }

  lemma StepKeepsOnce(y: System, e: Event)
    requires Shaped(y) && CancelledOnce(y)
    ensures CancelledOnce(Step(y, e))
  {
    var z := Step(y, e);
    if z.cancels != y.cancels {
      var s := if e.CancelCall? then e.scope else y.tasks[e.task].scope;
      CancelKeepsOnce(y, z, s, z.cancels[|y.cancels|].reason);
    } else {
      NeverCancelled(y.cancels, |y.fields|);
      OthersCount(y, e);
    }
  }

  lemma OthersCount(y: System, e: Event)
    requires Shaped(y) && Step(y, e).cancels == y.cancels
    ensures var z := Step(y, e);
            && |y.fields| <= |z.fields| <= |y.fields| + 1
            && (forall i | 0 <= i < |y.fields| ::
                  z.fields[i].rounds == y.fields[i].rounds
                  && (z.fields[i].state == y.fields[i].state || z.fields[i].state.Closed?))
            && (|y.fields| < |z.fields| ==> z.fields[|y.fields|] == NEW)
  {
  }

  lemma {:induction false} RunKeeps(es: seq<Event>)
    ensures Invariant(Run(es))
    decreases |es|
  {
    if es != [] {
      RunKeeps(es[..|es| - 1]);
      StepKeepsSignals(Run(es[..|es| - 1]), es[|es| - 1]);
      StepKeepsOnce(Run(es[..|es| - 1]), es[|es| - 1]);
    }
  }

  // ---- Main results ------------------------------------------------------------------------------

  /**
   * In every reachable tree a scope's signal is aborted exactly when it or a scope above it
   * was cancelled, and its reason is that of the earliest such cancellation.
   */
  lemma {:induction false} SignalIsFirstCancel(es: seq<Event>, c: nat)
    requires c < |Run(es).fields|
    ensures var y := Run(es);
            && (y.signals[c].Some? <==> exists i :: 0 <= i < |y.cancels| && Under(y.parents, c, y.cancels[i].scope))
            && (y.signals[c].Some? ==>
                  exists i :: && 0 <= i < |y.cancels| && Under(y.parents, c, y.cancels[i].scope)
                              && y.signals[c] == Some(y.cancels[i].reason)
                              && forall j | 0 <= j < i :: !Under(y.parents, c, y.cancels[j].scope))
  {
    RunKeeps(es);
    FirstCancelIsEarliest(Run(es).cancels, Run(es).parents, c);
  }

  /** A scope's cancel handlers run at most once, exactly as often as its cancellation was accepted. */
  lemma {:induction false} HandlersRunOnce(es: seq<Event>, s: nat)
    requires s < |Run(es).fields|
    ensures Run(es).fields[s].rounds == TimesCancelled(Run(es).cancels, s) <= 1
    ensures Run(es).fields[s].state.Cancelling? ==> Run(es).fields[s].rounds == 1
    ensures Run(es).fields[s].state.Running? ==> Run(es).fields[s].rounds == 0
  {
    RunKeeps(es);
  }

  function Rank(s: State): nat {
    match s
    case Running => 0
    case Cancelling => 1
    case Closed => 2
  }

  lemma StepGoesForward(y: System, e: Event, s: nat)
    requires Shaped(y) && s < |y.fields|
    requires y.fields[s].state.Closed? <==> y.fields[s].drain.Finished?
    ensures var z := Step(y, e);
            && s < |z.fields|
            && Rank(y.fields[s].state) <= Rank(z.fields[s].state)
            && (y.signals[s].Some? ==> z.signals[s] == y.signals[s])
            && z.parents[s] == y.parents[s]
            && (z.fields[s].state.Closed? <==> z.fields[s].drain.Finished?)
  {
  }

  lemma {:induction false} ClosedIffFinished(es: seq<Event>, s: nat)
    requires s < |Run(es).fields|
    ensures Run(es).fields[s].state.Closed? <==> Run(es).fields[s].drain.Finished?
    decreases |es|
  {
    var y := Run(es[..|es| - 1]);
    if s < |y.fields| {
      ClosedIffFinished(es[..|es| - 1], s);
      StepGoesForward(y, es[|es| - 1], s);
    } else {
      var e := es[|es| - 1];
      assert e.Open? && (e.parent.Some? ==> e.parent.value < |y.fields|);
    }
  }

  /** Along every run a scope's state only moves forward, and a reason once set never changes. */
  lemma {:induction false} OnlyForward(es: seq<Event>, later: seq<Event>, s: nat)
    requires s < |Run(es).fields|
    ensures var y, z := Run(es), Run(es + later);
            && s < |z.fields|
            && Rank(y.fields[s].state) <= Rank(z.fields[s].state)
            && (y.signals[s].Some? ==> z.signals[s] == y.signals[s])
            && z.parents[s] == y.parents[s]
    decreases |later|
  {
    if later == [] {
      assert es + later == es;
    } else {
      var n := |later| - 1;
      OnlyForward(es, later[..n], s);
      assert (es + later)[..|es + later| - 1] == es + later[..n];
      ClosedIffFinished(es + later[..n], s);
      StepGoesForward(Run(es + later[..n]), later[n], s);
    }
  }

  /** The first failure of a foreground task leaves every signal of its scope's subtree aborted. */
  lemma {:induction false} FailureAbortsSubtree(es: seq<Event>, t: nat, error: Thrown, c: nat)
    requires var y := Run(es);
             && t < |y.tasks| && y.tasks[t].status.BodyRunning? && !y.tasks[t].background
             && y.fields[y.tasks[t].scope].failure.None? && y.fields[y.tasks[t].scope].state.Running?
             && c < |y.fields| && Under(y.parents, c, y.tasks[t].scope)
    ensures var z := Step(Run(es), BodySettles(t, Fails(error)));
            z.signals[c] == if Run(es).signals[c].Some? then Run(es).signals[c] else Some(SiblingFailed(t, error))
  {
    RunKeeps(es);
  }
}
