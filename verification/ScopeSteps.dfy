/**
 * What one step may do to the scope tree: exactly which settlements and which calls cancel
 * a scope, and that everything else leaves scopes and signals alone.
 */
module ScopeSteps {
  import opened Wrappers
  import opened ScopeTree
  import opened ScopeDrain
  import opened CancellationTree

  // ---- The first failure, read off the run ---------------------------------------------------

  /** The body of task t settles. */
  predicate Settles(y: System, t: nat) {
    t < |y.tasks| && y.tasks[t].status.BodyRunning?
  }

  /** The error of the first foreground task of s to fail with one that is not `undefined`. */
  function FirstError(es: seq<Event>, s: nat): Thrown
    decreases |es|
  {
    if es == [] then None
    else
      var y, e, earlier := Run(es[..|es| - 1]), es[|es| - 1], FirstError(es[..|es| - 1], s);
      if earlier.Some? then earlier
      else if e.BodySettles? && Settles(y, e.task) && y.tasks[e.task].scope == s && !y.tasks[e.task].background
              && e.outcome.Fails?
      then e.outcome.error
      else None
  }

  lemma StepFailure(y: System, e: Event, s: nat)
    requires Shaped(y) && s < |y.fields|
    ensures var z := Step(y, e);
            && s < |z.fields|
            && z.fields[s].failure ==
               if y.fields[s].failure.None? && e.BodySettles? && Settles(y, e.task) && y.tasks[e.task].scope == s
                  && !y.tasks[e.task].background && e.outcome.Fails?
               then e.outcome.error else y.fields[s].failure
  {
  }

  lemma NewScopeHasNoFailure(y: System, e: Event, s: nat)
    requires Shaped(y) && |y.fields| <= s < |Step(y, e).fields|
    ensures e.Open? && Step(y, e).fields[s].failure.None?
  {
  }

  lemma {:induction false} NoErrorYet(es: seq<Event>, s: nat)
    requires |Run(es).fields| <= s
    ensures FirstError(es, s).None?
    decreases |es|
  {
    if es != [] {
      var y, e := Run(es[..|es| - 1]), es[|es| - 1];
      ScopesStay(y, e);
      NoErrorYet(es[..|es| - 1], s);
      if e.BodySettles? && Settles(y, e.task) { assert y.tasks[e.task].scope < |y.fields|; }
    }
  }

  lemma ScopesStay(y: System, e: Event)
    requires Shaped(y)
    ensures |y.fields| <= |Step(y, e).fields|
  {
  }

  /** A scope's noted failure is the first of its foreground tasks' errors. */
  lemma {:induction false} FailureIsFirstError(es: seq<Event>, s: nat)
    requires s < |Run(es).fields|
    ensures Run(es).fields[s].failure == FirstError(es, s)
    decreases |es|
  {
    var front := es[..|es| - 1];
    var y, e := Run(front), es[|es| - 1];
    if s < |y.fields| {
      FailureIsFirstError(front, s);
      StepFailure(y, e, s);
    } else {
      NewScopeHasNoFailure(y, e, s);
      NoErrorYet(front, s);
    }
  }

  // ---- Cancelled or closed -----------------------------------------------------------------------

  /** Some step of the run closed s. */
  predicate WasClosed(es: seq<Event>, s: nat)
    decreases |es|
  {
    es != [] &&
    (WasClosed(es[..|es| - 1], s)
     || (es[|es| - 1] == ScopeDefersDone(s) && s < |Run(es[..|es| - 1]).fields|
         && Run(es[..|es| - 1]).fields[s].drain.Cleaning?))
  }

  lemma StepState(y: System, e: Event, s: nat)
    requires Shaped(y) && s < |y.fields|
    ensures var z := Step(y, e);
            && s < |z.fields|
            && (z.fields[s].state.Closed? <==>
                  y.fields[s].state.Closed? || (e == ScopeDefersDone(s) && y.fields[s].drain.Cleaning?))
  {
  }

  lemma {:induction false} NotClosedYet(es: seq<Event>, s: nat)
    requires |Run(es).fields| <= s
    ensures !WasClosed(es, s)
    decreases |es|
  {
    if es != [] {
      ScopesStay(Run(es[..|es| - 1]), es[|es| - 1]);
      NotClosedYet(es[..|es| - 1], s);
    }
  }

  lemma NewScopeRuns(y: System, e: Event, s: nat)
    requires Shaped(y) && |y.fields| <= s < |Step(y, e).fields|
    ensures Step(y, e).fields[s].state.Running?
  {
  }

  /** A scope is closed exactly when some step closed it. */
  lemma {:induction false} ClosedIffWasClosed(es: seq<Event>, s: nat)
    requires s < |Run(es).fields|
    ensures Run(es).fields[s].state.Closed? <==> WasClosed(es, s)
    decreases |es|
  {
    var front := es[..|es| - 1];
    if s < |Run(front).fields| {
      ClosedIffWasClosed(front, s);
      StepState(Run(front), es[|es| - 1], s);
    } else {
      NotClosedYet(front, s);
      NewScopeRuns(Run(front), es[|es| - 1], s);
    }
  }

  /** A scope runs exactly as long as no cancellation of it was accepted and no step closed it. */
  lemma {:induction false} RunningIff(es: seq<Event>, s: nat)
    requires s < |Run(es).fields|
    ensures Run(es).fields[s].state.Running? <==> TimesCancelled(Run(es).cancels, s) == 0 && !WasClosed(es, s)
  {
    RunKeeps(es);
    ClosedIffWasClosed(es, s);
  }

  // ---- Which steps cancel ------------------------------------------------------------------------

  /** Whether a settled body cancels its scope, by the run alone. */
  predicate Cancels(es: seq<Event>, t: nat, o: Outcome) {
    && Settles(Run(es), t) && o.Fails? && !Run(es).tasks[t].background
    && Run(es).tasks[t].scope < |Run(es).fields|
    && FirstError(es, Run(es).tasks[t].scope).None?
    && TimesCancelled(Run(es).cancels, Run(es).tasks[t].scope) == 0 && !WasClosed(es, Run(es).tasks[t].scope)
  }

  /**
   * A settled body cancels its scope exactly when it fails, is in the foreground, no
   * foreground task of the scope failed before, and the scope was neither cancelled nor
   * closed; a body that resolves, is cancelled, or is in the background changes its own
   * status and nothing else.
   */
  lemma {:induction false} SettlementExactly(es: seq<Event>, t: nat, o: Outcome)
    ensures var y, z := Run(es), Step(Run(es), BodySettles(t, o));
            && (z.cancels != y.cancels <==> Cancels(es, t, o))
            && (Cancels(es, t, o) ==> z.cancels == y.cancels + [Cancel(y.tasks[t].scope, SiblingFailed(t, o.error))])
            && (!Cancels(es, t, o) ==> z.signals == y.signals)
            && z == y.(tasks := z.tasks, fields := z.fields, signals := z.signals, cancels := z.cancels)
            && (!Settles(y, t) ==> z == y)
            && (Settles(y, t) ==>
                  z.tasks == y.tasks[t := y.tasks[t].(status := match o
                                                                case Resolves => Succeeded
                                                                case Fails(_) => ScopeTree.Failed
                                                                case IsCancelled => ScopeTree.Cancelled)])
            && (Settles(y, t) && (!o.Fails? || y.tasks[t].background) ==> z.fields == y.fields)
  {
    var y := Run(es);
    if Settles(y, t) {
      RunningIff(es, y.tasks[t].scope);
      FailureIsFirstError(es, y.tasks[t].scope);
      assert y.fields[y.tasks[t].scope := y.fields[y.tasks[t].scope]] == y.fields;
    }
  }

  /**
   * A cancel call is accepted exactly when the scope exists and was neither cancelled nor
   * closed; otherwise nothing changes.
   */
  lemma {:induction false} CancelCallExactly(es: seq<Event>, s: nat, r: Reason)
    ensures var y, z := Run(es), Step(Run(es), CancelCall(s, r));
            var accepted := s < |y.fields| && TimesCancelled(y.cancels, s) == 0 && !WasClosed(es, s);
            && (accepted ==> z.cancels == y.cancels + [Cancel(s, r)])
            && (!accepted ==> z == y)
  {
    if s < |Run(es).fields| { RunningIff(es, s); }
  }

  /**
   * A task is recorded exactly when its scope exists and was neither cancelled nor closed;
   * otherwise nothing changes.
   */
  lemma {:induction false} SpawnExactly(es: seq<Event>, s: nat, background: bool)
    ensures var y, z := Run(es), Step(Run(es), Spawn(s, background));
            var accepted := s < |y.fields| && TimesCancelled(y.cancels, s) == 0 && !WasClosed(es, s);
            && (accepted ==> z.tasks == y.tasks + [Task(s, background, BodyRunning, false)]
                             && |y.tasks| in z.fields[s].tasks)
            && (!accepted ==> z == y)
  {
    if s < |Run(es).fields| { RunningIff(es, s); }
  }

  /** Only a settled body or a cancel call ever cancels. */
  lemma OthersCancelNothing(y: System, e: Event)
    requires Shaped(y) && !e.BodySettles? && !e.CancelCall?
    ensures var z := Step(y, e);
            && z.cancels == y.cancels
            && forall i | 0 <= i < |y.signals| :: i < |z.signals| && z.signals[i] == y.signals[i]
  {
  }
}
