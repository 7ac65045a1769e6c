/**
 * Closed scopes of the tree: exactly which steps can leave something open below one.
 */
module ScopeClosing {
  import opened Wrappers
  import opened ScopeDrain
  import opened ScopeTree

  // ---- What came late --------------------------------------------------------------------------

  /** The scope has left its drain loop. */
  predicate LeftLoop(f: Fields) {
    f.drain.Cleaning? || f.drain.Finished?
  }

  predicate Spawns(e: Event, s: nat) {
    e.Spawn? && e.scope == s
  }

  /** The tasks spawned on s after s left its drain loop. */
  function LateTasks(es: seq<Event>, s: nat): set<nat>
    decreases |es|
  {
    if es == [] then {}
    else
      var y, e := Run(es[..|es| - 1]), es[|es| - 1];
      LateTasks(es[..|es| - 1], s)
      + (if s < |y.fields| && Spawns(e, s) && y.fields[s].state.Running? && LeftLoop(y.fields[s])
         then {|y.tasks|} else {})
  }

  /** The scopes opened under s after s left its drain loop. */
  function LateChildren(es: seq<Event>, s: nat): set<nat>
    decreases |es|
  {
    if es == [] then {}
    else
      var y, e := Run(es[..|es| - 1]), es[|es| - 1];
      LateChildren(es[..|es| - 1], s)
      + (if s < |y.fields| && e == Open(Some(s)) && LeftLoop(y.fields[s]) then {|y.fields|} else {})
  }

  predicate RunningOn(y: System, t: nat, s: nat) {
    t < |y.tasks| && y.tasks[t].scope == s && y.tasks[t].status.BodyRunning?
  }

  predicate OpenUnder(y: System, c: nat, s: nat)
    requires Shaped(y)
  {
    c < |y.fields| && y.parents[c] == Some(s) && !y.fields[c].state.Closed?
  }

  /** A late task of s is still running, or a late child still open. */
  ghost predicate LeftBehind(es: seq<Event>, s: nat) {
    || (exists t :: t in LateTasks(es, s) && RunningOn(Run(es), t, s))
    || (exists c :: c in LateChildren(es, s) && OpenUnder(Run(es), c, s))
  }

  /** Whatever still runs on s or is open under it came late. */
  ghost predicate OnlyLate(es: seq<Event>, s: nat) {
    && (forall t: nat :: RunningOn(Run(es), t, s) ==> t in LateTasks(es, s))
    && (forall c: nat :: OpenUnder(Run(es), c, s) ==> c in LateChildren(es, s))
  }

  lemma NewBodies(y: System, e: Event, s: nat, t: nat)
    requires Shaped(y) && s < |y.fields| && RunningOn(Step(y, e), t, s)
    ensures RunningOn(y, t, s) || (Spawns(e, s) && y.fields[s].state.Running? && t == |y.tasks|)
  {
  }

  lemma NewChildren(y: System, e: Event, s: nat, c: nat)
    requires Shaped(y) && s < |y.fields| && OpenUnder(Step(y, e), c, s)
    ensures OpenUnder(y, c, s) || (e == Open(Some(s)) && c == |y.fields|)
  {
  }

  lemma DrainedHasNone(y: System, s: nat)
    requires Shaped(y)
    ensures Drained(y, s) <==> (forall t: nat :: !RunningOn(y, t, s)) && forall c: nat :: !OpenUnder(y, c, s)
  {
    if forall t: nat :: !RunningOn(y, t, s) {
      forall t | 0 <= t < |y.tasks| && y.tasks[t].scope == s ensures !y.tasks[t].status.BodyRunning? {
        assert !RunningOn(y, t, s);
      }
    }
    if forall c: nat :: !OpenUnder(y, c, s) {
      forall c | 0 <= c < |y.fields| && y.parents[c] == Some(s) ensures y.fields[c].state.Closed? {
        assert !OpenUnder(y, c, s);
      }
    }
  }

  lemma StaysLeft(y: System, e: Event, s: nat)
    requires Shaped(y) && s < |Step(y, e).fields|
    requires s < |y.fields| ==> !y.fields[s].drain.Cleaning? && !y.fields[s].drain.Finished?
    ensures !Step(y, e).fields[s].drain.Finished?
  {
  }

  lemma LateStep(es: seq<Event>, s: nat)
    requires es != [] && s < |Run(es[..|es| - 1]).fields| && LeftLoop(Run(es[..|es| - 1]).fields[s])
    requires OnlyLate(es[..|es| - 1], s)
    ensures OnlyLate(es, s)
  {
    var y, e := Run(es[..|es| - 1]), es[|es| - 1];
    forall t: nat | RunningOn(Run(es), t, s) ensures t in LateTasks(es, s) { NewBodies(y, e, s, t); }
    forall c: nat | OpenUnder(Run(es), c, s) ensures c in LateChildren(es, s) { NewChildren(y, e, s, c); }
  }

  /** Whatever runs on a scope that has left its loop, or is open under it, came after it left. */
  lemma {:induction false} LeftLoopHasOnlyLate(es: seq<Event>, s: nat)
    requires s < |Run(es).fields| && LeftLoop(Run(es).fields[s])
    ensures OnlyLate(es, s)
    decreases |es|
  {
    var front := es[..|es| - 1];
    var y := Run(front);
    if s < |y.fields| && LeftLoop(y.fields[s]) {
      LeftLoopHasOnlyLate(front, s);
      LateStep(es, s);
    } else {
      RunKeepsOwned(es);
      StaysLeft(y, es[|es| - 1], s);
      LeavesLoopEmpty(y, es[|es| - 1], s);
      NothingOwnedIsDrained(Run(es), s);
      DrainedHasNone(Run(es), s);
    }
  }

  /**
   * In every reachable tree a scope that has left its drain loop has something running on
   * it or open under it exactly when something that came late is left behind.
   */
  lemma {:induction false} UndrainedOnlyByLate(es: seq<Event>, s: nat)
    requires s < |Run(es).fields| && LeftLoop(Run(es).fields[s])
    ensures !Drained(Run(es), s) <==> LeftBehind(es, s)
  {
    LeftLoopHasOnlyLate(es, s);
    DrainedHasNone(Run(es), s);
  }

  // ---- Nothing stays open below a closed scope -------------------------------------------------

  /** Every closed scope is drained. */
  ghost predicate ClosedIsDrained(y: System)
    requires Shaped(y)
  {
    forall s | 0 <= s < |y.fields| && y.fields[s].state.Closed? :: Drained(y, s)
  }

  /** A scope is opened under a closed one, or closes while something that came late is left behind. */
  ghost predicate LeavesOpenBelow(es: seq<Event>, e: Event) {
    var y := Run(es);
    match e
    case Open(p) => p.Some? && p.value < |y.fields| && y.fields[p.value].state.Closed?
    case ScopeDefersDone(s) => s < |y.fields| && y.fields[s].drain.Cleaning? && LeftBehind(es, s)
    case _ => false
  }

  lemma OpenKeepsDrained(y: System, p: Option<nat>)
    requires Shaped(y) && ClosedIsDrained(y) && (p.Some? ==> p.value < |y.fields|)
    ensures ClosedIsDrained(OpenScope(y, p)) <==> !(p.Some? && y.fields[p.value].state.Closed?)
  {
    var z := OpenScope(y, p);
    var n := |y.fields|;
    if p.Some? && y.fields[p.value].state.Closed? {
      assert z.fields[p.value].state.Closed? && z.parents[n] == p && !z.fields[n].state.Closed?;
      assert !Drained(z, p.value);
    } else {
      forall s | 0 <= s < |z.fields| && z.fields[s].state.Closed? ensures Drained(z, s) {
        assert s < n && Drained(y, s);
      }
    }
  }

  lemma CloseKeepsDrained(y: System, s: nat)
    requires Shaped(y) && ClosedIsDrained(y) && s < |y.fields|
    ensures ClosedIsDrained(CloseScope(y, s)) <==> Drained(y, s)
  {
    var z := CloseScope(y, s);
    assert z.fields[s].state.Closed?;
    assert forall i | 0 <= i < |y.fields| && i != s :: z.fields[i].state == y.fields[i].state;
    if Drained(y, s) {
      forall i | 0 <= i < |z.fields| && z.fields[i].state.Closed? ensures Drained(z, i) {
        assert Drained(y, i);
      }
    } else {
      assert !Drained(z, s);
    }
  }

  lemma OthersKeepDrained(y: System, e: Event)
    requires Shaped(y) && ClosedIsDrained(y) && !e.Open? && !e.ScopeDefersDone?
    ensures ClosedIsDrained(Step(y, e))
  {
    var z := Step(y, e);
    assert |z.fields| == |y.fields|;
    forall i | 0 <= i < |z.fields| && z.fields[i].state.Closed? ensures Drained(z, i) {
      assert y.fields[i].state.Closed? && Drained(y, i);
    }
  }

  /** The property survives a step exactly when the step is not one of the two that break it. */
  lemma {:induction false} StepKeepsDrained(es: seq<Event>, e: Event)
    requires ClosedIsDrained(Run(es))
    ensures ClosedIsDrained(Step(Run(es), e)) <==> !LeavesOpenBelow(es, e)
  {
    var y := Run(es);
    match e
    case Open(p) => if !(p.Some? && p.value >= |y.fields|) { OpenKeepsDrained(y, p); }
    case ScopeDefersDone(s) =>
      if s < |y.fields| && y.fields[s].drain.Cleaning? {
        CloseKeepsDrained(y, s);
        UndrainedOnlyByLate(es, s);
      }
    case _ => OthersKeepDrained(y, e);
  }

  /** At every moment of the run, every closed scope is drained. */
  ghost predicate DrainedThroughout(es: seq<Event>)
    decreases |es|
  {
    ClosedIsDrained(Run(es)) && (es == [] || DrainedThroughout(es[..|es| - 1]))
  }

  ghost predicate NeverLeavesOpen(es: seq<Event>)
    decreases |es|
  {
    es == [] || (NeverLeavesOpen(es[..|es| - 1]) && !LeavesOpenBelow(es[..|es| - 1], es[|es| - 1]))
  }

  /** A run keeps closed scopes drained at every moment exactly when none of its steps leaves something open below. */
  lemma {:induction false} ClosedStayDrainedIff(es: seq<Event>)
    ensures DrainedThroughout(es) <==> NeverLeavesOpen(es)
    decreases |es|
  {
    if es != [] {
      var front := es[..|es| - 1];
      ClosedStayDrainedIff(front);
      if DrainedThroughout(front) { StepKeepsDrained(front, es[|es| - 1]); }
    }
  }

  /** Nothing is spawned on a scope, or opened under it, once it has left its drain loop. */
  predicate Quiet(es: seq<Event>)
    decreases |es|
  {
    es == [] ||
    var y, e := Run(es[..|es| - 1]), es[|es| - 1];
    && Quiet(es[..|es| - 1])
    && (e.Spawn? && e.scope < |y.fields| && LeftLoop(y.fields[e.scope]) ==> !y.fields[e.scope].state.Running?)
    && (e.Open? && e.parent.Some? && e.parent.value < |y.fields| ==> !LeftLoop(y.fields[e.parent.value]))
  }

  lemma {:induction false} QuietHasNoneLate(es: seq<Event>, s: nat)
    requires Quiet(es)
    ensures LateTasks(es, s) == {} && LateChildren(es, s) == {}
    decreases |es|
  {
    if es != [] { QuietHasNoneLate(es[..|es| - 1], s); }
  }

  lemma {:induction false} ClosedBelow(y: System, s: nat, c: nat)
    requires Shaped(y) && ClosedIsDrained(y) && c < |y.fields| && Under(y.parents, c, s)
    requires s < |y.fields| && y.fields[s].state.Closed?
    ensures y.fields[c].state.Closed? && Drained(y, c)
    decreases c
  {
    if c != s {
      ClosedBelow(y, s, y.parents[c].value);
      assert y.parents[c] == Some(y.parents[c].value);
    }
  }

  /**
   * Over every interleaving in which nothing is spawned on or opened under a scope during
   * its own defers or later, every scope below a closed scope is closed, and no task ever
   * spawned anywhere below it has a running body.
   */
  lemma {:induction false} NothingOpenBelowClosed(es: seq<Event>, s: nat, c: nat)
    requires Quiet(es)
    requires s < |Run(es).fields| && Run(es).fields[s].state.Closed?
    requires c < |Run(es).fields| && Under(Run(es).parents, c, s)
    ensures Run(es).fields[c].state.Closed? && Drained(Run(es), c)
  {
    var y := Run(es);
    RunKeepsOwned(es);
    forall i | 0 <= i < |y.fields| && y.fields[i].state.Closed? ensures Drained(y, i) {
      QuietHasNoneLate(es, i);
      UndrainedOnlyByLate(es, i);
    }
    ClosedBelow(y, s, c);
  }

  /** The restriction is needed: a scope opened under a closed one is accepted and stays open. */
  lemma LateChildStaysOpen()
    ensures var es := [Open(None), Close(0), ScopeDefersDone(0), Open(Some(0))];
            && |Run(es).fields| == 2 && Under(Run(es).parents, 1, 0)
            && Run(es).fields[0].state.Closed? && Run(es).fields[1].state.Running?
  {
    var es := [Open(None), Close(0), ScopeDefersDone(0), Open(Some(0))];
    assert es[..3][..2] == es[..2] && es[..3][..2][..1] == es[..1] && es[..1][..0] == [];
    assert Run(es[..1]).fields == [NEW];
    assert Run(es[..2]).fields[0].drain.Cleaning?;
    assert Run(es[..3]).fields[0].state.Closed? && |Run(es[..3]).fields| == 1;
  }
}
