/**
 * Drain safety of the scope tree: what is settled when a scope leaves its drain loop, and
 * that the loop gets through.
 */
module ScopeDrain {
  import opened Wrappers
  import opened ScopeTree

  // ---- Nothing unsettled is forgotten -------------------------------------------------------

  /** Every running body is on record with its scope. */
  ghost predicate BodiesOwned(y: System)
    requires Shaped(y)
  {
    forall t | 0 <= t < |y.tasks| && y.tasks[t].status.BodyRunning? :: t in y.fields[y.tasks[t].scope].tasks
  }

  /** Every scope that is not closed is on record with its parent. */
  ghost predicate ChildrenOwned(y: System)
    requires Shaped(y)
  {
    forall c | 0 <= c < |y.fields| && !y.fields[c].state.Closed? && y.parents[c].Some? ::
      c in y.fields[y.parents[c].value].children
  }

  ghost predicate ClosedIsFinished(y: System) {
    forall s | 0 <= s < |y.fields| :: y.fields[s].state.Closed? <==> y.fields[s].drain.Finished?
  }

  ghost predicate Owned(y: System)
    requires Shaped(y)
  {
    BodiesOwned(y) && ChildrenOwned(y) && ClosedIsFinished(y)
  }

  lemma StepKeepsBodies(y: System, e: Event)
    requires Shaped(y) && BodiesOwned(y)
    ensures BodiesOwned(Step(y, e))
  {
    if e.ScopeDefersDone? && e.scope < |y.fields| && y.fields[e.scope].drain.Cleaning? {
      var z := CloseScope(y, e.scope);
      assert forall i | 0 <= i < |y.fields| :: z.fields[i].tasks == y.fields[i].tasks;
    }
  }

  lemma StepKeepsChildren(y: System, e: Event)
    requires Shaped(y) && ChildrenOwned(y)
    ensures ChildrenOwned(Step(y, e))
  {
    var z := Step(y, e);
    if e.Open? && (e.parent.Some? ==> e.parent.value < |y.fields|) {
      assert forall i | 0 <= i < |y.fields| ::
          y.fields[i].children <= z.fields[i].children && z.fields[i].state == y.fields[i].state;
    } else if e.ScopeDefersDone? && e.scope < |y.fields| && y.fields[e.scope].drain.Cleaning? {
      assert forall i | 0 <= i < |y.fields| :: y.fields[i].children - {e.scope} <= z.fields[i].children;
    } else if !e.Open? && !e.ScopeDefersDone? {
      SameChildren(y, e);
    }
  }

  lemma StepKeepsFinished(y: System, e: Event)
    requires Shaped(y) && ClosedIsFinished(y)
    ensures ClosedIsFinished(Step(y, e))
  {
  }

  lemma StepKeepsOwned(y: System, e: Event)
    requires Shaped(y) && Owned(y)
    ensures Owned(Step(y, e))
  {
    StepKeepsBodies(y, e);
    StepKeepsChildren(y, e);
    StepKeepsFinished(y, e);
  }

  lemma {:induction false} RunKeepsOwned(es: seq<Event>)
    ensures Owned(Run(es))
    decreases |es|
  {
    if es != [] {
      RunKeepsOwned(es[..|es| - 1]);
      StepKeepsOwned(Run(es[..|es| - 1]), es[|es| - 1]);
    }
  }

  /** No task ever spawned on s has a running body, and every scope ever opened directly under s is closed. */
  ghost predicate Drained(y: System, s: nat)
    requires Shaped(y)
  {
    && (forall t | 0 <= t < |y.tasks| && y.tasks[t].scope == s :: !y.tasks[t].status.BodyRunning?)
    && (forall c | 0 <= c < |y.fields| && y.parents[c] == Some(s) :: y.fields[c].state.Closed?)
  }

  lemma NothingOwnedIsDrained(y: System, s: nat)
    requires Shaped(y) && Owned(y) && s < |y.fields| && y.fields[s].tasks == {} && y.fields[s].children == {}
    ensures Drained(y, s)
  {
  }

  lemma LeavesLoopEmpty(y: System, e: Event, s: nat)
    requires Shaped(y) && s < |Step(y, e).fields| && Step(y, e).fields[s].drain.Cleaning?
    requires s < |y.fields| ==> !y.fields[s].drain.Cleaning?
    ensures Step(y, e).fields[s].tasks == {} && Step(y, e).fields[s].children == {}
  {
  }

  /** Over every interleaving, a scope that leaves its drain loop is drained at that moment. */
  lemma {:induction false} DrainExitIsSafe(es: seq<Event>, e: Event, s: nat)
    requires s < |Run(es).fields| && !Run(es).fields[s].drain.Cleaning?
    requires s < |Step(Run(es), e).fields| && Step(Run(es), e).fields[s].drain.Cleaning?
    ensures Drained(Step(Run(es), e), s)
  {
    RunKeepsOwned(es);
    StepKeepsOwned(Run(es), e);
    LeavesLoopEmpty(Run(es), e, s);
    NothingOwnedIsDrained(Step(Run(es), e), s);
  }

  // ---- The drain loop gets through ----------------------------------------------------------------

  /** A settled promise means a settled body, and the tasks on record exist. */
  ghost predicate TasksOnRecord(y: System) {
    && (forall t | 0 <= t < |y.tasks| && y.tasks[t].settled :: !y.tasks[t].status.BodyRunning?)
    && (forall s, t | 0 <= s < |y.fields| && t in y.fields[s].tasks :: t < |y.tasks|)
  }

  /** The children on record with s are children of s that are not closed. */
  ghost predicate RecordsChildren(y: System, s: nat)
    requires Shaped(y) && s < |y.fields|
  {
    forall c | c in y.fields[s].children :: c < |y.fields| && y.parents[c] == Some(s) && !y.fields[c].state.Closed?
  }

  ghost predicate ChildrenOnRecord(y: System)
    requires Shaped(y)
  {
    forall s | 0 <= s < |y.fields| :: RecordsChildren(y, s)
  }

  ghost predicate OnRecord(y: System)
    requires Shaped(y)
  {
    TasksOnRecord(y) && ChildrenOnRecord(y)
  }

  lemma StepKeepsTasks(y: System, e: Event)
    requires Shaped(y) && TasksOnRecord(y)
    ensures TasksOnRecord(Step(y, e))
  {
    var z := Step(y, e);
    if e.ScopeDefersDone? && e.scope < |y.fields| && y.fields[e.scope].drain.Cleaning? {
      assert forall i | 0 <= i < |y.fields| :: z.fields[i].tasks == y.fields[i].tasks;
    }
  }

  lemma OpenKeepsRecord(y: System, p: Option<nat>)
    requires Shaped(y) && ChildrenOnRecord(y) && (p.Some? ==> p.value < |y.fields|)
    ensures ChildrenOnRecord(OpenScope(y, p))
  {
    var z, n := OpenScope(y, p), |y.fields|;
    assert forall i | 0 <= i < n :: z.fields[i].state == y.fields[i].state;
    forall s | 0 <= s < |z.fields| ensures RecordsChildren(z, s) {
      if s < n { assert RecordsChildren(y, s); }
    }
  }

  lemma CloseKeepsRecord(y: System, s: nat)
    requires Shaped(y) && ChildrenOnRecord(y) && s < |y.fields|
    ensures ChildrenOnRecord(CloseScope(y, s))
  {
    var z := CloseScope(y, s);
    assert forall i | 0 <= i < |z.fields| && i != s :: z.fields[i].state == y.fields[i].state;
    forall i | 0 <= i < |z.fields| ensures RecordsChildren(z, i) {
      assert RecordsChildren(y, i);
      assert z.fields[i].children == y.fields[i].children - (if y.parents[s] == Some(i) then {s} else {});
    }
  }

  lemma StepKeepsRecord(y: System, e: Event)
    requires Shaped(y) && OnRecord(y)
    ensures OnRecord(Step(y, e))
  {
    StepKeepsTasks(y, e);
    if e.Open? {
      if e.parent.Some? ==> e.parent.value < |y.fields| { OpenKeepsRecord(y, e.parent); }
    } else if e.ScopeDefersDone? {
      if e.scope < |y.fields| && y.fields[e.scope].drain.Cleaning? { CloseKeepsRecord(y, e.scope); }
    } else {
      SameChildren(y, e);
      forall s | 0 <= s < |y.fields| ensures RecordsChildren(Step(y, e), s) { assert RecordsChildren(y, s); }
    }
  }

  /** Only opening and closing change which children a scope has, or which scopes are closed. */
  lemma SameChildren(y: System, e: Event)
    requires Shaped(y) && !e.Open? && !e.ScopeDefersDone?
    ensures var z := Step(y, e);
            && z.parents == y.parents && |z.fields| == |y.fields|
            && forall i | 0 <= i < |y.fields| ::
                 z.fields[i].children == y.fields[i].children
                     && (z.fields[i].state.Closed? <==> y.fields[i].state.Closed?)
  {
  }

  lemma {:induction false} RunKeepsRecord(es: seq<Event>)
    ensures OnRecord(Run(es))
    decreases |es|
  {
    if es != [] {
      RunKeepsRecord(es[..|es| - 1]);
      StepKeepsRecord(Run(es[..|es| - 1]), es[|es| - 1]);
    }
  }

  /**
   * A round of the drain loop gets through: once everything it awaits has settled, and
   * nothing was added meanwhile, the next stretch leaves the loop.
   */
  lemma {:induction false} RoundEndsDrain(es: seq<Event>, s: nat)
    requires var y := Run(es);
             && s < |y.fields| && y.fields[s].drain.Waiting? && AllSettled(y, y.fields[s].drain)
             && y.fields[s].tasks <= y.fields[s].drain.tasks && y.fields[s].children <= y.fields[s].drain.children
    ensures Step(Run(es), Awaited(s)).fields[s].drain.Cleaning?
  {
    var y := Run(es);
    RunKeepsRecord(es);
    assert RecordsChildren(y, s);
    assert forall c :: c !in y.fields[s].children;
    assert y.fields[s].children == {};
    assert forall t | t in y.fields[s].tasks :: t in SettledTasks(y);
    assert y.fields[s].tasks - SettledTasks(y) == {};
  }

  // ---- What the drain awaits ---------------------------------------------------------------------

  /** The tasks on record with s are tasks of s. */
  ghost predicate RecordsTasks(y: System, s: nat)
    requires s < |y.fields|
  {
    forall t | t in y.fields[s].tasks :: t < |y.tasks| && y.tasks[t].scope == s
  }

  ghost predicate OwnOnly(y: System) {
    forall s | 0 <= s < |y.fields| :: RecordsTasks(y, s)
  }

  /** Before `close` every task of a scope is on record. */
  ghost predicate IdleHasAll(y: System)
    requires Shaped(y)
  {
    forall t | 0 <= t < |y.tasks| && y.fields[y.tasks[t].scope].drain.Idle? :: t in y.fields[y.tasks[t].scope].tasks
  }

  ghost predicate RecordsOwn(y: System)
    requires Shaped(y)
  {
    OwnOnly(y) && IdleHasAll(y)
  }

  lemma ClosingKeepsRecords(y: System, s: nat)
    requires Shaped(y) && s < |y.fields|
    ensures var z := CloseScope(y, s);
            forall i | 0 <= i < |y.fields| ::
              z.fields[i].tasks == y.fields[i].tasks && (z.fields[i].drain.Idle? ==> y.fields[i].drain.Idle?)
  {
  }

  lemma StepKeepsOwnOnly(y: System, e: Event)
    requires Shaped(y) && OwnOnly(y)
    ensures OwnOnly(Step(y, e))
  {
    var z := Step(y, e);
    if e.ScopeDefersDone? && e.scope < |y.fields| { ClosingKeepsRecords(y, e.scope); }
    forall s | 0 <= s < |z.fields| ensures RecordsTasks(z, s) {
      if s < |y.fields| { assert RecordsTasks(y, s); }
    }
  }

  lemma StepKeepsIdle(y: System, e: Event)
    requires Shaped(y) && IdleHasAll(y)
    ensures IdleHasAll(Step(y, e))
  {
    if e.ScopeDefersDone? && e.scope < |y.fields| { ClosingKeepsRecords(y, e.scope); }
  }

  lemma StepKeepsOwnRecords(y: System, e: Event)
    requires Shaped(y) && RecordsOwn(y)
    ensures RecordsOwn(Step(y, e))
  {
    StepKeepsOwnOnly(y, e);
    StepKeepsIdle(y, e);
  }

  lemma {:induction false} RunKeepsOwnRecords(es: seq<Event>)
    ensures RecordsOwn(Run(es))
    decreases |es|
  {
    if es != [] {
      RunKeepsOwnRecords(es[..|es| - 1]);
      StepKeepsOwnRecords(Run(es[..|es| - 1]), es[|es| - 1]);
    }
  }

  function TasksOf(y: System, s: nat): set<nat> {
    set t: nat | t < |y.tasks| && y.tasks[t].scope == s
  }

  function RunningOf(y: System, s: nat): set<nat> {
    set t: nat | t < |y.tasks| && y.tasks[t].scope == s && y.tasks[t].status.BodyRunning?
  }

  function OpenChildren(y: System, s: nat): set<nat>
    requires Shaped(y)
  {
    set c: nat | c < |y.fields| && y.parents[c] == Some(s) && !y.fields[c].state.Closed?
  }

  /** The loop is left when nothing is owned, and otherwise awaits exactly that. */
  function Awaiting(tasks: set<nat>, children: set<nat>): Drain {
    if tasks == {} && children == {} then Cleaning else Waiting(tasks, children)
  }

  lemma ChildrenAreOpen(y: System, s: nat)
    requires Shaped(y) && s < |y.fields| && OnRecord(y) && Owned(y)
    ensures y.fields[s].children == OpenChildren(y, s)
  {
    assert RecordsChildren(y, s);
  }

  /** `close` starts by awaiting every task ever spawned on the scope and every scope still open under it. */
  lemma {:induction false} CloseAwaitsAll(es: seq<Event>, s: nat)
    requires s < |Run(es).fields| && Run(es).fields[s].drain.Idle?
    ensures Step(Run(es), Close(s)).fields[s].drain == Awaiting(TasksOf(Run(es), s), OpenChildren(Run(es), s))
  {
    var y := Run(es);
    RunKeepsOwnRecords(es);
    RunKeepsRecord(es);
    RunKeepsOwned(es);
    ChildrenAreOpen(y, s);
    assert RecordsTasks(y, s);
    assert y.fields[s].tasks == TasksOf(y, s);
  }

  /**
   * A round of the loop ends exactly when everything it awaited has settled, and goes on
   * with exactly the bodies still running on the scope and the scopes still open under it;
   * with neither, the loop is left.
   */
  lemma {:induction false} RoundAwaitsRest(es: seq<Event>, s: nat)
    requires s < |Run(es).fields| && Run(es).fields[s].drain.Waiting?
    ensures var y, z := Run(es), Step(Run(es), Awaited(s));
            && (!AllSettled(y, y.fields[s].drain) ==> z == y)
            && (AllSettled(y, y.fields[s].drain) ==>
                  z.fields[s].drain == Awaiting(RunningOf(y, s), OpenChildren(y, s)))
  {
    var y := Run(es);
    RunKeepsOwnRecords(es);
    RunKeepsRecord(es);
    RunKeepsOwned(es);
    ChildrenAreOpen(y, s);
    assert RecordsTasks(y, s);
    assert y.fields[s].tasks - SettledTasks(y) == RunningOf(y, s);
  }

  /** A settled body's promise settles with its own defers, once, and changes nothing else. */
  lemma DefersSettlePromise(y: System, t: nat)
    requires Shaped(y) && t < |y.tasks| && !y.tasks[t].status.BodyRunning?
    ensures var z := Step(y, TaskDefersDone(t));
            z == y.(tasks := z.tasks) && z.tasks == y.tasks[t := y.tasks[t].(settled := true)]
  {
  }
}
