/**
 * What a rejection does to a pool: an ordinary failure or a cancelled scope stops every
 * later start, a task that was cancelled on its own stops nothing but its worker.
 */
module PoolFailures {
  import opened WorkerPool

  /** The scope has been cancelled: by a call, or by a task that failed. */
  predicate Stopped<R>(v: Vars<R>, es: seq<Event>, answers: seq<R>)
    decreases |es|
  {
    if es == [] then false
    else
      var front, e := es[..|es| - 1], es[|es| - 1];
      || Stopped(v, front, answers)
      || e.CancelScope?
      || (e.Rejects? && !e.cancelled && Enabled(Run(v, front, answers), e))
  }

  lemma StepOpen<R>(v: Vars<R>, e: Event, answers: seq<R>)
    ensures Step(v, e, answers).open <==> v.open && !e.CancelScope? && !(e.Rejects? && !e.cancelled && Enabled(v, e))
    ensures v.started <= Step(v, e, answers).started
    ensures !v.open ==> Step(v, e, answers).started == v.started
  {
  }

  /** The pool starts tasks exactly as long as nothing has stopped it. */
  lemma {:induction false} OpenIffNotStopped<R>(v: Vars<R>, es: seq<Event>, answers: seq<R>)
    ensures Run(v, es, answers).open <==> v.open && !Stopped(v, es, answers)
    decreases |es|
  {
    if es != [] {
      OpenIffNotStopped(v, es[..|es| - 1], answers);
      StepOpen(Run(v, es[..|es| - 1], answers), es[|es| - 1], answers);
    }
  }

  /** After an ordinary failure, or a cancelled scope, no task starts in any continuation. */
  lemma {:induction false} FailureStopsStarts<R>(v: Vars<R>, e: Event, later: seq<Event>, answers: seq<R>)
    requires e.CancelScope? || (e.Rejects? && !e.cancelled && Enabled(v, e))
    ensures Run(Step(v, e, answers), later, answers).started == v.started
    decreases |later|
  {
    StepOpen(v, e, answers);
    if later == [] {
      assert Step(v, e, answers).started == v.started;
    } else {
      var front, y := later[..|later| - 1], Step(v, e, answers);
      FailureStopsStarts(v, e, front, answers);
      OpenIffNotStopped(y, front, answers);
      StepOpen(Run(y, front, answers), later[|later| - 1], answers);
    }
  }

  /** A worker whose task was cancelled is gone, and nothing else changes. */
  lemma CancellationStopsOnlyItsWorker<R>(v: Vars<R>, w: nat, answers: seq<R>)
    requires Enabled(v, Rejects(w, true))
    ensures Step(v, Rejects(w, true), answers) ==
            v.(workers := v.workers[w := Rejected], settled := v.settled + [v.workers[w].index])
  {
  }

  /**
   * As long as nothing has stopped the pool, whatever else was cancelled, a worker whose
   * task resolves starts the next one, if there is one.
   */
  lemma {:induction false} ResolvingGoesOn<R>(concurrency: nat, es: seq<Event>, answers: seq<R>, w: nat)
    requires var v := Run(Init(concurrency, answers), es, answers);
             Enabled(v, Resolves(w)) && !Stopped(Init(concurrency, answers), es, answers)
    ensures var v := Run(Init(concurrency, answers), es, answers);
            var z := Step(v, Resolves(w), answers);
            && w < |z.workers|
            && z.workers[w] == (if |v.started| < |answers| then Awaiting(|v.started|) else Done)
            && z.started == if |v.started| < |answers| then v.started + [|v.started|] else v.started
  {
    OpenIffNotStopped(Init(concurrency, answers), es, answers);
    RunKeepsInvariant(concurrency, es, answers);
  }
}
