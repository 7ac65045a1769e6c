/**
 * Where the planned upper bound fails.
 *
 * A timeout rejects at its limit but the scope opened below it goes on; the enclosing
 * group closes only after that scope has closed (engine/scope.ts, `close`). So a truncated
 * scope still delays every series or parallel composition above the timeout.
 */
module PlanOverrun {
  import opened Wrappers
  import opened RetryPolicies
  import opened TimePolicy
  import opened PolicyRuns

  // ---- Two overruns ------------------------------------------------------------------

  function HiddenScope(limit: real, d: real): Policy {
    Timeout(limit, Series([Attempt(d)]))
  }

  /** A series around a truncated series: planned for `limit`, settles after d. */
  lemma HiddenScopeOverruns(limit: real, d: real, s: real)
    requires 0.0 <= limit < d <= MAX_TIMEOUT_MS
    ensures var p := Series([HiddenScope(limit, d)]);
            var tr := SeriesRun([LimitRun(SeriesRun([LeafRun(d, Done)], false), true)], false);
            && PlanAt(p, 0).Success? && PlanAt(p, 0).value.valid && PlanAt(p, 0).value.upperBoundMs == limit
            && Observe(p, s, tr).Some? && Observe(p, s, tr).value.settle == s + d
  {
    var leaf, inner := LeafRun(d, Done), SeriesRun([LeafRun(d, Done)], false);
    var hidden, p := HiddenScope(limit, d), Series([HiddenScope(limit, d)]);
    SingletonPlan(Attempt(d), 2);
    SingletonPlan(hidden, 0);
    SingletonRun(Attempt(d), s, leaf);
    SingletonRun(hidden, s, LimitRun(inner, true));
  }

  lemma SingletonPlan(q: Policy, depth: nat)
    requires depth <= MAX_POLICY_DEPTH && PlanAt(q, depth + 1).Success?
    ensures PlanAt(Series([q]), depth).Success?
    ensures var a, b := PlanAt(Series([q]), depth).value, PlanAt(q, depth + 1).value;
            a.upperBoundMs == b.upperBoundMs && a.valid == b.valid
  {
    var ps, pl := [q], PlanAt(q, depth + 1).value;
    assert ps[0] == q && ps[1..] == [];
    assert PlanAll(ps[1..], depth + 1) == Success([]);
    assert [pl] + [] == [pl];
    assert PlanAll(ps, depth + 1) == Success([pl]);
    assert [pl][1..] == [];
    assert CombineSeries([pl][1..]) == ZERO_PLAN;
  }

  lemma SingletonRun(q: Policy, s: real, tr: Trace)
    requires Observe(q, s, tr).Some?
    ensures Observe(Series([q]), s, SeriesRun([tr], false)).Some?
    ensures Observe(Series([q]), s, SeriesRun([tr], false)).value.settle == CloseGroup(Observe(q, s, tr).value).settle
    ensures Observe(Series([q]), s, SeriesRun([tr], false)).value.drain == CloseGroup(Observe(q, s, tr).value).drain
    ensures Observe(Series([q]), s, SeriesRun([tr], false)).value.outcome == Observe(q, s, tr).value.outcome
  {
    assert [q][1..] == [] && [tr][1..] == [];
    var a := Observe(q, s, tr).value;
    if a.outcome.Done? {
      assert ObserveSeries([q], s, [tr], false) == Some(Then(a, Idle(a.settle)));
    }
  }

  lemma StaggeredPair(q: Policy, after: real, s: real, first: Trace, second: Trace)
    requires Observe(q, s, first).Some? && Observe(q, s + after, second).Some?
    ensures ObserveStaggered(q, after, s, 0, [first, second])
         == Some([Observe(q, s, first).value, Observe(q, s + after, second).value])
  {
    var trs, tail := [first, second], [second];
    var a, b := Observe(q, s, first).value, Observe(q, s + after, second).value;
    assert HedgeStart(s, after, 0) == s && HedgeStart(s, after, 1) == s + after;
    assert trs[1..] == tail && tail[1..] == [];
    assert ObserveStaggered(q, after, s, 1, tail) == Some([b] + []);
    assert [b] + [] == [b] && [a] + [b] == [a, b];
  }

  /**
   * The overrun needs no failure: a hedge that wins after `after` leaves its first
   * attempt's scope running, no signal reaches it, and the successful run returns only
   * after d.
   */
  lemma SuccessfulRunOverruns(limit: real, d: real, after: real, s: real)
    requires 0.0 < after <= limit < d && limit + after < d <= MAX_TIMEOUT_MS
    ensures var p := Series([Hedge(HiddenScope(limit, d), after, 2)]);
            && PlanAt(p, 0).Success? && PlanAt(p, 0).value.upperBoundMs == limit + after
            && exists tr :: && Observe(p, s, tr).Some?
                            && Observe(p, s, tr).value.outcome.Done?
                            && Observe(p, s, tr).value.settle == s + d
  {
    var hidden := HiddenScope(limit, d);
    SingletonPlan(Attempt(d), 3);
    SingletonPlan(Hedge(hidden, after, 2), 0);
    var tr := HedgedOverrun(limit, d, after, s);
    SingletonRun(Hedge(hidden, after, 2), s, tr);
  }

  /** A run of the hidden scope whose leaf takes e: cut off at the limit, or within it. */
  lemma HiddenRun(limit: real, d: real, s: real, e: real, fired: bool)
    requires 0.0 <= e <= d && (if fired then limit <= e else e <= limit)
    ensures var o := Observe(HiddenScope(limit, d), s, LimitRun(SeriesRun([LeafRun(e, Done)], false), fired));
            && o.Some? && o.value.drain == Some(s + e)
            && o.value.settle == s + (if fired then limit else e)
            && o.value.outcome == if fired then Cancelled else Done
  {
    var leaf := LeafRun(e, Done);
    SingletonRun(Attempt(d), s, leaf);
    var o := Observe(Series([Attempt(d)]), s, SeriesRun([leaf], false)).value;
    assert Observe(Attempt(d), s, leaf).value.drain.None?;
    assert o.settle == s + e && o.outcome == Done && o.drain == Some(s + e);
  }

  /** Both attempts of the hedge: the first is left behind, the second wins at once. */
  lemma HedgedOverrun(limit: real, d: real, after: real, s: real) returns (tr: Trace)
    requires 0.0 < after <= limit < d
    ensures var p := Hedge(HiddenScope(limit, d), after, 2);
            && Observe(p, s, tr).Some?
            && Observe(p, s, tr).value.outcome.Done?
            && CloseGroup(Observe(p, s, tr).value).settle == Max(s + after, s + d)
  {
    var hidden := HiddenScope(limit, d);
    var slow := LimitRun(SeriesRun([LeafRun(d, Done)], false), true);
    var fast := LimitRun(SeriesRun([LeafRun(0.0, Done)], false), false);
    HiddenRun(limit, d, s, d, true);
    HiddenRun(limit, d, s + after, 0.0, false);
    StaggeredPair(hidden, after, s, slow, fast);
    PairWins(Observe(hidden, s, slow).value, Observe(hidden, s + after, fast).value, s, after);
    tr := HedgeRun([slow, fast], Won(1));
  }

  /** The second of two attempts wins as soon as it starts. */
  lemma PairWins(a: Obs, b: Obs, s: real, after: real)
    requires 0.0 <= after && !a.outcome.Done? && b.outcome.Done? && b.settle == s + after
    ensures HedgeEnds([a, b], s, after, 2, Won(1), HedgeTime([a, b], s, Won(1)))
    ensures HedgeTime([a, b], s, Won(1)) == s + after
    ensures Together([a, b], s).drain == Later(a.drain, Later(b.drain, None))
  {
    assert [a, b][1..] == [b] && [b][1..] == [];
    assert HedgeStart(s, after, 0) == s && HedgeStart(s, after, 1) == s + after;
    assert Together([b], s) == Beside(b, Idle(s));
  }
}
