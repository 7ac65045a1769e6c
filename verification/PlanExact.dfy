/**
 * Exactly when the planned upper bound holds, for every tree without retry and hedge:
 * attempts, series and parallel compositions (empty ones too), timeouts and deadlines.
 *
 * All times here are absolute. The times at which a run from s can succeed form an
 * interval whose upper end grows with s, so the latest run starts every task as late as
 * the tasks before it can succeed.
 */
module PlanExact {
  import opened Wrappers
  import opened RetryPolicies
  import opened TimePolicy
  import opened PolicyRuns

  predicate NoRetryOrHedge(p: Policy)
    decreases p, 0
  {
    match p
    case Attempt(_) => true
    case Series(ps) => NoneRetryOrHedge(ps)
    case Parallel(ps) => NoneRetryOrHedge(ps)
    case Retry(_, _) => false
    case Hedge(_, _, _) => false
    case Timeout(_, q) => NoRetryOrHedge(q)
    case Deadline(_, _, q) => NoRetryOrHedge(q)
  }

  predicate NoneRetryOrHedge(ps: seq<Policy>)
    decreases ps, 0
  {
    ps == [] || (NoRetryOrHedge(ps[0]) && NoneRetryOrHedge(ps[1..]))
  }

  /** Such a tree with the durations the planner accepts: none is negative. */
  predicate LimitTree(p: Policy)
    decreases p, 0
  {
    match p
    case Attempt(d) => d >= 0.0
    case Series(ps) => LimitTrees(ps)
    case Parallel(ps) => LimitTrees(ps)
    case Timeout(ms, q) => ms >= 0.0 && LimitTree(q)
    case Deadline(_, _, q) => LimitTree(q)
    case _ => false
  }

  predicate LimitTrees(ps: seq<Policy>)
    decreases ps, 0
  {
    ps == [] || (LimitTree(ps[0]) && LimitTrees(ps[1..]))
  }

  lemma {:induction false} AcceptedIsLimitTree(p: Policy, depth: nat)
    requires NoRetryOrHedge(p) && PlanAt(p, depth).Success?
    ensures LimitTree(p)
    decreases p, 0
  {
    match p
    case Attempt(_) =>
    case Series(ps) => if ps != [] { AcceptedAreLimitTrees(ps, depth + 1); }
    case Parallel(ps) => if ps != [] { AcceptedAreLimitTrees(ps, depth + 1); }
    case Timeout(_, q) => AcceptedIsLimitTree(q, depth + 1);
    case Deadline(_, _, q) => AcceptedIsLimitTree(q, depth + 1);
  }

  lemma {:induction false} AcceptedAreLimitTrees(ps: seq<Policy>, depth: nat)
    requires NoneRetryOrHedge(ps) && PlanAll(ps, depth).Success?
    ensures LimitTrees(ps)
    decreases ps, 0
  {
    if ps != [] {
      AcceptedIsLimitTree(ps[0], depth);
      AcceptedAreLimitTrees(ps[1..], depth);
    }
  }

  // ---- When a run can succeed --------------------------------------------------------------

  function LimitAt(p: Policy, s: real): real
    requires p.Timeout? || p.Deadline?
  {
    if p.Timeout? then s + p.timeout else s + RemainingMs(p.deadlineAt, s)
  }

  /** A deadline planned later than it starts has no run. */
  predicate Planned(p: Policy, s: real)
    requires p.Timeout? || p.Deadline?
  {
    p.Deadline? ==> p.now <= s
  }

  /** The latest success of a run started at s, if one can succeed. */
  function Latest(p: Policy, s: real): Option<real>
    requires LimitTree(p)
    decreases p, 0
  {
    match p
    case Attempt(d) => Some(s + d)
    case Series(ps) => LatestSeries(ps, s)
    case Parallel(ps) => LatestEach(ps, s)
    case Timeout(_, _) | Deadline(_, _, _) =>
      var u := Latest(p.policy, s);
      if u.None? || !Planned(p, s) then None
      else if SucceedsAt(p.policy, s, Min(u.value, LimitAt(p, s))) then Some(Min(u.value, LimitAt(p, s)))
      else None
  }

  function LatestSeries(ps: seq<Policy>, s: real): Option<real>
    requires LimitTrees(ps)
    decreases ps, 0
  {
    if ps == [] then Some(s)
    else
      var u := Latest(ps[0], s);
      if u.None? then None else LatestSeries(ps[1..], u.value)
  }

  function LatestEach(ps: seq<Policy>, s: real): Option<real>
    requires LimitTrees(ps)
    decreases ps, 0
  {
    if ps == [] then Some(s)
    else
      var u, v := Latest(ps[0], s), LatestEach(ps[1..], s);
      if u.None? || v.None? then None else Some(Max(u.value, v.value))
  }

  /** Some run started at s succeeds at t. */
  predicate SucceedsAt(p: Policy, s: real, t: real)
    requires LimitTree(p)
    decreases p, 0
  {
    match p
    case Attempt(d) => s <= t <= s + d
    case Series(ps) => SeriesSucceedsAt(ps, s, t)
    case Parallel(ps) => EachSucceedsAt(ps, s, t)
    case Timeout(_, _) | Deadline(_, _, _) => Planned(p, s) && t <= LimitAt(p, s) && SucceedsAt(p.policy, s, t)
  }

  /** The first task takes as much of the time as it can. */
  predicate SeriesSucceedsAt(ps: seq<Policy>, s: real, t: real)
    requires LimitTrees(ps)
    decreases ps, 0
  {
    if ps == [] then t == s
    else
      var u := Latest(ps[0], s);
      && u.Some?
      && SucceedsAt(ps[0], s, Min(t, u.value))
      && SeriesSucceedsAt(ps[1..], Min(t, u.value), t)
  }

  predicate EachSucceedsAt(ps: seq<Policy>, s: real, t: real)
    requires LimitTrees(ps)
    decreases ps, 0
  {
    if ps == [] then t == s
    else
      var u, v := Latest(ps[0], s), LatestEach(ps[1..], s);
      && u.Some? && v.Some? && t <= Max(u.value, v.value)
      && SucceedsAt(ps[0], s, Min(t, u.value))
      && EachSucceedsAt(ps[1..], s, Min(t, v.value))
  }

  // ---- The success times are an interval that moves with s -----------------------------------

  /** `Latest` is a success time. */
  lemma {:induction false} LatestSucceeds(p: Policy, s: real)
    requires LimitTree(p) && Latest(p, s).Some?
    ensures SucceedsAt(p, s, Latest(p, s).value)
    decreases p, 0
  {
    match p
    case Attempt(_) =>
    case Series(ps) => LatestSeriesSucceeds(ps, s);
    case Parallel(ps) => LatestEachSucceeds(ps, s);
    case Timeout(_, _) | Deadline(_, _, _) =>
  }

  lemma {:induction false} LatestSeriesSucceeds(ps: seq<Policy>, s: real)
    requires LimitTrees(ps) && LatestSeries(ps, s).Some?
    ensures SeriesSucceedsAt(ps, s, LatestSeries(ps, s).value)
    decreases ps, 0
  {
    if ps != [] {
      var u := Latest(ps[0], s).value;
      LatestSucceeds(ps[0], s);
      LatestSeriesSucceeds(ps[1..], u);
      SeriesWithinLatest(ps[1..], u, LatestSeries(ps, s).value);
    }
  }

  lemma {:induction false} LatestEachSucceeds(ps: seq<Policy>, s: real)
    requires LimitTrees(ps) && LatestEach(ps, s).Some?
    ensures EachSucceedsAt(ps, s, LatestEach(ps, s).value)
    decreases ps, 0
  {
    if ps != [] {
      LatestSucceeds(ps[0], s);
      LatestEachSucceeds(ps[1..], s);
    }
  }

  /** Every success time lies between s and `Latest`. */
  lemma {:induction false} WithinLatest(p: Policy, s: real, t: real)
    requires LimitTree(p) && SucceedsAt(p, s, t)
    ensures Latest(p, s).Some? && s <= t <= Latest(p, s).value
    decreases p, 0
  {
    match p
    case Attempt(_) =>
    case Series(ps) => SeriesWithinLatest(ps, s, t);
    case Parallel(ps) => EachWithinLatest(ps, s, t);
    case Timeout(_, _) | Deadline(_, _, _) =>
      WithinLatest(p.policy, s, t);
      SucceedsUpTo(p.policy, s, t, Min(Latest(p.policy, s).value, LimitAt(p, s)));
  }

  lemma {:induction false} SeriesWithinLatest(ps: seq<Policy>, s: real, t: real)
    requires LimitTrees(ps) && SeriesSucceedsAt(ps, s, t)
    ensures LatestSeries(ps, s).Some? && s <= t <= LatestSeries(ps, s).value
    decreases ps, 0
  {
    if ps != [] {
      var u := Latest(ps[0], s).value;
      var x := Min(t, u);
      WithinLatest(ps[0], s, x);
      SeriesWithinLatest(ps[1..], x, t);
      SeriesLaterStart(ps[1..], x, t, u);
      SeriesWithinLatest(ps[1..], u, Max(u, t));
    }
  }

  lemma {:induction false} EachWithinLatest(ps: seq<Policy>, s: real, t: real)
    requires LimitTrees(ps) && EachSucceedsAt(ps, s, t)
    ensures LatestEach(ps, s).Some? && s <= t <= LatestEach(ps, s).value
    decreases ps, 0
  {
    if ps != [] { WithinLatest(ps[0], s, Min(t, Latest(ps[0], s).value)); }
  }

  /** From a success time up to `Latest` every time is one. */
  lemma {:induction false} SucceedsUpTo(p: Policy, s: real, t: real, t': real)
    requires LimitTree(p) && SucceedsAt(p, s, t)
    requires Latest(p, s).Some? && t <= t' <= Latest(p, s).value
    ensures SucceedsAt(p, s, t')
    decreases p, 0
  {
    match p
    case Attempt(_) =>
    case Series(ps) => SeriesSucceedsUpTo(ps, s, t, t');
    case Parallel(ps) => EachSucceedsUpTo(ps, s, t, t');
    case Timeout(_, _) | Deadline(_, _, _) => SucceedsUpTo(p.policy, s, t, t');
  }

  lemma {:induction false} SeriesSucceedsUpTo(ps: seq<Policy>, s: real, t: real, t': real)
    requires LimitTrees(ps) && SeriesSucceedsAt(ps, s, t)
    requires LatestSeries(ps, s).Some? && t <= t' <= LatestSeries(ps, s).value
    ensures SeriesSucceedsAt(ps, s, t')
    decreases ps, 0
  {
    if ps != [] {
      var u := Latest(ps[0], s).value;
      var x, x' := Min(t, u), Min(t', u);
      SucceedsUpTo(ps[0], s, x, x');
      SeriesWithinLatest(ps[1..], x, t);
      SeriesLaterStart(ps[1..], x, t, x');
      SeriesWithinLatest(ps[1..], x', Max(x', t));
      SeriesSucceedsUpTo(ps[1..], x', Max(x', t), t');
    }
  }

  lemma {:induction false} EachSucceedsUpTo(ps: seq<Policy>, s: real, t: real, t': real)
    requires LimitTrees(ps) && EachSucceedsAt(ps, s, t)
    requires LatestEach(ps, s).Some? && t <= t' <= LatestEach(ps, s).value
    ensures EachSucceedsAt(ps, s, t')
    decreases ps, 0
  {
    if ps != [] {
      var u, v := Latest(ps[0], s).value, LatestEach(ps[1..], s).value;
      SucceedsUpTo(ps[0], s, Min(t, u), Min(t', u));
      EachSucceedsUpTo(ps[1..], s, Min(t, v), Min(t', v));
    }
  }

  /** Starting later delays a success only as far as the start itself. */
  lemma {:induction false} LaterStart(p: Policy, s: real, t: real, s': real)
    requires LimitTree(p) && SucceedsAt(p, s, t) && s <= s'
    ensures SucceedsAt(p, s', Max(s', t))
    decreases p, 0
  {
    match p
    case Attempt(_) =>
    case Series(ps) => SeriesLaterStart(ps, s, t, s');
    case Parallel(ps) => EachLaterStart(ps, s, t, s');
    case Timeout(_, _) | Deadline(_, _, _) => LaterStart(p.policy, s, t, s');
  }

  lemma {:induction false} SeriesLaterStart(ps: seq<Policy>, s: real, t: real, s': real)
    requires LimitTrees(ps) && SeriesSucceedsAt(ps, s, t) && s <= s'
    ensures SeriesSucceedsAt(ps, s', Max(s', t))
    decreases ps, 0
  {
    if ps != [] {
      var x, end := Min(t, Latest(ps[0], s).value), Max(s', t);
      SeriesWithinLatest(ps[1..], x, t);
      LatestGrows(ps[0], s, s');
      var y := Min(end, Latest(ps[0], s').value);
      LaterStart(ps[0], s, x, s');
      WithinLatest(ps[0], s', Max(s', x));
      SucceedsUpTo(ps[0], s', Max(s', x), y);
      SeriesLaterStart(ps[1..], x, t, y);
    }
  }

  lemma {:induction false} EachLaterStart(ps: seq<Policy>, s: real, t: real, s': real)
    requires LimitTrees(ps) && EachSucceedsAt(ps, s, t) && s <= s'
    ensures EachSucceedsAt(ps, s', Max(s', t))
    decreases ps, 0
  {
    if ps != [] {
      var x, y, end := Min(t, Latest(ps[0], s).value), Min(t, LatestEach(ps[1..], s).value), Max(s', t);
      LatestGrows(ps[0], s, s');
      LaterStart(ps[0], s, x, s');
      WithinLatest(ps[0], s', Max(s', x));
      SucceedsUpTo(ps[0], s', Max(s', x), Min(end, Latest(ps[0], s').value));
      LatestEachGrows(ps[1..], s, s');
      EachLaterStart(ps[1..], s, y, s');
      EachWithinLatest(ps[1..], s', Max(s', y));
      EachSucceedsUpTo(ps[1..], s', Max(s', y), Min(end, LatestEach(ps[1..], s').value));
    }
  }

  lemma {:induction false} LatestGrows(p: Policy, s: real, s': real)
    requires LimitTree(p) && Latest(p, s).Some? && s <= s'
    ensures Latest(p, s').Some? && Latest(p, s).value <= Latest(p, s').value && s' <= Latest(p, s').value
    decreases p, 1
  {
    var u := Latest(p, s).value;
    LatestSucceeds(p, s);
    LaterStart(p, s, u, s');
    WithinLatest(p, s', Max(s', u));
  }

  lemma {:induction false} LatestEachGrows(ps: seq<Policy>, s: real, s': real)
    requires LimitTrees(ps) && LatestEach(ps, s).Some? && s <= s'
    ensures LatestEach(ps, s').Some? && LatestEach(ps, s).value <= LatestEach(ps, s').value
    ensures s' <= LatestEach(ps, s').value
    decreases ps, 1
  {
    var u := LatestEach(ps, s).value;
    LatestEachSucceeds(ps, s);
    EachLaterStart(ps, s, u, s');
    EachWithinLatest(ps, s', Max(s', u));
  }

  // ---- The latest settlement -----------------------------------------------------------------

  /** Some run starts at s. */
  predicate HasRun(p: Policy, s: real)
    decreases p, 0
  {
    match p
    case Parallel(ps) => AllHaveRuns(ps, s)
    case Timeout(_, q) => HasRun(q, s)
    case Deadline(_, now, q) => now <= s && HasRun(q, s)
    case _ => true
  }

  predicate AllHaveRuns(ps: seq<Policy>, s: real)
    decreases ps, 0
  {
    ps == [] || (HasRun(ps[0], s) && AllHaveRuns(ps[1..], s))
  }

  /** The latest any run from s settles. */
  function Worst(p: Policy, s: real): real
    requires LimitTree(p)
    decreases p, 0
  {
    match p
    case Attempt(d) => s + d
    case Series(ps) => WorstSeries(ps, s)
    case Parallel(ps) => WorstEach(ps, s)
    case Timeout(_, _) | Deadline(_, _, _) => Min(Worst(p.policy, s), LimitAt(p, s))
  }

  /** The latest the scopes opened by a run from s are over. No limit cuts a scope short. */
  function OpenScopes(p: Policy, s: real): real
    requires LimitTree(p)
    decreases p, 1
  {
    match p
    case Attempt(_) => s
    case Timeout(_, q) => OpenScopes(q, s)
    case Deadline(_, _, q) => OpenScopes(q, s)
    case Series(_) | Parallel(_) => Worst(p, s)
  }

  function WorstDrained(p: Policy, s: real): real
    requires LimitTree(p)
    decreases p, 2
  {
    Max(Worst(p, s), OpenScopes(p, s))
  }

  /** The first task is left behind as late as possible, or succeeds as late as possible and the rest follows. */
  function WorstSeries(ps: seq<Policy>, s: real): real
    requires LimitTrees(ps)
    decreases ps, 0
  {
    if ps == [] then s
    else
      var u := Latest(ps[0], s);
      Max(if HasRun(ps[0], s) then WorstDrained(ps[0], s) else s,
          if u.Some? then WorstSeries(ps[1..], u.value) else s)
  }

  function WorstEach(ps: seq<Policy>, s: real): real
    requires LimitTrees(ps)
    decreases ps, 0
  {
    if ps == [] then s else Max(WorstDrained(ps[0], s), WorstEach(ps[1..], s))
  }

  lemma {:induction false} WorstAfterStart(p: Policy, s: real)
    requires LimitTree(p)
    ensures s <= Worst(p, s) && s <= OpenScopes(p, s)
    decreases p, 0
  {
    match p
    case Attempt(_) =>
    case Series(ps) => WorstSeriesAfterStart(ps, s);
    case Parallel(ps) => WorstEachAfterStart(ps, s);
    case Timeout(_, _) | Deadline(_, _, _) => WorstAfterStart(p.policy, s);
  }

  lemma {:induction false} WorstSeriesAfterStart(ps: seq<Policy>, s: real)
    requires LimitTrees(ps)
    ensures s <= WorstSeries(ps, s)
    decreases ps, 0
  {
    if ps != [] { WorstAfterStart(ps[0], s); }
  }

  lemma {:induction false} WorstEachAfterStart(ps: seq<Policy>, s: real)
    requires LimitTrees(ps)
    ensures s <= WorstEach(ps, s)
    decreases ps, 0
  {
    if ps != [] { WorstEachAfterStart(ps[1..], s); }
  }

  /** A later start has its latest run later. */
  lemma {:induction false} WorstGrows(p: Policy, s: real, s': real)
    requires LimitTree(p) && HasRun(p, s) && s <= s'
    ensures HasRun(p, s') && Worst(p, s) <= Worst(p, s') && OpenScopes(p, s) <= OpenScopes(p, s')
    decreases p, 0
  {
    match p
    case Attempt(_) =>
    case Series(ps) => WorstSeriesGrows(ps, s, s');
    case Parallel(ps) => WorstEachGrows(ps, s, s');
    case Timeout(_, _) | Deadline(_, _, _) => WorstGrows(p.policy, s, s');
  }

  lemma {:induction false} WorstSeriesGrows(ps: seq<Policy>, s: real, s': real)
    requires LimitTrees(ps) && s <= s'
    ensures WorstSeries(ps, s) <= WorstSeries(ps, s')
    decreases ps, 0
  {
    if ps != [] {
      WorstSeriesAfterStart(ps, s');
      if HasRun(ps[0], s) { WorstGrows(ps[0], s, s'); }
      if Latest(ps[0], s).Some? {
        LatestGrows(ps[0], s, s');
        WorstSeriesGrows(ps[1..], Latest(ps[0], s).value, Latest(ps[0], s').value);
      }
    }
  }

  lemma {:induction false} WorstEachGrows(ps: seq<Policy>, s: real, s': real)
    requires LimitTrees(ps) && AllHaveRuns(ps, s) && s <= s'
    ensures AllHaveRuns(ps, s') && WorstEach(ps, s) <= WorstEach(ps, s')
    decreases ps, 0
  {
    if ps != [] {
      WorstGrows(ps[0], s, s');
      WorstEachGrows(ps[1..], s, s');
    }
  }

  // ---- No run is later -----------------------------------------------------------------------

  /** A successful run has closed every scope it opened: nothing was cut short. */
  ghost predicate DoneAt(o: Obs, t: real) {
    o.outcome.Done? && o.settle == t && (o.drain.Some? ==> o.drain.value <= t)
  }

  ghost predicate WithinWorst(p: Policy, s: real, o: Obs)
    requires LimitTree(p)
  {
    && HasRun(p, s)
    && s <= o.settle <= Worst(p, s)
    && (o.drain.Some? ==> o.drain.value <= OpenScopes(p, s))
    && (o.outcome.Done? ==> DoneAt(o, o.settle) && SucceedsAt(p, s, o.settle))
  }

  lemma {:induction false} RunWithinWorst(p: Policy, s: real, tr: Trace)
    requires LimitTree(p) && Observe(p, s, tr).Some?
    ensures WithinWorst(p, s, Observe(p, s, tr).value)
    decreases p, 0
  {
    match p
    case Attempt(_) =>
    case Series(ps) => SeriesWithinWorst(ps, s, tr.children, tr.spawnRefused);
    case Parallel(ps) => EachWithinWorst(ps, s, tr.children);
    case Timeout(_, _) | Deadline(_, _, _) => RunWithinWorst(p.policy, s, tr.inner);
  }

  lemma {:induction false} SeriesWithinWorst(ps: seq<Policy>, s: real, trs: seq<Trace>, spawnRefused: bool)
    requires LimitTrees(ps) && ObserveSeries(ps, s, trs, spawnRefused).Some?
    ensures var o := ObserveSeries(ps, s, trs, spawnRefused).value;
            && s <= o.settle && CloseGroup(o).settle <= WorstSeries(ps, s)
            && (o.outcome.Done? ==> DoneAt(o, o.settle) && SeriesSucceedsAt(ps, s, o.settle))
    decreases ps, 0
  {
    WorstSeriesAfterStart(ps, s);
    if ps != [] && trs != [] {
      var a := Observe(ps[0], s, trs[0]).value;
      RunWithinWorst(ps[0], s, trs[0]);
      if a.outcome.Done? {
        var b := ObserveSeries(ps[1..], a.settle, trs[1..], spawnRefused).value;
        SeriesWithinWorst(ps[1..], a.settle, trs[1..], spawnRefused);
        WithinLatest(ps[0], s, a.settle);
        WorstSeriesGrows(ps[1..], a.settle, Latest(ps[0], s).value);
        if b.outcome.Done? { SeriesComposes(ps, s, a.settle, b.settle); }
      }
    }
  }

  /** However the tasks of a series share the time, the first can take as much of it as possible. */
  lemma SeriesComposes(ps: seq<Policy>, s: real, x: real, t: real)
    requires LimitTrees(ps) && ps != [] && SucceedsAt(ps[0], s, x) && SeriesSucceedsAt(ps[1..], x, t)
    ensures SeriesSucceedsAt(ps, s, t)
  {
    WithinLatest(ps[0], s, x);
    SeriesWithinLatest(ps[1..], x, t);
    var y := Min(t, Latest(ps[0], s).value);
    SucceedsUpTo(ps[0], s, x, y);
    SeriesLaterStart(ps[1..], x, t, y);
  }

  lemma {:induction false} EachWithinWorst(ps: seq<Policy>, s: real, trs: seq<Trace>)
    requires LimitTrees(ps) && ObserveEach(ps, s, trs).Some?
    ensures var os := ObserveEach(ps, s, trs).value;
            && AllHaveRuns(ps, s)
            && s <= Together(os, s).settle && CloseGroup(Together(os, s)).settle <= WorstEach(ps, s)
            && (AllDone(os) ==> DoneAt(Together(os, s), Together(os, s).settle)
                                && EachSucceedsAt(ps, s, Together(os, s).settle))
    decreases ps, 0
  {
    if ps != [] {
      var os := ObserveEach(ps, s, trs).value;
      assert os[1..] == ObserveEach(ps[1..], s, trs[1..]).value;
      RunWithinWorst(ps[0], s, trs[0]);
      EachWithinWorst(ps[1..], s, trs[1..]);
      if AllDone(os) {
        assert os[0] in os && forall o | o in os[1..] :: o in os;
        EachComposes(ps, s, os[0].settle, Together(os[1..], s).settle);
      }
    }
  }

  ghost predicate AllDone(os: seq<Obs>) {
    forall o | o in os :: o.outcome.Done?
  }

  lemma EachComposes(ps: seq<Policy>, s: real, x: real, y: real)
    requires LimitTrees(ps) && ps != [] && SucceedsAt(ps[0], s, x) && EachSucceedsAt(ps[1..], s, y)
    ensures EachSucceedsAt(ps, s, Max(x, y))
  {
    WithinLatest(ps[0], s, x);
    EachWithinLatest(ps[1..], s, y);
    SucceedsUpTo(ps[0], s, x, Min(Max(x, y), Latest(ps[0], s).value));
    EachSucceedsUpTo(ps[1..], s, y, Min(Max(x, y), LatestEach(ps[1..], s).value));
  }

  // ---- The latest run exists -----------------------------------------------------------------

  /** A successful run at every success time. */
  lemma {:induction false} DoneRun(p: Policy, s: real, t: real) returns (tr: Trace)
    requires LimitTree(p) && SucceedsAt(p, s, t)
    ensures Observe(p, s, tr).Some? && DoneAt(Observe(p, s, tr).value, t)
    decreases p, 0
  {
    match p
    case Attempt(_) => tr := LeafRun(t - s, Done);
    case Series(ps) =>
      var trs := DoneSeries(ps, s, t);
      tr := SeriesRun(trs, false);
    case Parallel(ps) =>
      var trs := DoneEach(ps, s, t);
      tr := ParallelRun(trs, 0);
    case Timeout(_, _) | Deadline(_, _, _) =>
      var inner := DoneRun(p.policy, s, t);
      tr := LimitRun(inner, false);
  }

  lemma {:induction false} DoneSeries(ps: seq<Policy>, s: real, t: real) returns (trs: seq<Trace>)
    requires LimitTrees(ps) && SeriesSucceedsAt(ps, s, t)
    ensures ObserveSeries(ps, s, trs, false).Some? && DoneAt(ObserveSeries(ps, s, trs, false).value, t)
    decreases ps, 0
  {
    trs := [];
    if ps != [] {
      var x := Min(t, Latest(ps[0], s).value);
      var head := DoneRun(ps[0], s, x);
      var tail := DoneSeries(ps[1..], x, t);
      trs := [head] + tail;
      assert trs[1..] == tail;
    }
  }

  lemma {:induction false} DoneEach(ps: seq<Policy>, s: real, t: real) returns (trs: seq<Trace>)
    requires LimitTrees(ps) && EachSucceedsAt(ps, s, t)
    ensures ObserveEach(ps, s, trs).Some? && DoneAt(Together(ObserveEach(ps, s, trs).value, s), t)
    ensures AllDone(ObserveEach(ps, s, trs).value)
    decreases ps, 0
  {
    trs := [];
    if ps != [] {
      var head := DoneRun(ps[0], s, Min(t, Latest(ps[0], s).value));
      var tail := DoneEach(ps[1..], s, Min(t, LatestEach(ps[1..], s).value));
      trs := [head] + tail;
      assert trs[1..] == tail;
      assert ObserveEach(ps, s, trs).value[1..] == ObserveEach(ps[1..], s, tail).value;
    }
  }

  /** A run that settles, and whose scopes close, as late as possible. */
  ghost predicate AsLateAsPossible(p: Policy, s: real, o: Obs)
    requires LimitTree(p)
  {
    && o.settle == Worst(p, s)
    && (if o.drain.Some? then o.drain.value == OpenScopes(p, s) else OpenScopes(p, s) == s)
  }

  lemma {:induction false} WorstRun(p: Policy, s: real) returns (tr: Trace)
    requires LimitTree(p) && HasRun(p, s)
    ensures Observe(p, s, tr).Some? && AsLateAsPossible(p, s, Observe(p, s, tr).value)
    decreases p, 0
  {
    match p
    case Attempt(d) => tr := LeafRun(d, Failed);
    case Series(ps) =>
      var trs, refused := WorstSeriesRun(ps, s);
      tr := SeriesRun(trs, refused);
    case Parallel(ps) =>
      var trs := WorstEachRun(ps, s);
      var k := SomeFirstRejection(ObserveEach(ps, s, trs).value);
      tr := ParallelRun(trs, k);
    case Timeout(_, _) | Deadline(_, _, _) =>
      var inner := WorstRun(p.policy, s);
      tr := LimitRun(inner, LimitAt(p, s) < Worst(p.policy, s));
  }

  lemma {:induction false} WorstSeriesRun(ps: seq<Policy>, s: real) returns (trs: seq<Trace>, refused: bool)
    requires LimitTrees(ps)
    ensures ObserveSeries(ps, s, trs, refused).Some?
    ensures CloseGroup(ObserveSeries(ps, s, trs, refused).value).settle == WorstSeries(ps, s)
    decreases ps, 0
  {
    trs, refused := [], ps != [];
    if ps != [] {
      var u := Latest(ps[0], s);
      WorstAfterStart(ps[0], s);
      if u.Some? && (HasRun(ps[0], s) ==> WorstDrained(ps[0], s) <= WorstSeries(ps[1..], u.value)) {
        trs, refused := LateTail(ps, s);
      } else if HasRun(ps[0], s) {
        trs, refused := LateHead(ps, s);
      }
    }
  }

  /** The first task succeeds as late as possible, and the rest follows as late as possible. */
  lemma {:induction false} LateTail(ps: seq<Policy>, s: real) returns (trs: seq<Trace>, refused: bool)
    requires LimitTrees(ps) && ps != [] && Latest(ps[0], s).Some?
    ensures ObserveSeries(ps, s, trs, refused).Some?
    ensures CloseGroup(ObserveSeries(ps, s, trs, refused).value).settle == WorstSeries(ps[1..], Latest(ps[0], s).value)
    ensures s <= Latest(ps[0], s).value <= WorstSeries(ps[1..], Latest(ps[0], s).value)
    decreases ps[1..], 1
  {
    var u := Latest(ps[0], s).value;
    LatestSucceeds(ps[0], s);
    WithinLatest(ps[0], s, u);
    var head := DoneRun(ps[0], s, u);
    var tail;
    tail, refused := WorstSeriesRun(ps[1..], u);
    trs := [head] + tail;
    assert trs[1..] == tail;
    SeriesWithinWorst(ps[1..], u, tail, refused);
  }

  /** The first task ends as late as possible; if it succeeds, the next is refused. */
  lemma {:induction false} LateHead(ps: seq<Policy>, s: real) returns (trs: seq<Trace>, refused: bool)
    requires LimitTrees(ps) && ps != [] && HasRun(ps[0], s)
    ensures ObserveSeries(ps, s, trs, refused).Some?
    ensures CloseGroup(ObserveSeries(ps, s, trs, refused).value).settle == WorstDrained(ps[0], s)
    decreases ps[0], 1
  {
    var head := WorstRun(ps[0], s);
    var a := Observe(ps[0], s, head).value;
    WorstAfterStart(ps[0], s);
    trs, refused := [head], a.outcome.Done? && ps[1..] != [];
    assert trs[1..] == [];
  }

  lemma {:induction false} WorstEachRun(ps: seq<Policy>, s: real) returns (trs: seq<Trace>)
    requires LimitTrees(ps) && AllHaveRuns(ps, s)
    ensures ObserveEach(ps, s, trs).Some?
    ensures CloseGroup(Together(ObserveEach(ps, s, trs).value, s)).settle == WorstEach(ps, s)
    decreases ps, 0
  {
    trs := [];
    if ps != [] {
      var head := WorstRun(ps[0], s);
      var tail := WorstEachRun(ps[1..], s);
      WorstAfterStart(ps[0], s);
      trs := [head] + tail;
      assert trs[1..] == tail;
      assert ObserveEach(ps, s, trs).value[1..] == ObserveEach(ps[1..], s, tail).value;
    }
  }

  lemma {:induction false} SomeFirstRejection(os: seq<Obs>) returns (k: nat)
    ensures AllDone(os) || FirstRejection(os, k)
  {
    k := 0;
    if os != [] {
      var j := SomeFirstRejection(os[1..]);
      assert forall i | 1 <= i < |os| :: os[1..][i - 1] == os[i];
      if AllDone(os[1..]) {
        assert os == [os[0]] + os[1..];
        assert forall i | 1 <= i < |os| :: os[i] in os[1..];
      } else if os[0].outcome.Done? || os[j + 1].settle < os[0].settle {
        k := j + 1;
      }
    }
  }

  // ---- Main results --------------------------------------------------------------------------

  /**
   * For every accepted tree without retry and hedge the planned upper bound holds of every
   * run from s exactly when the latest settlement, scopes included, is within it.
   */
  lemma {:induction false} PlannedBoundHoldsIff(p: Policy, depth: nat, s: real)
    requires NoRetryOrHedge(p) && PlanAt(p, depth).Success?
    ensures LimitTree(p)
    ensures (forall tr | Observe(p, s, tr).Some? ::
               Observe(p, s, tr).value.settle <= s + PlanAt(p, depth).value.upperBoundMs)
       <==> (HasRun(p, s) ==> Worst(p, s) <= s + PlanAt(p, depth).value.upperBoundMs)
  {
    AcceptedIsLimitTree(p, depth);
    if HasRun(p, s) {
      var late := WorstRun(p, s);
      assert Observe(p, s, late).value.settle == Worst(p, s);
    }
    forall tr | Observe(p, s, tr).Some?
      ensures HasRun(p, s) && Observe(p, s, tr).value.settle <= Worst(p, s)
    {
      RunWithinWorst(p, s, tr);
    }
  }

  /** A run that succeeds keeps the planned bound, hidden scopes or not. */
  lemma {:induction false} SuccessKeepsBound(p: Policy, depth: nat, s: real, tr: Trace)
    requires NoRetryOrHedge(p) && PlanAt(p, depth).Success?
    requires Observe(p, s, tr).Some? && Observe(p, s, tr).value.outcome.Done?
    ensures Observe(p, s, tr).value.settle <= s + PlanAt(p, depth).value.upperBoundMs
  {
    AcceptedIsLimitTree(p, depth);
    RunWithinWorst(p, s, tr);
    WithinLatest(p, s, Observe(p, s, tr).value.settle);
    LatestWithinPlan(p, depth, s);
  }

  lemma {:induction false} LatestWithinPlan(p: Policy, depth: nat, s: real)
    requires LimitTree(p) && PlanAt(p, depth).Success? && Latest(p, s).Some?
    ensures Latest(p, s).value <= s + PlanAt(p, depth).value.upperBoundMs
    decreases p, 0
  {
    CriticalPathIsUpperBound(p, depth);
    match p
    case Attempt(_) =>
    case Series(ps) => if ps != [] { LatestSeriesWithinPlan(ps, depth + 1, s); }
    case Parallel(ps) => if ps != [] { LatestEachWithinPlan(ps, depth + 1, s); }
    case Timeout(_, _) | Deadline(_, _, _) => LatestWithinPlan(p.policy, depth + 1, s);
  }

  lemma {:induction false} LatestSeriesWithinPlan(ps: seq<Policy>, depth: nat, s: real)
    requires LimitTrees(ps) && PlanAll(ps, depth).Success? && LatestSeries(ps, s).Some?
    ensures LatestSeries(ps, s).value <= s + CombineSeries(PlanAll(ps, depth).value).upperBoundMs
    decreases ps, 0
  {
    CriticalPathsAreUpperBounds(ps, depth);
    if ps != [] {
      assert PlanAll(ps, depth).value[1..] == PlanAll(ps[1..], depth).value;
      CriticalPathIsUpperBound(ps[0], depth);
      LatestWithinPlan(ps[0], depth, s);
      CriticalPathsAreUpperBounds(ps[1..], depth);
      LatestSeriesWithinPlan(ps[1..], depth, Latest(ps[0], s).value);
    }
  }

  lemma {:induction false} LatestEachWithinPlan(ps: seq<Policy>, depth: nat, s: real)
    requires LimitTrees(ps) && PlanAll(ps, depth).Success? && LatestEach(ps, s).Some?
    ensures LatestEach(ps, s).value <= s + CombineParallel(PlanAll(ps, depth).value).upperBoundMs
    decreases ps, 0
  {
    CriticalPathsAreUpperBounds(ps, depth);
    if ps != [] {
      assert PlanAll(ps, depth).value[1..] == PlanAll(ps[1..], depth).value;
      LatestWithinPlan(ps[0], depth, s);
      LatestEachWithinPlan(ps[1..], depth, s);
    }
  }

  // ---- The bound is met ----------------------------------------------------------------------

  /** Every deadline was planned no later than s. */
  predicate PlannedBy(p: Policy, s: real)
    decreases p, 0
  {
    match p
    case Series(ps) => AllPlannedBy(ps, s)
    case Parallel(ps) => AllPlannedBy(ps, s)
    case Timeout(_, q) => PlannedBy(q, s)
    case Deadline(_, now, q) => now <= s && PlannedBy(q, s)
    case _ => true
  }

  predicate AllPlannedBy(ps: seq<Policy>, s: real)
    decreases ps, 0
  {
    ps == [] || (PlannedBy(ps[0], s) && AllPlannedBy(ps[1..], s))
  }

  /** Started at s with every task as late as planned, each deadline still leaves the time it was planned with. */
  predicate Keeps(p: Policy, depth: nat, s: real)
    requires PlanAt(p, depth).Success?
    decreases p, 0
  {
    match p
    case Series(ps) => ps == [] || AllKeep(ps, depth + 1, s)
    case Parallel(ps) => ps == [] || EachKeeps(ps, depth + 1, s)
    case Timeout(_, q) => Keeps(q, depth + 1, s)
    case Deadline(at, now, q) => Keeps(q, depth + 1, s) && PlanAt(p, depth).value.upperBoundMs <= RemainingMs(at, s)
    case _ => true
  }

  predicate AllKeep(ps: seq<Policy>, depth: nat, s: real)
    requires PlanAll(ps, depth).Success?
    decreases ps, 0
  {
    ps == [] || (Keeps(ps[0], depth, s) && AllKeep(ps[1..], depth, s + PlanAt(ps[0], depth).value.upperBoundMs))
  }

  predicate EachKeeps(ps: seq<Policy>, depth: nat, s: real)
    requires PlanAll(ps, depth).Success?
    decreases ps, 0
  {
    ps == [] || (Keeps(ps[0], depth, s) && EachKeeps(ps[1..], depth, s))
  }

  lemma {:induction false} PlannedByLater(p: Policy, s: real, s': real)
    requires PlannedBy(p, s) && s <= s'
    ensures PlannedBy(p, s')
    decreases p, 0
  {
    match p
    case Series(ps) => AllPlannedByLater(ps, s, s');
    case Parallel(ps) => AllPlannedByLater(ps, s, s');
    case Timeout(_, q) => PlannedByLater(q, s, s');
    case Deadline(_, _, q) => PlannedByLater(q, s, s');
    case _ =>
  }

  lemma {:induction false} AllPlannedByLater(ps: seq<Policy>, s: real, s': real)
    requires AllPlannedBy(ps, s) && s <= s'
    ensures AllPlannedBy(ps, s')
    decreases ps, 0
  {
    if ps != [] {
      PlannedByLater(ps[0], s, s');
      AllPlannedByLater(ps[1..], s, s');
    }
  }

  /** Once every deadline is planned, a run can succeed at once. */
  lemma {:induction false} SucceedsAtOnce(p: Policy, s: real)
    requires LimitTree(p) && PlannedBy(p, s)
    ensures SucceedsAt(p, s, s)
    decreases p, 0
  {
    match p
    case Attempt(_) =>
    case Series(ps) => SeriesSucceedsAtOnce(ps, s);
    case Parallel(ps) => EachSucceedsAtOnce(ps, s);
    case Timeout(_, _) | Deadline(_, _, _) => SucceedsAtOnce(p.policy, s);
  }

  lemma {:induction false} SeriesSucceedsAtOnce(ps: seq<Policy>, s: real)
    requires LimitTrees(ps) && AllPlannedBy(ps, s)
    ensures SeriesSucceedsAt(ps, s, s)
    decreases ps, 0
  {
    if ps != [] {
      SucceedsAtOnce(ps[0], s);
      WithinLatest(ps[0], s, s);
      SeriesSucceedsAtOnce(ps[1..], s);
    }
  }

  lemma {:induction false} EachSucceedsAtOnce(ps: seq<Policy>, s: real)
    requires LimitTrees(ps) && AllPlannedBy(ps, s)
    ensures EachSucceedsAt(ps, s, s)
    decreases ps, 0
  {
    if ps != [] {
      SucceedsAtOnce(ps[0], s);
      WithinLatest(ps[0], s, s);
      EachSucceedsAtOnce(ps[1..], s);
      EachWithinLatest(ps[1..], s, s);
    }
  }

  lemma {:induction false} LatestIsPlanned(p: Policy, depth: nat, s: real)
    requires LimitTree(p) && PlanAt(p, depth).Success? && PlannedBy(p, s) && Keeps(p, depth, s)
    ensures Latest(p, s) == Some(s + PlanAt(p, depth).value.upperBoundMs)
    decreases p, 0
  {
    match p
    case Attempt(_) =>
    case Series(ps) => if ps != [] { LatestSeriesIsPlanned(ps, depth + 1, s); }
    case Parallel(ps) => if ps != [] { LatestEachIsPlanned(ps, depth + 1, s); }
    case Timeout(_, _) | Deadline(_, _, _) =>
      LatestIsPlanned(p.policy, depth + 1, s);
      CriticalPathIsUpperBound(p, depth);
      SucceedsAtOnce(p.policy, s);
      SucceedsUpTo(p.policy, s, s, Min(Latest(p.policy, s).value, LimitAt(p, s)));
  }

  lemma {:induction false} LatestSeriesIsPlanned(ps: seq<Policy>, depth: nat, s: real)
    requires LimitTrees(ps) && PlanAll(ps, depth).Success? && AllPlannedBy(ps, s) && AllKeep(ps, depth, s)
    ensures LatestSeries(ps, s) == Some(s + CombineSeries(PlanAll(ps, depth).value).upperBoundMs)
    decreases ps, 0
  {
    if ps != [] {
      var u := PlanAt(ps[0], depth).value.upperBoundMs;
      assert PlanAll(ps, depth).value[1..] == PlanAll(ps[1..], depth).value;
      CriticalPathIsUpperBound(ps[0], depth);
      LatestIsPlanned(ps[0], depth, s);
      AllPlannedByLater(ps[1..], s, s + u);
      LatestSeriesIsPlanned(ps[1..], depth, s + u);
    }
  }

  lemma {:induction false} LatestEachIsPlanned(ps: seq<Policy>, depth: nat, s: real)
    requires LimitTrees(ps) && PlanAll(ps, depth).Success? && AllPlannedBy(ps, s) && EachKeeps(ps, depth, s)
    ensures LatestEach(ps, s) == Some(s + CombineParallel(PlanAll(ps, depth).value).upperBoundMs)
    decreases ps, 0
  {
    if ps != [] {
      assert PlanAll(ps, depth).value[1..] == PlanAll(ps[1..], depth).value;
      LatestIsPlanned(ps[0], depth, s);
      LatestEachIsPlanned(ps[1..], depth, s);
    }
  }

  /**
   * The bound is met: some successful run of an accepted tree without retry and hedge
   * settles exactly at it, truncating limits or not, as long as every deadline was planned
   * by the start and still leaves the time it was planned with.
   */
  lemma {:induction false} SuccessMeetsBound(p: Policy, depth: nat, s: real) returns (tr: Trace)
    requires NoRetryOrHedge(p) && PlanAt(p, depth).Success? && PlannedBy(p, s) && Keeps(p, depth, s)
    ensures Observe(p, s, tr).Some? && Observe(p, s, tr).value.outcome.Done?
    ensures Observe(p, s, tr).value.settle == s + PlanAt(p, depth).value.upperBoundMs
  {
    AcceptedIsLimitTree(p, depth);
    LatestIsPlanned(p, depth, s);
    LatestSucceeds(p, s);
    tr := DoneRun(p, s, s + PlanAt(p, depth).value.upperBoundMs);
  }

  /**
   * A deadline around such a tree is called feasible exactly when every success of the
   * tree, started when the plan was made, comes by the deadline.
   */
  lemma {:induction false} ValidIffSuccessesInTime(at: real, now: real, q: Policy, depth: nat)
    requires NoRetryOrHedge(q) && PlanAt(Deadline(at, now, q), depth).Success?
    requires PlanAt(q, depth + 1).value.valid && PlannedBy(q, now) && Keeps(q, depth + 1, now)
    ensures PlanAt(Deadline(at, now, q), depth).value.valid <==>
            forall tr | Observe(q, now, tr).Some? && Observe(q, now, tr).value.outcome.Done? ::
              Observe(q, now, tr).value.settle <= Max(now, at)
  {
    var late := SuccessMeetsBound(q, depth + 1, now);
    assert Observe(q, now, late).value.settle == now + PlanAt(q, depth + 1).value.upperBoundMs;
    CriticalPathIsUpperBound(q, depth + 1);
    forall tr | Observe(q, now, tr).Some? && Observe(q, now, tr).value.outcome.Done?
      ensures Observe(q, now, tr).value.settle <= now + PlanAt(q, depth + 1).value.upperBoundMs
    {
      SuccessKeepsBound(q, depth + 1, now, tr);
    }
  }
}
