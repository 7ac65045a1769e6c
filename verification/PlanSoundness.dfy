/**
 * The planner judged against the runtime: every run of an accepted policy costs no more
 * than its plan says, and settles within the planned bound whenever no truncating limit
 * hides a scope that an enclosing group still waits for.
 */
module PlanSoundness {
  import opened Wrappers
  import opened RetryPolicies
  import opened TimePolicy
  import opened PolicyRuns

  // ---- Costs -------------------------------------------------------------------------

  /** How often a run of `p` can charge `key` at most, by the structure of the tree alone. */
  function Demand(p: Policy, key: string): nat
    decreases p, 0
  {
    match p
    case Attempt(_) => 0
    case Series(ps) => DemandAll(ps, key)
    case Parallel(ps) => DemandAll(ps, key)
    case Retry(q, arg) =>
      var times := Times(arg);
      (if BudgetOf(arg) == Some(key) && times > 0 then times - 1 else 0) + times * Demand(q, key)
    case Hedge(q, _, max) => if max < 1 then 0 else max * Demand(q, key)
    case Timeout(_, q) => Demand(q, key)
    case Deadline(_, _, q) => Demand(q, key)
  }

  function DemandAll(ps: seq<Policy>, key: string): nat
    decreases ps, 0
  {
    if ps == [] then 0 else Demand(ps[0], key) + DemandAll(ps[1..], key)
  }

  function Times(arg: RetryArg): nat {
    if Normalize(arg).Success? then Normalize(arg).value.times else 0
  }

  ghost function Charges(o: Obs, key: string): nat {
    o.charged[key] + o.refused[key]
  }

  /** A cost bound: at most `attempts` leaves, `work` leaf time and `demand` charges. */
  datatype Costs = Costs(attempts: nat, work: real, demand: nat)

  ghost predicate CostsWithin(o: Obs, key: string, c: Costs) {
    o.invocations <= c.attempts && 0.0 <= o.work <= c.work && Charges(o, key) <= c.demand
  }

  function Plus(a: Costs, b: Costs): Costs {
    Costs(a.attempts + b.attempts, a.work + b.work, a.demand + b.demand)
  }

  /** n times a cost, by addition. */
  function Repeat(n: nat, c: Costs): Costs {
    if n == 0 then Costs(0, 0.0, 0) else Plus(c, Repeat(n - 1, c))
  }

  function PlanCosts(pl: Plan, demand: nat): Costs {
    Costs(pl.attempts, pl.parallelWorkMs, demand)
  }

  lemma {:induction false} RepeatIsProduct(n: nat, c: Costs)
    ensures Repeat(n, c) == Costs(c.attempts * n, c.work * n as real, n * c.demand)
  {
    if n > 0 {
      RepeatIsProduct(n - 1, c);
      assert c.attempts * n == c.attempts * (n - 1) + c.attempts;
      assert c.work * n as real == c.work * (n - 1) as real + c.work;
      assert n * c.demand == (n - 1) * c.demand + c.demand;
    }
  }

  lemma {:induction false} RepeatMonotone(n: nat, m: nat, c: Costs)
    requires n <= m && c.work >= 0.0
    ensures Repeat(n, c).attempts <= Repeat(m, c).attempts
    ensures Repeat(n, c).work <= Repeat(m, c).work
    ensures Repeat(n, c).demand <= Repeat(m, c).demand
  {
    if n < m { RepeatMonotone(n, m - 1, c); }
  }

  /**
   * Leaf invocations, total leaf time and budget charges of every run of an accepted
   * policy stay within the plan, zombies of timeouts and hedges included.
   */
  lemma {:induction false} RunCosts(p: Policy, depth: nat, s: real, tr: Trace, key: string)
    requires PlanAt(p, depth).Success? && Observe(p, s, tr).Some?
    ensures CostsWithin(Observe(p, s, tr).value, key, PlanCosts(PlanAt(p, depth).value, Demand(p, key)))
    ensures s <= Observe(p, s, tr).value.settle
    decreases p, 1, 0
  {
    match p
    case Attempt(_) =>
    case Series(_) => GroupCosts(p, depth, s, tr, key);
    case Parallel(_) => GroupCosts(p, depth, s, tr, key);
    case Retry(q, arg) => RetryCosts(q, arg, depth, s, tr, key);
    case Hedge(q, after, max) => HedgeCosts(q, after, max, depth, s, tr, key);
    case Timeout(_, q) => LimitCosts(p, depth, s, tr, key);
    case Deadline(_, _, q) => LimitCosts(p, depth, s, tr, key);
  }

  lemma {:induction false} GroupCosts(p: Policy, depth: nat, s: real, tr: Trace, key: string)
    requires p.Series? || p.Parallel?
    requires PlanAt(p, depth).Success? && Observe(p, s, tr).Some?
    ensures CostsWithin(Observe(p, s, tr).value, key, PlanCosts(PlanAt(p, depth).value, Demand(p, key)))
    ensures s <= Observe(p, s, tr).value.settle
    decreases p, 0, 0
  {
    if p.Series? {
      SeriesCosts(p.policies, depth + 1, s, tr.children, tr.spawnRefused, key);
    } else {
      EachCosts(p.policies, depth + 1, s, tr.children, key);
    }
  }

  lemma {:induction false} LimitCosts(p: Policy, depth: nat, s: real, tr: Trace, key: string)
    requires p.Timeout? || p.Deadline?
    requires PlanAt(p, depth).Success? && Observe(p, s, tr).Some?
    ensures CostsWithin(Observe(p, s, tr).value, key, PlanCosts(PlanAt(p, depth).value, Demand(p, key)))
    ensures s <= Observe(p, s, tr).value.settle
    decreases p, 0, 0
  {
    RunCosts(p.policy, depth + 1, s, tr.inner, key);
  }

  lemma {:induction false} SeriesCosts(
    ps: seq<Policy>, depth: nat, s: real, trs: seq<Trace>, spawnRefused: bool, key: string)
    requires PlanAll(ps, depth).Success? && ObserveSeries(ps, s, trs, spawnRefused).Some?
    ensures CostsWithin(ObserveSeries(ps, s, trs, spawnRefused).value, key,
                        PlanCosts(CombineSeries(PlanAll(ps, depth).value), DemandAll(ps, key)))
    ensures s <= ObserveSeries(ps, s, trs, spawnRefused).value.settle
    decreases ps, 0, 0
  {
    if ps != [] {
      assert PlanAll(ps, depth).value[1..] == PlanAll(ps[1..], depth).value;
      CriticalPathsAreUpperBounds(ps[1..], depth);
      CriticalPathIsUpperBound(ps[0], depth);
      if trs != [] {
        RunCosts(ps[0], depth, s, trs[0], key);
        var a := Observe(ps[0], s, trs[0]).value;
        if a.outcome.Done? {
          SeriesCosts(ps[1..], depth, a.settle, trs[1..], spawnRefused, key);
        }
      }
    }
  }

  lemma {:induction false} EachCosts(ps: seq<Policy>, depth: nat, s: real, trs: seq<Trace>, key: string)
    requires PlanAll(ps, depth).Success? && ObserveEach(ps, s, trs).Some?
    ensures CostsWithin(Together(ObserveEach(ps, s, trs).value, s), key,
                        PlanCosts(CombineParallel(PlanAll(ps, depth).value), DemandAll(ps, key)))
    ensures s <= Together(ObserveEach(ps, s, trs).value, s).settle
    decreases ps, 0, 0
  {
    if ps != [] {
      assert PlanAll(ps, depth).value[1..] == PlanAll(ps[1..], depth).value;
      assert ObserveEach(ps, s, trs).value[1..] == ObserveEach(ps[1..], s, trs[1..]).value;
      RunCosts(ps[0], depth, s, trs[0], key);
      EachCosts(ps[1..], depth, s, trs[1..], key);
    }
  }

  lemma RetryPlanCosts(inner: Plan, policy: RetryPolicy, delayMs: real, demand: nat)
    ensures var c := Repeat(policy.times, PlanCosts(inner, demand));
            var pl := RetryPlan(inner, policy, delayMs);
            pl.attempts == c.attempts && pl.parallelWorkMs == c.work && policy.times * demand == c.demand
  {
    RepeatIsProduct(policy.times, PlanCosts(inner, demand));
  }

  lemma {:induction false} RetryCosts(q: Policy, arg: RetryArg, depth: nat, s: real, tr: Trace, key: string)
    requires PlanAt(Retry(q, arg), depth).Success? && Observe(Retry(q, arg), s, tr).Some?
    ensures CostsWithin(Observe(Retry(q, arg), s, tr).value, key,
                        PlanCosts(PlanAt(Retry(q, arg), depth).value, Demand(Retry(q, arg), key)))
    ensures s <= Observe(Retry(q, arg), s, tr).value.settle
    decreases q, 2, 0
  {
    var policy := Normalize(arg).value;
    var c := PlanCosts(PlanAt(q, depth + 1).value, Demand(q, key));
    CriticalPathIsUpperBound(q, depth + 1);
    RoundsCosts(q, depth + 1, policy, BudgetOf(arg), 1, s, tr.rounds, key, c);
    RetryPlanCosts(PlanAt(q, depth + 1).value, policy, DelaysFrom(1, policy).value, Demand(q, key));
  }

  /** What n attempts cost, with a charge of their own between each two of them. */
  function RoundsBound(n: nat, c: Costs, charging: bool): Costs
    requires n >= 1
  {
    var bodies := Repeat(n, c);
    bodies.(demand := (if charging then n - 1 else 0) + bodies.demand)
  }

  /** A last round adds at most one charge to its body, and settles no earlier. */
  lemma LastRoundCosts(
    a: Obs, policy: RetryPolicy, budget: Option<string>, k: nat, next: Next, key: string, c: Costs)
    requires 1 <= k <= policy.times && LastRound(a, policy, budget, k, next).Some?
    requires c.work >= 0.0 && CostsWithin(a, key, c)
    ensures var o := LastRound(a, policy, budget, k, next).value;
            && a.settle <= o.settle
            && CostsWithin(o, key, RoundsBound(policy.times - k + 1, c, budget == Some(key)))
  {
    RepeatMonotone(0, policy.times - k, c);
  }

  lemma ThenCosts(a: Obs, b: Obs, n: nat, budget: Option<string>, key: string, c: Costs)
    requires n >= 1 && CostsWithin(a, key, c) && CostsWithin(b, key, RoundsBound(n, c, budget == Some(key)))
    ensures CostsWithin(Then(AfterCharge(a, budget), b), key, RoundsBound(n + 1, c, budget == Some(key)))
  {
  }

  /** The first round of `rounds`, when it goes on, costs at most one body and one charge more than the rest. */
  lemma NextRoundCosts(
    q: Policy, policy: RetryPolicy, budget: Option<string>, k: nat, s: real, rounds: seq<Round>, key: string, c: Costs,
    delay: real)
    requires 1 <= k < policy.times && ObserveRounds(q, policy, budget, k, s, rounds).Some?
    requires GoesOn(Observe(q, s, rounds[0].body).value, policy, k, rounds[0].next)
    requires CostsWithin(Observe(q, s, rounds[0].body).value, key, c)
    requires ComputeRetryDelay(k, policy, rounds[0].next.dynamic, rounds[0].next.random) == Success(delay)
    requires var at := Observe(q, s, rounds[0].body).value.settle + delay;
             var rest := ObserveRounds(q, policy, budget, k + 1, at, rounds[1..]);
             rest.Some? ==> CostsWithin(rest.value, key, RoundsBound(policy.times - k, c, budget == Some(key)))
    ensures CostsWithin(ObserveRounds(q, policy, budget, k, s, rounds).value, key,
                        RoundsBound(policy.times - k + 1, c, budget == Some(key)))
  {
    var a := Observe(q, s, rounds[0].body).value;
    var rest := ObserveRounds(q, policy, budget, k + 1, a.settle + delay, rounds[1..]);
    ThenCosts(a, rest.value, policy.times - k, budget, key, c);
  }

  lemma {:induction false} RoundsCosts(
    q: Policy, depth: nat, policy: RetryPolicy, budget: Option<string>, k: nat, s: real, rounds: seq<Round>,
    key: string, c: Costs)
    requires 1 <= k <= policy.times && PlanAt(q, depth).Success?
    requires DelaysFrom(k, policy).Success?
    requires ObserveRounds(q, policy, budget, k, s, rounds).Some?
    requires c == PlanCosts(PlanAt(q, depth).value, Demand(q, key)) && c.work >= 0.0
    ensures CostsWithin(ObserveRounds(q, policy, budget, k, s, rounds).value, key,
                        RoundsBound(policy.times - k + 1, c, budget == Some(key)))
    ensures s <= ObserveRounds(q, policy, budget, k, s, rounds).value.settle
    decreases q, 1, |rounds|
  {
    RunCosts(q, depth, s, rounds[0].body, key);
    var a, next := Observe(q, s, rounds[0].body).value, rounds[0].next;
    if GoesOn(a, policy, k, next) {
      EstimateBoundsRuntime(k, policy, next.dynamic, next.random);
      var delay := ComputeRetryDelay(k, policy, next.dynamic, next.random).value;
      RoundsCosts(q, depth, policy, budget, k + 1, a.settle + delay, rounds[1..], key, c);
      NextRoundCosts(q, policy, budget, k, s, rounds, key, c, delay);
    } else {
      LastRoundCosts(a, policy, budget, k, next, key, c);
    }
  }

  lemma HedgePlanCosts(inner: Plan, after: real, max: nat, demand: nat)
    requires max >= 1
    ensures var c, pl := Repeat(max, PlanCosts(inner, demand)), HedgePlan(inner, after, max);
            pl.attempts == c.attempts && pl.parallelWorkMs == c.work && max * demand == c.demand
  {
    RepeatIsProduct(max, PlanCosts(inner, demand));
  }

  lemma {:induction false} HedgeCosts(
    q: Policy, after: real, max: int, depth: nat, s: real, tr: Trace, key: string)
    requires PlanAt(Hedge(q, after, max), depth).Success? && Observe(Hedge(q, after, max), s, tr).Some?
    ensures CostsWithin(Observe(Hedge(q, after, max), s, tr).value, key,
                        PlanCosts(PlanAt(Hedge(q, after, max), depth).value, Demand(Hedge(q, after, max), key)))
    ensures s <= Observe(Hedge(q, after, max), s, tr).value.settle
    decreases q, 2, 0
  {
    var os := HedgeObs(q, after, max, s, tr);
    var c := PlanCosts(PlanAt(q, depth + 1).value, Demand(q, key));
    StaggeredCosts(q, depth + 1, after, s, 0, tr.attempts, key);
    CriticalPathIsUpperBound(q, depth + 1);
    RepeatMonotone(|tr.attempts|, max, c);
    HedgePlanCosts(PlanAt(q, depth + 1).value, after, max, Demand(q, key));
    assert CostsWithin(Together(os, s), key, Repeat(max, c));
  }

  /** The attempts a hedged run started. */
  ghost function HedgeObs(q: Policy, after: real, max: int, s: real, tr: Trace): (os: seq<Obs>)
    requires Observe(Hedge(q, after, max), s, tr).Some?
    ensures tr.HedgeRun? && max >= 1 && |os| == |tr.attempts| <= max
    ensures ObserveStaggered(q, after, s, 0, tr.attempts) == Some(os)
    ensures HedgeEnds(os, s, after, max, tr.end, HedgeTime(os, s, tr.end))
    ensures Observe(Hedge(q, after, max), s, tr).value ==
            Together(os, s).(settle := HedgeTime(os, s, tr.end), outcome := HedgeOutcome(tr.end))
  {
    StaggeredLength(q, after, s, 0, tr.attempts);
    ObserveStaggered(q, after, s, 0, tr.attempts).value
  }

  lemma {:induction false} StaggeredLength(q: Policy, after: real, s: real, i: nat, trs: seq<Trace>)
    requires ObserveStaggered(q, after, s, i, trs).Some?
    ensures |ObserveStaggered(q, after, s, i, trs).value| == |trs|
    decreases |trs|
  {
    if trs != [] { StaggeredLength(q, after, s, i + 1, trs[1..]); }
  }

  lemma {:induction false} StaggeredCosts(
    q: Policy, depth: nat, after: real, s: real, i: nat, trs: seq<Trace>, key: string)
    requires PlanAt(q, depth).Success? && ObserveStaggered(q, after, s, i, trs).Some?
    ensures |ObserveStaggered(q, after, s, i, trs).value| == |trs|
    ensures CostsWithin(Together(ObserveStaggered(q, after, s, i, trs).value, s), key,
                        Repeat(|trs|, PlanCosts(PlanAt(q, depth).value, Demand(q, key))))
    decreases q, 1, |trs|
  {
    if trs != [] {
      assert ObserveStaggered(q, after, s, i, trs).value[1..] == ObserveStaggered(q, after, s, i + 1, trs[1..]).value;
      RunCosts(q, depth, HedgeStart(s, after, i), trs[0], key);
      StaggeredCosts(q, depth, after, s, i + 1, trs[1..], key);
    }
  }

  // ---- Time --------------------------------------------------------------------------

  /** A series or parallel composition runs in a `group`, which opens a scope. */
  predicate OpensScope(p: Policy)
    decreases p
  {
    match p
    case Attempt(_) => false
    case Series(_) => true
    case Parallel(_) => true
    case Retry(q, _) => OpensScope(q)
    case Hedge(q, _, _) => OpensScope(q)
    case Timeout(_, q) => OpensScope(q)
    case Deadline(_, _, q) => OpensScope(q)
  }

  /** No limit the planner sees truncating wraps a policy that opens a scope. */
  predicate Contained(p: Policy, depth: nat)
    requires PlanAt(p, depth).Success?
    decreases p, 0
  {
    match p
    case Attempt(_) => true
    case Series(ps) => ps == [] || AllContained(ps, depth + 1)
    case Parallel(ps) => ps == [] || AllContained(ps, depth + 1)
    case Retry(q, _) => Contained(q, depth + 1)
    case Hedge(q, _, _) => Contained(q, depth + 1)
    case Timeout(ms, q) =>
      Contained(q, depth + 1) && (PlanAt(q, depth + 1).value.upperBoundMs <= ms || !OpensScope(q))
    case Deadline(at, now, q) =>
      Contained(q, depth + 1) && (PlanAt(q, depth + 1).value.upperBoundMs <= RemainingMs(at, now) || !OpensScope(q))
  }

  predicate AllContained(ps: seq<Policy>, depth: nat)
    requires PlanAll(ps, depth).Success?
    decreases ps, 0
  {
    ps == [] || (Contained(ps[0], depth) && AllContained(ps[1..], depth))
  }

  /** Below every series and parallel composition, every limit that truncates is contained. */
  predicate DrainSafe(p: Policy, depth: nat)
    requires PlanAt(p, depth).Success?
    decreases p
  {
    match p
    case Attempt(_) => true
    case Series(_) => Contained(p, depth)
    case Parallel(_) => Contained(p, depth)
    case Retry(q, _) => DrainSafe(q, depth + 1)
    case Hedge(q, _, _) => DrainSafe(q, depth + 1)
    case Timeout(_, q) => DrainSafe(q, depth + 1)
    case Deadline(_, _, q) => DrainSafe(q, depth + 1)
  }

  lemma {:induction false} ContainedIsDrainSafe(p: Policy, depth: nat)
    requires PlanAt(p, depth).Success? && Contained(p, depth)
    ensures DrainSafe(p, depth)
    decreases p
  {
    match p
    case Attempt(_) =>
    case Series(_) =>
    case Parallel(_) =>
    case Retry(q, _) => ContainedIsDrainSafe(q, depth + 1);
    case Hedge(q, _, _) => ContainedIsDrainSafe(q, depth + 1);
    case Timeout(_, q) => ContainedIsDrainSafe(q, depth + 1);
    case Deadline(_, _, q) => ContainedIsDrainSafe(q, depth + 1);
  }

  ghost predicate DrainedBy(o: Obs, end: real) {
    o.drain.Some? ==> o.drain.value <= end
  }

  /**
   * Every run of an accepted, drain-safe policy settles within the planned upper bound;
   * and when the policy is contained, every scope it opened has closed by then too.
   */
  lemma {:induction false} RunInTime(p: Policy, depth: nat, s: real, tr: Trace)
    requires PlanAt(p, depth).Success? && Observe(p, s, tr).Some? && DrainSafe(p, depth)
    ensures var end, o := s + PlanAt(p, depth).value.upperBoundMs, Observe(p, s, tr).value;
            && o.settle <= end
            && (Contained(p, depth) ==> DrainedBy(o, end))
            && (!OpensScope(p) ==> o.drain.None?)
    decreases p, 1
  {
    match p
    case Attempt(_) =>
    case Series(ps) => SeriesGroupInTime(ps, depth, s, tr);
    case Parallel(ps) => ParallelGroupInTime(ps, depth, s, tr);
    case Retry(q, arg) => RetryInTime(q, arg, depth, s, tr);
    case Hedge(q, after, max) => HedgeInTime(q, after, max, depth, s, tr);
    case Timeout(_, q) =>
      RunInTime(q, depth + 1, s, tr.inner);
    case Deadline(_, _, q) =>
      RunInTime(q, depth + 1, s, tr.inner);
  }

  lemma CloseGroupWithin(o: Obs, end: real)
    requires o.settle <= end && DrainedBy(o, end)
    ensures CloseGroup(o).settle <= end && DrainedBy(CloseGroup(o), end)
  {
  }

  lemma {:induction false} SeriesGroupInTime(ps: seq<Policy>, depth: nat, s: real, tr: Trace)
    requires PlanAt(Series(ps), depth).Success? && Observe(Series(ps), s, tr).Some? && Contained(Series(ps), depth)
    ensures var end, o := s + PlanAt(Series(ps), depth).value.upperBoundMs, Observe(Series(ps), s, tr).value;
            o.settle <= end && DrainedBy(o, end)
    decreases ps, 0, 1
  {
    if ps != [] { SeriesInTime(ps, depth + 1, s, tr.children, tr.spawnRefused); }
    var o := ObserveSeries(ps, s, tr.children, tr.spawnRefused).value;
    CloseGroupWithin(o, s + PlanAt(Series(ps), depth).value.upperBoundMs);
  }

  lemma {:induction false} ParallelGroupInTime(ps: seq<Policy>, depth: nat, s: real, tr: Trace)
    requires PlanAt(Parallel(ps), depth).Success? && Observe(Parallel(ps), s, tr).Some?
        && Contained(Parallel(ps), depth)
    ensures var end, o := s + PlanAt(Parallel(ps), depth).value.upperBoundMs, Observe(Parallel(ps), s, tr).value;
            o.settle <= end && DrainedBy(o, end)
    decreases ps, 0, 1
  {
    var end := s + PlanAt(Parallel(ps), depth).value.upperBoundMs;
    if ps != [] { EachInTime(ps, depth + 1, s, tr.children); }
    CriticalPathIsUpperBound(Parallel(ps), depth);
    var together := Together(ObserveEach(ps, s, tr.children).value, s);
    TogetherWithin(ObserveEach(ps, s, tr.children).value, s, end);
    CloseGroupWithin(together, end);
  }

  lemma {:induction false} SeriesInTime(ps: seq<Policy>, depth: nat, s: real, trs: seq<Trace>, spawnRefused: bool)
    requires PlanAll(ps, depth).Success? && ObserveSeries(ps, s, trs, spawnRefused).Some? && AllContained(ps, depth)
    ensures var end := s + CombineSeries(PlanAll(ps, depth).value).upperBoundMs;
            var o := ObserveSeries(ps, s, trs, spawnRefused).value;
            o.settle <= end && DrainedBy(o, end)
    decreases ps, 0, 0
  {
    CriticalPathsAreUpperBounds(ps, depth);
    if ps != [] {
      assert PlanAll(ps, depth).value[1..] == PlanAll(ps[1..], depth).value;
      CriticalPathsAreUpperBounds(ps[1..], depth);
      ContainedIsDrainSafe(ps[0], depth);
      if trs != [] {
        RunInTime(ps[0], depth, s, trs[0]);
        var a := Observe(ps[0], s, trs[0]).value;
        if a.outcome.Done? { SeriesInTime(ps[1..], depth, a.settle, trs[1..], spawnRefused); }
      }
    }
  }

  lemma {:induction false} EachInTime(ps: seq<Policy>, depth: nat, s: real, trs: seq<Trace>)
    requires PlanAll(ps, depth).Success? && ObserveEach(ps, s, trs).Some? && AllContained(ps, depth)
    ensures var end := s + CombineParallel(PlanAll(ps, depth).value).upperBoundMs;
            SettledBy(ObserveEach(ps, s, trs).value, end) && AllDrainedBy(ObserveEach(ps, s, trs).value, end)
    decreases ps, 0, 0
  {
    if ps != [] {
      assert PlanAll(ps, depth).value[1..] == PlanAll(ps[1..], depth).value;
      ContainedIsDrainSafe(ps[0], depth);
      RunInTime(ps[0], depth, s, trs[0]);
      EachInTime(ps[1..], depth, s, trs[1..]);
    }
  }

  ghost predicate SettledBy(os: seq<Obs>, end: real) {
    forall o | o in os :: o.settle <= end
  }

  ghost predicate AllDrainedBy(os: seq<Obs>, end: real) {
    forall o | o in os :: DrainedBy(o, end)
  }

  ghost predicate NoneDrain(os: seq<Obs>) {
    forall o | o in os :: o.drain.None?
  }

  lemma {:induction false} TogetherWithin(os: seq<Obs>, s: real, end: real)
    requires s <= end && SettledBy(os, end)
    ensures Together(os, s).settle <= end
    ensures AllDrainedBy(os, end) ==> DrainedBy(Together(os, s), end)
    ensures NoneDrain(os) ==> Together(os, s).drain.None?
  {
    if os != [] {
      assert os[0] in os && forall o | o in os[1..] :: o in os;
      TogetherWithin(os[1..], s, end);
    }
  }

  lemma {:induction false} RetryInTime(q: Policy, arg: RetryArg, depth: nat, s: real, tr: Trace)
    requires PlanAt(Retry(q, arg), depth).Success? && Observe(Retry(q, arg), s, tr).Some? && DrainSafe(q, depth + 1)
    ensures var end, o := s + PlanAt(Retry(q, arg), depth).value.upperBoundMs, Observe(Retry(q, arg), s, tr).value;
            && o.settle <= end
            && (Contained(q, depth + 1) ==> DrainedBy(o, end))
            && (!OpensScope(q) ==> o.drain.None?)
    decreases q, 3
  {
    var policy := Normalize(arg).value;
    RoundsInTime(q, depth + 1, policy, BudgetOf(arg), 1, s, tr.rounds);
    RetryPlanTime(PlanAt(q, depth + 1).value, policy, DelaysFrom(1, policy).value);
  }

  lemma RetryPlanTime(inner: Plan, policy: RetryPolicy, delayMs: real)
    ensures RetryPlan(inner, policy, delayMs).upperBoundMs
         == Repeat(policy.times, Costs(0, inner.upperBoundMs, 0)).work + delayMs
  {
    RepeatIsProduct(policy.times, Costs(0, inner.upperBoundMs, 0));
  }

  lemma HedgeTimeWithin(os: seq<Obs>, s: real, after: real, max: nat, e: HedgeEnd, end: real)
    requires max >= 1 && after >= 0.0
    requires HedgeEnds(os, s, after, max, e, HedgeTime(os, s, e))
    requires HedgeStart(s, after, max - 1) <= end && SettledBy(os, end)
    ensures HedgeTime(os, s, e) <= end
  {
    HedgeStartMonotone(s, after, 0, max - 1);
    TogetherWithin(os, s, end);
    if |os| < max { HedgeStartMonotone(s, after, |os|, max - 1); }
  }

  lemma HedgePlanTime(inner: Plan, s: real, after: real, max: nat)
    requires max >= 1
    ensures s + HedgePlan(inner, after, max).upperBoundMs == HedgeStart(s, after, max - 1) + inner.upperBoundMs
  {
  }

  /** A last round settles within the wait the planner booked, and drains as its body does. */
  lemma LastRoundInTime(a: Obs, policy: RetryPolicy, budget: Option<string>, k: nat, next: Next)
    requires k >= 1 && DelaysFrom(k, policy).Success? && LastRound(a, policy, budget, k, next).Some?
    ensures var o := LastRound(a, policy, budget, k, next).value;
            o.settle <= a.settle + DelaysFrom(k, policy).value && o.drain == a.drain
  {
    DelaysNonNegative(k, policy);
    if k < policy.times {
      DelaysNonNegative(k + 1, policy);
      if next.SleepAborted? && ComputeRetryDelay(k, policy, next.dynamic, next.random).Success?
          && 0.0 <= next.random < 1.0 {
        EstimateBoundsRuntime(k, policy, next.dynamic, next.random);
      }
    }
  }

  lemma {:induction false} RoundsInTime(
    q: Policy, depth: nat, policy: RetryPolicy, budget: Option<string>, k: nat, s: real, rounds: seq<Round>)
    requires 1 <= k <= policy.times && PlanAt(q, depth).Success? && DrainSafe(q, depth)
    requires DelaysFrom(k, policy).Success?
    requires ObserveRounds(q, policy, budget, k, s, rounds).Some?
    ensures var bodies := Repeat(policy.times - k + 1, Costs(0, PlanAt(q, depth).value.upperBoundMs, 0)).work;
            var end := s + (bodies + DelaysFrom(k, policy).value);
            var o := ObserveRounds(q, policy, budget, k, s, rounds).value;
            && o.settle <= end
            && (Contained(q, depth) ==> DrainedBy(o, end))
            && (!OpensScope(q) ==> o.drain.None?)
    decreases q, 2, |rounds|
  {
    var c := Costs(0, PlanAt(q, depth).value.upperBoundMs, 0);
    RunInTime(q, depth, s, rounds[0].body);
    CriticalPathIsUpperBound(q, depth);
    RepeatMonotone(0, policy.times - k, c);
    var a, next := Observe(q, s, rounds[0].body).value, rounds[0].next;
    if GoesOn(a, policy, k, next) {
      EstimateBoundsRuntime(k, policy, next.dynamic, next.random);
      var delay := ComputeRetryDelay(k, policy, next.dynamic, next.random).value;
      DelaysNonNegative(k + 1, policy);
      RoundsInTime(q, depth, policy, budget, k + 1, a.settle + delay, rounds[1..]);
    } else {
      DelaysNonNegative(k, policy);
      LastRoundInTime(a, policy, budget, k, next);
    }
  }

  lemma {:induction false} HedgeInTime(q: Policy, after: real, max: int, depth: nat, s: real, tr: Trace)
    requires PlanAt(Hedge(q, after, max), depth).Success? && Observe(Hedge(q, after, max), s, tr).Some?
    requires DrainSafe(q, depth + 1)
    ensures var p := Hedge(q, after, max);
            var end, o := s + PlanAt(p, depth).value.upperBoundMs, Observe(p, s, tr).value;
            && o.settle <= end
            && (Contained(q, depth + 1) ==> DrainedBy(o, end))
            && (!OpensScope(q) ==> o.drain.None?)
    decreases q, 3
  {
    var os := HedgeObs(q, after, max, s, tr);
    AttemptsInTime(q, after, max, depth + 1, s, tr.attempts, tr.end, os);
    HedgePlanTime(PlanAt(q, depth + 1).value, s, after, max);
  }

  lemma {:induction false} AttemptsInTime(
    q: Policy, after: real, max: nat, depth: nat, s: real, trs: seq<Trace>, e: HedgeEnd, os: seq<Obs>)
    requires PlanAt(q, depth).Success? && DrainSafe(q, depth) && after >= 0.0 && |trs| <= max && max >= 1
    requires ObserveStaggered(q, after, s, 0, trs) == Some(os) && HedgeEnds(os, s, after, max, e, HedgeTime(os, s, e))
    ensures var end := HedgeStart(s, after, max - 1) + PlanAt(q, depth).value.upperBoundMs;
            && HedgeTime(os, s, e) <= end
            && (Contained(q, depth) ==> DrainedBy(Together(os, s), end))
            && (!OpensScope(q) ==> Together(os, s).drain.None?)
    decreases q, 2, |trs| + 1
  {
    var end := HedgeStart(s, after, max - 1) + PlanAt(q, depth).value.upperBoundMs;
    CriticalPathIsUpperBound(q, depth);
    HedgeStartMonotone(s, after, 0, max - 1);
    StaggeredInTime(q, depth, after, s, 0, trs, max);
    TogetherWithin(os, s, end);
    HedgeTimeWithin(os, s, after, max, e, end);
  }

  lemma HedgeStartMonotone(s: real, after: real, i: nat, j: nat)
    requires i <= j && after >= 0.0
    ensures HedgeStart(s, after, i) <= HedgeStart(s, after, j)
    ensures HedgeStart(s, after, 0) == s
  {
    MulNonNegative(after, (j - i) as real);
    assert after * (j - i) as real == after * j as real - after * i as real;
  }

  lemma {:induction false} StaggeredInTime(
    q: Policy, depth: nat, after: real, s: real, i: nat, trs: seq<Trace>, max: nat)
    requires PlanAt(q, depth).Success? && DrainSafe(q, depth) && after >= 0.0 && max >= 1 && i + |trs| <= max
    requires ObserveStaggered(q, after, s, i, trs).Some?
    ensures var end := HedgeStart(s, after, max - 1) + PlanAt(q, depth).value.upperBoundMs;
            var os := ObserveStaggered(q, after, s, i, trs).value;
            && SettledBy(os, end)
            && (Contained(q, depth) ==> AllDrainedBy(os, end))
            && (!OpensScope(q) ==> NoneDrain(os))
    decreases q, 2, |trs|
  {
    if trs != [] {
      HedgeStartMonotone(s, after, i, max - 1);
      RunInTime(q, depth, HedgeStart(s, after, i), trs[0]);
      StaggeredInTime(q, depth, after, s, i + 1, trs[1..], max);
    }
  }
}
