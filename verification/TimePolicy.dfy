/**
 * The time-policy planner (packages/core/src/time-policy/index.ts): a static analysis of
 * a tree of resilience policies.
 */
module TimePolicy {
  import opened Wrappers
  import opened RetryPolicies

  const MAX_POLICY_DEPTH := 64

  /** `now` is the clock value the planner compared the deadline with. */
  datatype Policy =
    | Attempt(duration: real)
    | Series(policies: seq<Policy>)
    | Parallel(policies: seq<Policy>)
    | Retry(attempt: Policy, retry: RetryArg)
    | Hedge(attempt: Policy, after: real, max: int)
    | Timeout(timeout: real, policy: Policy)
    | Deadline(deadlineAt: real, now: real, policy: Policy)

  datatype Warning =
    | DeadlineInfeasible(estimatedMs: real, limitMs: real)
    | DynamicBackoff(estimatedMs: real)
    | EmptyComposition
    | HedgeExceedsTimeout(estimatedMs: real, limitMs: real)
    | JitterUpperBound
    | RetryExceedsTimeout(estimatedMs: real, limitMs: real)
    | TimeExceedsTimeout(estimatedMs: real, limitMs: real)

  datatype Plan = Plan(
    valid: bool, upperBoundMs: real, criticalPathMs: real, parallelWorkMs: real,
    attempts: nat, warnings: seq<Warning>)

  const ZERO_PLAN := Plan(true, 0.0, 0.0, 0.0, 0, [])

  function LeafPlan(ms: real): Plan {
    Plan(true, ms, ms, ms, 1, [])
  }

  function EmptyPlan(): Plan {
    ZERO_PLAN.(warnings := [EmptyComposition])
  }

  function CombineSeries(children: seq<Plan>): Plan {
    if children == [] then ZERO_PLAN
    else
      var a, b := children[0], CombineSeries(children[1..]);
      Plan(a.valid && b.valid, a.upperBoundMs + b.upperBoundMs, a.criticalPathMs + b.criticalPathMs,
           a.parallelWorkMs + b.parallelWorkMs, a.attempts + b.attempts, a.warnings + b.warnings)
  }

  /** The maximum starts from zero because no bound is negative. */
  function CombineParallel(children: seq<Plan>): Plan {
    if children == [] then ZERO_PLAN
    else
      var a, b := children[0], CombineParallel(children[1..]);
      Plan(a.valid && b.valid, Max(a.upperBoundMs, b.upperBoundMs), Max(a.criticalPathMs, b.criticalPathMs),
           a.parallelWorkMs + b.parallelWorkMs, a.attempts + b.attempts, a.warnings + b.warnings)
  }

  /** The delays booked after failed attempts k, k+1, ..., times-1. */
  function DelaysFrom(k: nat, policy: RetryPolicy): Result<real, PolicyError>
    requires k >= 1
    decreases policy.times - k
  {
    if k >= policy.times then Success(0.0)
    else
      var d :- EstimateRetryDelay(k, policy);
      var rest :- DelaysFrom(k + 1, policy);
      Success(d + rest)
  }

  function RetryWarnings(policy: RetryPolicy): seq<Warning> {
    (if policy.backoff.Dynamic? && policy.times > 1
        then seq(policy.times - 1, _ => DynamicBackoff(policy.maxDelay)) else [])
    + (if policy.jitter then [JitterUpperBound] else [])
  }

  function RetryPlan(inner: Plan, policy: RetryPolicy, delayMs: real): Plan {
    var upper := inner.upperBoundMs * policy.times as real + delayMs;
    Plan(inner.valid, upper, upper, inner.parallelWorkMs * policy.times as real,
         inner.attempts * policy.times, inner.warnings + RetryWarnings(policy))
  }

  function HedgePlan(inner: Plan, afterMs: real, max: nat): Plan
    requires max >= 1
  {
    var upper := inner.upperBoundMs + afterMs * (max - 1) as real;
    Plan(inner.valid, upper, upper, inner.parallelWorkMs * max as real, inner.attempts * max, inner.warnings)
  }

  predicate Contains(p: Policy, kind: Policy -> bool)
    decreases p
  {
    kind(p) || match p
               case Attempt(_) => false
               case Series(ps) => exists q | q in ps :: Contains(q, kind)
               case Parallel(ps) => exists q | q in ps :: Contains(q, kind)
               case Retry(q, _) => Contains(q, kind)
               case Hedge(q, _, _) => Contains(q, kind)
               case Timeout(_, q) => Contains(q, kind)
               case Deadline(_, _, q) => Contains(q, kind)
  }

  function TimeoutPlan(inner: Plan, timeoutMs: real, p: Policy): Plan {
    if inner.upperBoundMs <= timeoutMs then inner
    else
      var est := inner.upperBoundMs;
      var w := if Contains(p, (q: Policy) => q.Retry?) then RetryExceedsTimeout(est, timeoutMs)
               else if Contains(p, (q: Policy) => q.Hedge?) then HedgeExceedsTimeout(est, timeoutMs)
               else TimeExceedsTimeout(est, timeoutMs);
      inner.(upperBoundMs := timeoutMs, criticalPathMs := Min(inner.criticalPathMs, timeoutMs),
             warnings := inner.warnings + [w])
  }

  function RemainingMs(deadlineAt: real, now: real): real {
    Max(0.0, deadlineAt - now)
  }

  function DeadlinePlan(inner: Plan, remainingMs: real): Plan {
    if inner.upperBoundMs <= remainingMs then inner
    else inner.(valid := false, upperBoundMs := remainingMs,
                criticalPathMs := Min(inner.criticalPathMs, remainingMs),
                warnings := inner.warnings + [DeadlineInfeasible(inner.upperBoundMs, remainingMs)])
  }

  /** `plan`: the recursive analysis, with the errors the source throws. */
  function PlanAt(p: Policy, depth: nat): Result<Plan, PolicyError>
    decreases p, 0
  {
    if depth > MAX_POLICY_DEPTH then Failure(DepthExceeded) else
    match p
    case Attempt(d) =>
      var ms :- ParseDuration(d);
      Success(LeafPlan(ms))
    case Series(ps) =>
      if ps == [] then Success(EmptyPlan()) else
      var children :- PlanAll(ps, depth + 1);
      Success(CombineSeries(children))
    case Parallel(ps) =>
      if ps == [] then Success(EmptyPlan()) else
      var children :- PlanAll(ps, depth + 1);
      Success(CombineParallel(children))
    case Retry(q, arg) =>
      var inner :- PlanAt(q, depth + 1);
      var policy :- Normalize(arg);
      var delayMs :- DelaysFrom(1, policy);
      Success(RetryPlan(inner, policy, delayMs))
    case Hedge(q, after, max) =>
      if max < 1 then Failure(InvalidHedgeMax) else
      var inner :- PlanAt(q, depth + 1);
      var afterMs :- ParseDuration(after);
      Success(HedgePlan(inner, afterMs, max))
    case Timeout(timeout, q) =>
      var inner :- PlanAt(q, depth + 1);
      var timeoutMs :- ParseDuration(timeout);
      Success(TimeoutPlan(inner, timeoutMs, q))
    case Deadline(at, now, q) =>
      var inner :- PlanAt(q, depth + 1);
      Success(DeadlinePlan(inner, RemainingMs(at, now)))
  }

  function PlanAll(ps: seq<Policy>, depth: nat): Result<seq<Plan>, PolicyError>
    decreases ps, 0
  {
    if ps == [] then Success([])
    else
      var head :- PlanAt(ps[0], depth);
      var tail :- PlanAll(ps[1..], depth);
      Success([head] + tail)
  }

  /** The loop of `estimateRetryAtDepth`. */
  method SumRetryDelays(policy: RetryPolicy) returns (r: Result<real, PolicyError>)
    ensures r == DelaysFrom(1, policy)
  {
    var delayMs, attempt := 0.0, 1;
    while attempt < policy.times
      invariant 1 <= attempt
      invariant attempt <= policy.times || attempt == 1
      invariant DelaysFrom(1, policy) == match DelaysFrom(attempt, policy)
                                         case Success(rest) => Success(delayMs + rest)
                                         case Failure(e) => Failure(e)
    {
      var d := EstimateRetryDelay(attempt, policy);
      if d.Failure? { return Failure(d.error); }
      delayMs := delayMs + d.value;
      attempt := attempt + 1;
    }
    return Success(delayMs);
  }

  /** In every plan the critical path equals the upper bound, and no bound is negative. */
  lemma {:induction false} CriticalPathIsUpperBound(p: Policy, depth: nat)
    requires PlanAt(p, depth).Success?
    ensures var pl := PlanAt(p, depth).value;
            && pl.criticalPathMs == pl.upperBoundMs
            && pl.upperBoundMs >= 0.0 && pl.parallelWorkMs >= 0.0
    decreases p, 0
  {
    match p
    case Attempt(_) =>
    case Series(ps) => if ps != [] { CriticalPathsAreUpperBounds(ps, depth + 1); }
    case Parallel(ps) => if ps != [] { CriticalPathsAreUpperBounds(ps, depth + 1); }
    case Retry(q, arg) =>
      CriticalPathIsUpperBound(q, depth + 1);
      var policy := Normalize(arg).value;
      DelaysNonNegative(1, policy);
      RetryPlanShape(PlanAt(q, depth + 1).value, policy, DelaysFrom(1, policy).value);
    case Hedge(q, after, max) =>
      CriticalPathIsUpperBound(q, depth + 1);
      HedgePlanShape(PlanAt(q, depth + 1).value, after, max);
    case Timeout(_, q) => CriticalPathIsUpperBound(q, depth + 1);
    case Deadline(_, _, q) => CriticalPathIsUpperBound(q, depth + 1);
  }

  lemma RetryPlanShape(inner: Plan, policy: RetryPolicy, delayMs: real)
    requires inner.upperBoundMs >= 0.0 && inner.parallelWorkMs >= 0.0 && delayMs >= 0.0
    ensures var pl := RetryPlan(inner, policy, delayMs);
            pl.criticalPathMs == pl.upperBoundMs && pl.upperBoundMs >= 0.0 && pl.parallelWorkMs >= 0.0
  {
    MulNonNegative(inner.upperBoundMs, policy.times as real);
    MulNonNegative(inner.parallelWorkMs, policy.times as real);
  }

  lemma HedgePlanShape(inner: Plan, afterMs: real, max: nat)
    requires inner.upperBoundMs >= 0.0 && inner.parallelWorkMs >= 0.0 && afterMs >= 0.0 && max >= 1
    ensures var pl := HedgePlan(inner, afterMs, max);
            pl.criticalPathMs == pl.upperBoundMs && pl.upperBoundMs >= 0.0 && pl.parallelWorkMs >= 0.0
  {
    MulNonNegative(afterMs, (max - 1) as real);
    MulNonNegative(inner.parallelWorkMs, max as real);
  }

  lemma {:induction false} CriticalPathsAreUpperBounds(ps: seq<Policy>, depth: nat)
    requires PlanAll(ps, depth).Success?
    ensures var s, m := CombineSeries(PlanAll(ps, depth).value), CombineParallel(PlanAll(ps, depth).value);
            && s.criticalPathMs == s.upperBoundMs && s.upperBoundMs >= 0.0 && s.parallelWorkMs >= 0.0
            && m.criticalPathMs == m.upperBoundMs && m.upperBoundMs >= 0.0 && m.parallelWorkMs >= 0.0
    decreases ps, 0
  {
    if ps != [] {
      CriticalPathIsUpperBound(ps[0], depth);
      CriticalPathsAreUpperBounds(ps[1..], depth);
      assert PlanAll(ps, depth).value[1..] == PlanAll(ps[1..], depth).value;
    }
  }

  lemma {:induction false} DelaysNonNegative(k: nat, policy: RetryPolicy)
    requires k >= 1 && DelaysFrom(k, policy).Success?
    ensures DelaysFrom(k, policy).value >= 0.0
    decreases policy.times - k
  {
    if k < policy.times {
      EstimateBoundsRuntime(k, policy, 0.0, 0.0);
      DelaysNonNegative(k + 1, policy);
    }
  }
}
