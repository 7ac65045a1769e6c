/**
 * The planner's numbers are met. When no limit truncates and no composition is empty, one
 * run makes every planned attempt, works every planned millisecond, charges every key its
 * full demand, and settles exactly at the planned bound, up to what jitter takes off.
 */
module PlanTight {
  import opened Wrappers
  import opened RetryPolicies
  import opened TimePolicy
  import opened PolicyRuns
  import opened PlanSoundness

  // ---- The full run ----------------------------------------------------------------------------

  /** The runtime delay of the slowest backoff answer, with jitter drawn at r. */
  function DelayAt(k: nat, policy: RetryPolicy, r: real): real
    requires k >= 1
  {
    var d := ComputeRetryDelay(k, policy, policy.maxDelay, r);
    if d.Success? then d.value else 0.0
  }

  /** How long the full run takes. */
  function Duration(p: Policy, r: real): real
    decreases p, 0, 0
  {
    match p
    case Attempt(d) => d
    case Series(ps) => SumDuration(ps, r)
    case Parallel(ps) => MaxDuration(ps, r)
    case Retry(q, arg) => if Normalize(arg).Success? then RoundsDuration(q, Normalize(arg).value, 1, r) else 0.0
    case Hedge(q, after, max) => HedgeWaits(after, max) + Duration(q, r)
    case Timeout(_, q) => Duration(q, r)
    case Deadline(_, _, q) => Duration(q, r)
  }

  /** How long after the first attempt of a hedge its last one starts. */
  function HedgeWaits(after: real, max: int): real {
    after * (max - 1) as real
  }

  function SumDuration(ps: seq<Policy>, r: real): real
    decreases ps, 0, 0
  {
    if ps == [] then 0.0 else Duration(ps[0], r) + SumDuration(ps[1..], r)
  }

  function MaxDuration(ps: seq<Policy>, r: real): real
    decreases ps, 0, 0
  {
    if ps == [] then 0.0 else Max(Duration(ps[0], r), MaxDuration(ps[1..], r))
  }

  /** Attempts k, ..., times with the delays between them. */
  function RoundsDuration(q: Policy, policy: RetryPolicy, k: nat, r: real): real
    requires k >= 1
    decreases q, 1, policy.times - k
  {
    if k >= policy.times then Duration(q, r)
    else Duration(q, r) + DelayAt(k, policy, r) + RoundsDuration(q, policy, k + 1, r)
  }

  /** Which task of a parallel composition settles last. */
  function Slowest(ps: seq<Policy>, r: real): nat {
    if |ps| <= 1 || Duration(ps[0], r) >= MaxDuration(ps[1..], r) then 0 else 1 + Slowest(ps[1..], r)
  }

  /** Every leaf takes its declared time; whatever can be tried again fails until its last attempt. */
  function FullTrace(p: Policy, outcome: Outcome, r: real): Trace
    decreases p, 0, 0
  {
    match p
    case Attempt(d) => LeafRun(d, outcome)
    case Series(ps) => SeriesRun(SeriesTraces(ps, outcome, r), false)
    case Parallel(ps) => ParallelRun(EachTraces(ps, Slowest(ps, r), outcome, r), Slowest(ps, r))
    case Retry(q, arg) =>
      RetryRun(if Normalize(arg).Success? then RoundTraces(q, Normalize(arg).value, 1, outcome, r) else [])
    case Hedge(q, _, max) =>
      if max < 1 then HedgeRun([], AllFailed)
      else HedgeRun(AttemptTraces(q, max, outcome, r), if outcome.Done? then Won(max - 1) else AllFailed)
    case Timeout(_, q) => LimitRun(FullTrace(q, outcome, r), false)
    case Deadline(_, _, q) => LimitRun(FullTrace(q, outcome, r), false)
  }

  function SeriesTraces(ps: seq<Policy>, outcome: Outcome, r: real): seq<Trace>
    decreases ps, 0, 0
  {
    if ps == [] then []
    else [FullTrace(ps[0], if |ps| == 1 then outcome else Done, r)] + SeriesTraces(ps[1..], outcome, r)
  }

  /** Task k ends with `outcome`, the others succeed. */
  function EachTraces(ps: seq<Policy>, k: int, outcome: Outcome, r: real): seq<Trace>
    decreases ps, 0, 0
  {
    if ps == [] then []
    else [FullTrace(ps[0], if k == 0 then outcome else Done, r)] + EachTraces(ps[1..], k - 1, outcome, r)
  }

  function RoundTraces(q: Policy, policy: RetryPolicy, k: nat, outcome: Outcome, r: real): seq<Round>
    requires k >= 1
    decreases q, 1, policy.times - k
  {
    if k >= policy.times then [Round(FullTrace(q, outcome, r), Stop)]
    else [Round(FullTrace(q, Failed, r), Slept(policy.maxDelay, r))] + RoundTraces(q, policy, k + 1, outcome, r)
  }

  function AttemptTraces(q: Policy, n: nat, outcome: Outcome, r: real): seq<Trace>
    decreases q, 1, n
  {
    if n == 0 then []
    else [FullTrace(q, if n == 1 then outcome else Failed, r)] + AttemptTraces(q, n - 1, outcome, r)
  }

  // ---- Trees the full run fits ---------------------------------------------------------------

  predicate NoneEmpty(p: Policy)
    decreases p, 0
  {
    match p
    case Attempt(_) => true
    case Series(ps) => ps != [] && AllNoneEmpty(ps)
    case Parallel(ps) => ps != [] && AllNoneEmpty(ps)
    case Retry(q, _) => NoneEmpty(q)
    case Hedge(q, _, _) => NoneEmpty(q)
    case Timeout(_, q) => NoneEmpty(q)
    case Deadline(_, _, q) => NoneEmpty(q)
  }

  predicate AllNoneEmpty(ps: seq<Policy>)
    decreases ps, 0
  {
    ps == [] || (NoneEmpty(ps[0]) && AllNoneEmpty(ps[1..]))
  }

  /** No limit is shorter than what it limits. */
  predicate Untruncated(p: Policy, depth: nat)
    requires PlanAt(p, depth).Success?
    decreases p, 0
  {
    match p
    case Attempt(_) => true
    case Series(ps) => ps == [] || AllUntruncated(ps, depth + 1)
    case Parallel(ps) => ps == [] || AllUntruncated(ps, depth + 1)
    case Retry(q, _) => Untruncated(q, depth + 1)
    case Hedge(q, _, _) => Untruncated(q, depth + 1)
    case Timeout(ms, q) => Untruncated(q, depth + 1) && PlanAt(q, depth + 1).value.upperBoundMs <= ms
    case Deadline(at, now, q) =>
      Untruncated(q, depth + 1) && PlanAt(q, depth + 1).value.upperBoundMs <= RemainingMs(at, now)
  }

  predicate AllUntruncated(ps: seq<Policy>, depth: nat)
    requires PlanAll(ps, depth).Success?
    decreases ps, 0
  {
    ps == [] || (Untruncated(ps[0], depth) && AllUntruncated(ps[1..], depth))
  }

  /** Every deadline was planned no later than `from` and falls no earlier than `until`. */
  predicate Spans(p: Policy, from: real, until: real)
    decreases p, 0
  {
    match p
    case Attempt(_) => true
    case Series(ps) => AllSpan(ps, from, until)
    case Parallel(ps) => AllSpan(ps, from, until)
    case Retry(q, _) => Spans(q, from, until)
    case Hedge(q, _, _) => Spans(q, from, until)
    case Timeout(_, q) => Spans(q, from, until)
    case Deadline(at, now, q) => now <= from && until <= at && Spans(q, from, until)
  }

  predicate AllSpan(ps: seq<Policy>, from: real, until: real)
    decreases ps, 0
  {
    ps == [] || (Spans(ps[0], from, until) && AllSpan(ps[1..], from, until))
  }

  // ---- Its duration against the plan ----------------------------------------------------------

  /** The share of a planned delay that a jittered one takes at r. */
  function Share(r: real): real {
    0.5 + r * 0.5
  }

  lemma Distribute(f: real, a: real, b: real)
    ensures f * (a + b) == f * a + f * b
  {
  }

  lemma ShareAtMost(f: real, a: real)
    requires 0.0 <= f <= 1.0 && a >= 0.0
    ensures 0.0 <= f * a <= a
  {
    MulNonNegative(f, a);
    MulNonNegative(1.0 - f, a);
    assert (1.0 - f) * a == a - f * a;
  }

  /** The delay slept is the share of the planned one, or all of it without jitter. */
  lemma DelayShare(k: nat, policy: RetryPolicy, r: real)
    requires 1 <= k && 0.0 <= r < 1.0 && EstimateRetryDelay(k, policy).Success?
    ensures ComputeRetryDelay(k, policy, policy.maxDelay, r).Success?
    ensures var planned := EstimateRetryDelay(k, policy).value;
            && planned >= 0.0
            && DelayAt(k, policy, r) == if policy.jitter then Share(r) * planned else planned
  {
    EstimateBoundsRuntime(k, policy, policy.maxDelay, r);
    var planned := EstimateRetryDelay(k, policy).value;
    assert planned * Share(r) == Share(r) * planned;
  }

  /** `d` is at least the share of `planned`, and all of it when exact. */
  predicate Takes(d: real, planned: real, f: real, exact: bool) {
    && 0.0 <= f * planned <= d <= planned
    && (exact ==> d == planned)
  }

  lemma TakesSum(a: real, b: real, x: real, y: real, f: real, exact: bool)
    requires Takes(a, x, f, exact) && Takes(b, y, f, exact)
    ensures Takes(a + b, x + y, f, exact)
  {
    Distribute(f, x, y);
  }

  lemma TakesMax(a: real, b: real, x: real, y: real, f: real, e1: bool, e2: bool)
    requires Takes(a, x, f, e1) && Takes(b, y, f, e2)
    ensures Takes(Max(a, b), Max(x, y), f, e1 && e2)
  {
  }

  lemma TakesLess(a: real, x: real, f: real, e1: bool, e2: bool)
    requires Takes(a, x, f, e1) && (e2 ==> e1)
    ensures Takes(a, x, f, e2)
  {
  }

  /** One round in front: its body, its delay, and the rounds and delays after it. */
  lemma TakesRound(
    body: real, u: real, delay: real, planned: real, rest: real, bodies: real, delays: real, f: real, exact: bool)
    requires Takes(body, u, f, exact) && Takes(delay, planned, f, exact) && Takes(rest, bodies + delays, f, exact)
    ensures Takes(body + delay + rest, (u + bodies) + (planned + delays), f, exact)
  {
    TakesSum(body, delay, u, planned, f, exact);
    TakesSum(body + delay, rest, u + planned, bodies + delays, f, exact);
    assert (u + planned) + (bodies + delays) == (u + bodies) + (planned + delays);
  }

  lemma TakesShare(d: real, planned: real, f: real, exact: bool)
    requires 0.0 <= f <= 1.0 && planned >= 0.0 && d == if exact then planned else f * planned
    ensures Takes(d, planned, f, exact)
  {
    ShareAtMost(f, planned);
  }

  lemma DelayTakes(k: nat, policy: RetryPolicy, r: real)
    requires 1 <= k && 0.0 <= r < 1.0 && EstimateRetryDelay(k, policy).Success?
    ensures Takes(DelayAt(k, policy, r), EstimateRetryDelay(k, policy).value, Share(r), !policy.jitter)
  {
    DelayShare(k, policy, r);
    TakesShare(DelayAt(k, policy, r), EstimateRetryDelay(k, policy).value, Share(r), !policy.jitter);
  }

  lemma TakesAll(a: real, f: real, exact: bool)
    requires 0.0 <= f <= 1.0 && a >= 0.0
    ensures Takes(a, a, f, exact)
  {
    ShareAtMost(f, a);
  }

  /** No retry of the tree draws jitter. */
  predicate NoJitter(p: Policy)
    decreases p, 0
  {
    match p
    case Attempt(_) => true
    case Series(ps) => NoneJitter(ps)
    case Parallel(ps) => NoneJitter(ps)
    case Retry(q, arg) => NoJitter(q) && (Normalize(arg).Success? ==> !Normalize(arg).value.jitter)
    case Hedge(q, _, _) => NoJitter(q)
    case Timeout(_, q) => NoJitter(q)
    case Deadline(_, _, q) => NoJitter(q)
  }

  predicate NoneJitter(ps: seq<Policy>)
    decreases ps, 0
  {
    ps == [] || (NoJitter(ps[0]) && NoneJitter(ps[1..]))
  }

  lemma {:induction false} DurationTakes(p: Policy, depth: nat, r: real)
    requires PlanAt(p, depth).Success? && Untruncated(p, depth) && 0.0 <= r < 1.0
    ensures Takes(Duration(p, r), PlanAt(p, depth).value.upperBoundMs, Share(r), NoJitter(p))
    decreases p, 2, 0
  {
    match p
    case Attempt(d) => TakesAll(d, Share(r), true);
    case Series(ps) => SumTakes(ps, depth + 1, r, p, depth);
    case Parallel(ps) => MaxTakes(ps, depth + 1, r, p, depth);
    case Retry(q, arg) => RetryTakes(q, arg, depth, r);
    case Hedge(q, after, max) => HedgeTakes(q, after, max, depth, r);
    case Timeout(_, q) => DurationTakes(q, depth + 1, r);
    case Deadline(_, _, q) => DurationTakes(q, depth + 1, r);
  }

  lemma {:induction false} SumTakes(ps: seq<Policy>, depth: nat, r: real, p: Policy, d: nat)
    requires p == Series(ps) && depth == d + 1 && PlanAt(p, d).Success? && Untruncated(p, d) && 0.0 <= r < 1.0
    ensures Takes(Duration(p, r), PlanAt(p, d).value.upperBoundMs, Share(r), NoJitter(p))
    decreases ps, 1, 0
  {
    if ps == [] { TakesAll(0.0, Share(r), true); } else { SeriesTakes(ps, depth, r); }
  }

  lemma {:induction false} MaxTakes(ps: seq<Policy>, depth: nat, r: real, p: Policy, d: nat)
    requires p == Parallel(ps) && depth == d + 1 && PlanAt(p, d).Success? && Untruncated(p, d) && 0.0 <= r < 1.0
    ensures Takes(Duration(p, r), PlanAt(p, d).value.upperBoundMs, Share(r), NoJitter(p))
    decreases ps, 1, 0
  {
    if ps == [] { TakesAll(0.0, Share(r), true); } else { ParallelTakes(ps, depth, r); }
  }

  lemma {:induction false} SeriesTakes(ps: seq<Policy>, depth: nat, r: real)
    requires PlanAll(ps, depth).Success? && AllUntruncated(ps, depth) && 0.0 <= r < 1.0
    ensures Takes(SumDuration(ps, r), CombineSeries(PlanAll(ps, depth).value).upperBoundMs, Share(r), NoneJitter(ps))
    decreases ps, 0, 0
  {
    if ps == [] {
      TakesAll(0.0, Share(r), true);
    } else {
      assert PlanAll(ps, depth).value[1..] == PlanAll(ps[1..], depth).value;
      DurationTakes(ps[0], depth, r);
      SeriesTakes(ps[1..], depth, r);
      TakesSum(Duration(ps[0], r), SumDuration(ps[1..], r), PlanAt(ps[0], depth).value.upperBoundMs,
               CombineSeries(PlanAll(ps[1..], depth).value).upperBoundMs, Share(r), NoneJitter(ps));
    }
  }

  lemma {:induction false} ParallelTakes(ps: seq<Policy>, depth: nat, r: real)
    requires PlanAll(ps, depth).Success? && AllUntruncated(ps, depth) && 0.0 <= r < 1.0
    ensures Takes(MaxDuration(ps, r), CombineParallel(PlanAll(ps, depth).value).upperBoundMs, Share(r), NoneJitter(ps))
    decreases ps, 0, 0
  {
    if ps == [] {
      TakesAll(0.0, Share(r), true);
    } else {
      assert PlanAll(ps, depth).value[1..] == PlanAll(ps[1..], depth).value;
      DurationTakes(ps[0], depth, r);
      ParallelTakes(ps[1..], depth, r);
      TakesMax(Duration(ps[0], r), MaxDuration(ps[1..], r), PlanAt(ps[0], depth).value.upperBoundMs,
               CombineParallel(PlanAll(ps[1..], depth).value).upperBoundMs, Share(r),
               NoJitter(ps[0]), NoneJitter(ps[1..]));
    }
  }

  lemma {:induction false} RetryTakes(q: Policy, arg: RetryArg, depth: nat, r: real)
    requires PlanAt(Retry(q, arg), depth).Success? && Untruncated(Retry(q, arg), depth) && 0.0 <= r < 1.0
    ensures var p := Retry(q, arg);
            Takes(Duration(p, r), PlanAt(p, depth).value.upperBoundMs, Share(r), NoJitter(p))
    decreases q, 4, 0
  {
    var policy, u := Normalize(arg).value, PlanAt(q, depth + 1).value.upperBoundMs;
    assert Takes(Duration(q, r), u, Share(r), NoJitter(q)) by { DurationTakes(q, depth + 1, r); }
    RoundsTake(q, u, NoJitter(q), policy, 1, r);
    RetryUpper(q, arg, depth);
  }

  lemma RetryUpper(q: Policy, arg: RetryArg, depth: nat)
    requires PlanAt(Retry(q, arg), depth).Success?
    ensures var policy, u := Normalize(arg).value, PlanAt(q, depth + 1).value.upperBoundMs;
            PlanAt(Retry(q, arg), depth).value.upperBoundMs ==
            Repeat(policy.times, Costs(0, u, 0)).work + DelaysFrom(1, policy).value
  {
    var policy := Normalize(arg).value;
    RetryPlanTime(PlanAt(q, depth + 1).value, policy, DelaysFrom(1, policy).value);
  }

  /** Rounds take what their bodies, u each, and their delays take. */
  lemma {:induction false} RoundsTake(q: Policy, u: real, exact: bool, policy: RetryPolicy, k: nat, r: real)
    requires 1 <= k <= policy.times && 0.0 <= r < 1.0 && DelaysFrom(k, policy).Success?
    requires Takes(Duration(q, r), u, Share(r), exact)
    ensures var bodies := Repeat(policy.times - k + 1, Costs(0, u, 0)).work;
            Takes(RoundsDuration(q, policy, k, r), bodies + DelaysFrom(k, policy).value, Share(r),
                  exact && !policy.jitter)
    decreases policy.times - k
  {
    var e := exact && !policy.jitter;
    TakesLess(Duration(q, r), u, Share(r), exact, e);
    if k < policy.times {
      var planned, rest := EstimateRetryDelay(k, policy).value, Repeat(policy.times - k, Costs(0, u, 0)).work;
      RoundsTake(q, u, exact, policy, k + 1, r);
      DelayTakes(k, policy, r);
      TakesLess(DelayAt(k, policy, r), planned, Share(r), !policy.jitter, e);
      TakesRound(Duration(q, r), u, DelayAt(k, policy, r), planned, RoundsDuration(q, policy, k + 1, r),
                 rest, DelaysFrom(k + 1, policy).value, Share(r), e);
    } else {
      assert Repeat(0, Costs(0, u, 0)).work == 0.0;
    }
  }

  lemma HedgePlanWaits(inner: Plan, after: real, max: nat)
    requires max >= 1 && after >= 0.0
    ensures HedgePlan(inner, after, max).upperBoundMs == HedgeWaits(after, max) + inner.upperBoundMs
    ensures HedgeWaits(after, max) >= 0.0
  {
    MulNonNegative(after, (max - 1) as real);
  }

  lemma TakesAfter(waits: real, d: real, u: real, f: real, exact: bool)
    requires waits >= 0.0 && 0.0 <= f <= 1.0 && Takes(d, u, f, exact)
    ensures Takes(waits + d, waits + u, f, exact)
  {
    TakesAll(waits, f, exact);
    TakesSum(waits, d, waits, u, f, exact);
  }

  lemma {:induction false} HedgeTakes(q: Policy, after: real, max: int, depth: nat, r: real)
    requires PlanAt(Hedge(q, after, max), depth).Success? && Untruncated(Hedge(q, after, max), depth) && 0.0 <= r < 1.0
    ensures var p := Hedge(q, after, max);
            Takes(Duration(p, r), PlanAt(p, depth).value.upperBoundMs, Share(r), NoJitter(p))
    decreases q, 4, 0
  {
    DurationTakes(q, depth + 1, r);
    HedgePlanWaits(PlanAt(q, depth + 1).value, after, max);
    TakesAfter(HedgeWaits(after, max), Duration(q, r), PlanAt(q, depth + 1).value.upperBoundMs, Share(r), NoJitter(q));
  }

  // ---- What it shows ------------------------------------------------------------------------

  /** A run that ends with `outcome` at `end`, drained, and cost exactly c. */
  ghost predicate Exactly(o: Obs, end: real, outcome: Outcome, key: string, c: Costs) {
    && o.settle == end && o.outcome == outcome
    && (o.drain.Some? ==> o.drain.value <= end)
    && o.invocations == c.attempts && o.work == c.work
    && o.charged[key] == c.demand && o.refused[key] == 0
  }

  /** From s on, the full run of p ends before every deadline. */
  predicate Fits(p: Policy, s: real, r: real, from: real, until: real) {
    Spans(p, from, until) && from <= s && s + Duration(p, r) <= until
  }

  ghost predicate RunsFully(p: Policy, depth: nat, s: real, outcome: Outcome, r: real, key: string)
    requires PlanAt(p, depth).Success?
  {
    var o := Observe(p, s, FullTrace(p, outcome, r));
    o.Some? && Exactly(o.value, s + Duration(p, r), outcome, key, PlanCosts(PlanAt(p, depth).value, Demand(p, key)))
  }

  /**
   * The full run of an accepted tree without empty compositions and without a truncating
   * limit is possible from every start that leaves its deadlines room; it ends as asked,
   * makes exactly the planned attempts, works exactly the planned time, and charges every
   * key exactly its demand.
   */
  lemma {:induction false} FullRunExists(
    p: Policy, depth: nat, s: real, outcome: Outcome, r: real, key: string, from: real, until: real)
    requires PlanAt(p, depth).Success? && NoneEmpty(p) && Untruncated(p, depth)
    requires !outcome.Cancelled? && 0.0 <= r < 1.0 && Fits(p, s, r, from, until)
    ensures RunsFully(p, depth, s, outcome, r, key)
    decreases p, 2, 0
  {
    match p
    case Attempt(_) =>
    case Series(ps) => SeriesFull(ps, depth + 1, s, outcome, r, key, from, until);
    case Parallel(ps) => ParallelFull(ps, depth, s, outcome, r, key, from, until);
    case Retry(q, arg) => RetryFull(q, arg, depth, s, outcome, r, key, from, until);
    case Hedge(q, after, max) => HedgeFull(q, after, max, depth, s, outcome, r, key, from, until);
    case Timeout(_, q) =>
      DurationTakes(q, depth + 1, r);
      FullRunExists(q, depth + 1, s, outcome, r, key, from, until);
    case Deadline(_, _, q) =>
      DurationTakes(q, depth + 1, r);
      FullRunExists(q, depth + 1, s, outcome, r, key, from, until);
  }

  lemma {:induction false} DurationsNonNegative(ps: seq<Policy>, depth: nat, r: real)
    requires PlanAll(ps, depth).Success? && AllUntruncated(ps, depth) && 0.0 <= r < 1.0
    ensures 0.0 <= SumDuration(ps, r) && 0.0 <= MaxDuration(ps, r)
    ensures ps != [] ==> 0.0 <= Duration(ps[0], r)
  {
    SeriesTakes(ps, depth, r);
    ParallelTakes(ps, depth, r);
    if ps != [] { DurationTakes(ps[0], depth, r); }
  }

  lemma ThenExactly(a: Obs, b: Obs, at: real, end: real, outcome: Outcome, key: string, c: Costs, d: Costs)
    requires Exactly(a, at, Done, key, c) && Exactly(b, end, outcome, key, d) && at <= end
    ensures Exactly(Then(a, b), end, outcome, key, Plus(c, d))
  {
  }

  ghost predicate SeriesRunsFully(ps: seq<Policy>, depth: nat, s: real, outcome: Outcome, r: real, key: string)
    requires PlanAll(ps, depth).Success?
  {
    var o := ObserveSeries(ps, s, SeriesTraces(ps, outcome, r), false);
    && o.Some?
    && Exactly(o.value, s + SumDuration(ps, r), outcome, key,
               PlanCosts(CombineSeries(PlanAll(ps, depth).value), DemandAll(ps, key)))
  }

  lemma SeriesCostsSplit(ps: seq<Policy>, depth: nat, key: string)
    requires ps != [] && PlanAll(ps, depth).Success?
    ensures PlanCosts(CombineSeries(PlanAll(ps, depth).value), DemandAll(ps, key)) ==
            Plus(PlanCosts(PlanAt(ps[0], depth).value, Demand(ps[0], key)),
                 PlanCosts(CombineSeries(PlanAll(ps[1..], depth).value), DemandAll(ps[1..], key)))
  {
    assert PlanAll(ps, depth).value[1..] == PlanAll(ps[1..], depth).value;
  }

  lemma SeriesObserved(ps: seq<Policy>, s: real, outcome: Outcome, r: real, a: Obs, b: Obs)
    requires |ps| > 1 && Observe(ps[0], s, FullTrace(ps[0], Done, r)) == Some(a) && a.outcome.Done?
    requires ObserveSeries(ps[1..], a.settle, SeriesTraces(ps[1..], outcome, r), false) == Some(b)
    ensures ObserveSeries(ps, s, SeriesTraces(ps, outcome, r), false) == Some(Then(a, b))
  {
    assert SeriesTraces(ps, outcome, r)[1..] == SeriesTraces(ps[1..], outcome, r);
  }

  lemma LastSeriesFull(ps: seq<Policy>, depth: nat, s: real, outcome: Outcome, r: real, key: string)
    requires |ps| == 1 && PlanAll(ps, depth).Success? && RunsFully(ps[0], depth, s, outcome, r, key)
    ensures SeriesRunsFully(ps, depth, s, outcome, r, key)
  {
    assert ps[1..] == [] && SeriesTraces(ps, outcome, r)[1..] == [];
    SeriesCostsSplit(ps, depth, key);
    var a := Observe(ps[0], s, FullTrace(ps[0], outcome, r)).value;
    if outcome.Done? {
      assert ObserveSeries(ps, s, SeriesTraces(ps, outcome, r), false) == Some(Then(a, Idle(a.settle)));
    }
  }

  lemma {:induction false} SeriesFull(
    ps: seq<Policy>, depth: nat, s: real, outcome: Outcome, r: real, key: string, from: real, until: real)
    requires ps != [] && PlanAll(ps, depth).Success? && AllNoneEmpty(ps) && AllUntruncated(ps, depth)
    requires !outcome.Cancelled? && 0.0 <= r < 1.0
    requires AllSpan(ps, from, until) && from <= s && s + SumDuration(ps, r) <= until
    ensures SeriesRunsFully(ps, depth, s, outcome, r, key)
    decreases ps, 0, 0
  {
    var d := Duration(ps[0], r);
    DurationsNonNegative(ps, depth, r);
    DurationsNonNegative(ps[1..], depth, r);
    if |ps| == 1 {
      FullRunExists(ps[0], depth, s, outcome, r, key, from, until);
      LastSeriesFull(ps, depth, s, outcome, r, key);
    } else {
      FullRunExists(ps[0], depth, s, Done, r, key, from, until);
      SeriesFull(ps[1..], depth, s + d, outcome, r, key, from, until);
      NextSeriesFull(ps, depth, s, outcome, r, key);
    }
  }

  lemma NextSeriesFull(ps: seq<Policy>, depth: nat, s: real, outcome: Outcome, r: real, key: string)
    requires |ps| > 1 && PlanAll(ps, depth).Success? && SumDuration(ps[1..], r) >= 0.0
    requires RunsFully(ps[0], depth, s, Done, r, key)
    requires SeriesRunsFully(ps[1..], depth, s + Duration(ps[0], r), outcome, r, key)
    ensures SeriesRunsFully(ps, depth, s, outcome, r, key)
  {
    var at := s + Duration(ps[0], r);
    var a := Observe(ps[0], s, FullTrace(ps[0], Done, r)).value;
    var b := ObserveSeries(ps[1..], at, SeriesTraces(ps[1..], outcome, r), false).value;
    SeriesObserved(ps, s, outcome, r, a, b);
    SeriesCostsSplit(ps, depth, key);
    ThenExactly(a, b, at, s + SumDuration(ps, r), outcome, key,
                PlanCosts(PlanAt(ps[0], depth).value, Demand(ps[0], key)),
                PlanCosts(CombineSeries(PlanAll(ps[1..], depth).value), DemandAll(ps[1..], key)));
  }

  // ---- Parallel ------------------------------------------------------------------------------

  lemma {:induction false} SlowestIs(ps: seq<Policy>, r: real)
    requires ps != [] && forall i | 0 <= i < |ps| :: Duration(ps[i], r) >= 0.0
    ensures Slowest(ps, r) < |ps| && Duration(ps[Slowest(ps, r)], r) == MaxDuration(ps, r)
    ensures forall i | 0 <= i < |ps| :: Duration(ps[i], r) <= MaxDuration(ps, r)
  {
    if |ps| > 1 { SlowestIs(ps[1..], r); } else { assert ps[1..] == []; }
  }

  lemma {:induction false} EachNonNegative(ps: seq<Policy>, depth: nat, r: real)
    requires PlanAll(ps, depth).Success? && AllUntruncated(ps, depth) && 0.0 <= r < 1.0
    ensures forall i | 0 <= i < |ps| :: Duration(ps[i], r) >= 0.0
  {
    if ps != [] {
      DurationTakes(ps[0], depth, r);
      EachNonNegative(ps[1..], depth, r);
      assert forall i | 1 <= i < |ps| :: ps[i] == ps[1..][i - 1];
    }
  }

  /** Task i of a parallel composition ends on its own time; only task k may not succeed. */
  ghost predicate EndsEach(os: seq<Obs>, ps: seq<Policy>, s: real, k: int, outcome: Outcome, r: real) {
    && |os| == |ps|
    && forall i | 0 <= i < |os| ::
         && os[i].settle == s + Duration(ps[i], r)
         && os[i].outcome == (if i == k then outcome else Done)
  }

  ghost predicate CostsEach(os: seq<Obs>, s: real, end: real, key: string, c: Costs) {
    var o := Together(os, s);
    Exactly(o, end, o.outcome, key, c)
  }

  lemma BesideExactly(
    a: Obs, os: seq<Obs>, s: real, at: real, end: real, outcome: Outcome, key: string, c: Costs, d: Costs)
    requires Exactly(a, at, outcome, key, c) && CostsEach(os, s, end, key, d)
    ensures CostsEach([a] + os, s, Max(at, end), key, Plus(c, d))
  {
    assert ([a] + os)[1..] == os;
  }

  ghost predicate EachRunsFully(
    ps: seq<Policy>, depth: nat, s: real, k: int, outcome: Outcome, r: real, key: string)
    requires PlanAll(ps, depth).Success?
  {
    var os := ObserveEach(ps, s, EachTraces(ps, k, outcome, r));
    && os.Some? && EndsEach(os.value, ps, s, k, outcome, r)
    && CostsEach(os.value, s, s + MaxDuration(ps, r), key,
                 PlanCosts(CombineParallel(PlanAll(ps, depth).value), DemandAll(ps, key)))
  }

  lemma ParallelCostsSplit(ps: seq<Policy>, depth: nat, key: string)
    requires ps != [] && PlanAll(ps, depth).Success?
    ensures PlanCosts(CombineParallel(PlanAll(ps, depth).value), DemandAll(ps, key)) ==
            Plus(PlanCosts(PlanAt(ps[0], depth).value, Demand(ps[0], key)),
                 PlanCosts(CombineParallel(PlanAll(ps[1..], depth).value), DemandAll(ps[1..], key)))
  {
    assert PlanAll(ps, depth).value[1..] == PlanAll(ps[1..], depth).value;
  }

  lemma EachObserved(ps: seq<Policy>, s: real, k: int, outcome: Outcome, r: real, a: Obs, os: seq<Obs>)
    requires ps != [] && Observe(ps[0], s, FullTrace(ps[0], if k == 0 then outcome else Done, r)) == Some(a)
    requires ObserveEach(ps[1..], s, EachTraces(ps[1..], k - 1, outcome, r)) == Some(os)
    ensures ObserveEach(ps, s, EachTraces(ps, k, outcome, r)) == Some([a] + os)
  {
    assert EachTraces(ps, k, outcome, r)[1..] == EachTraces(ps[1..], k - 1, outcome, r);
  }

  lemma EndsEachBefore(a: Obs, os: seq<Obs>, ps: seq<Policy>, s: real, k: int, outcome: Outcome, r: real)
    requires ps != [] && EndsEach(os, ps[1..], s, k - 1, outcome, r)
    requires a.settle == s + Duration(ps[0], r) && a.outcome == (if k == 0 then outcome else Done)
    ensures EndsEach([a] + os, ps, s, k, outcome, r)
  {
    var all := [a] + os;
    forall i | 0 <= i < |all|
      ensures all[i].settle == s + Duration(ps[i], r) && all[i].outcome == (if i == k then outcome else Done)
    {
      if i > 0 { assert all[i] == os[i - 1] && ps[i] == ps[1..][i - 1]; }
    }
  }

  lemma NextEachFull(ps: seq<Policy>, depth: nat, s: real, k: int, outcome: Outcome, r: real, key: string)
    requires ps != [] && PlanAll(ps, depth).Success?
    requires RunsFully(ps[0], depth, s, if k == 0 then outcome else Done, r, key)
    requires EachRunsFully(ps[1..], depth, s, k - 1, outcome, r, key)
    ensures EachRunsFully(ps, depth, s, k, outcome, r, key)
  {
    var own := if k == 0 then outcome else Done;
    var a := Observe(ps[0], s, FullTrace(ps[0], own, r)).value;
    var os := ObserveEach(ps[1..], s, EachTraces(ps[1..], k - 1, outcome, r)).value;
    assert ObserveEach(ps, s, EachTraces(ps, k, outcome, r)) == Some([a] + os) by {
      EachObserved(ps, s, k, outcome, r, a, os);
    }
    assert EndsEach([a] + os, ps, s, k, outcome, r) by { EndsEachBefore(a, os, ps, s, k, outcome, r); }
    ParallelCostsSplit(ps, depth, key);
    BesideExactly(a, os, s, s + Duration(ps[0], r), s + MaxDuration(ps[1..], r), own, key,
                  PlanCosts(PlanAt(ps[0], depth).value, Demand(ps[0], key)),
                  PlanCosts(CombineParallel(PlanAll(ps[1..], depth).value), DemandAll(ps[1..], key)));
  }

  lemma {:induction false} EachFull(
    ps: seq<Policy>, depth: nat, s: real, k: int, outcome: Outcome, r: real, key: string, from: real, until: real)
    requires PlanAll(ps, depth).Success? && AllNoneEmpty(ps) && AllUntruncated(ps, depth)
    requires !outcome.Cancelled? && 0.0 <= r < 1.0
    requires AllSpan(ps, from, until) && from <= s && s + MaxDuration(ps, r) <= until
    ensures EachRunsFully(ps, depth, s, k, outcome, r, key)
    decreases ps, 0, 0
  {
    if ps != [] {
      FullRunExists(ps[0], depth, s, if k == 0 then outcome else Done, r, key, from, until);
      EachFull(ps[1..], depth, s, k - 1, outcome, r, key, from, until);
      NextEachFull(ps, depth, s, k, outcome, r, key);
    }
  }

  lemma {:induction false} TogetherSucceeds(os: seq<Obs>, s: real)
    ensures Together(os, s).outcome.Done?
  {
    if os != [] { TogetherSucceeds(os[1..], s); }
  }

  lemma ParallelObserved(ps: seq<Policy>, s: real, trs: seq<Trace>, k: nat, os: seq<Obs>, outcome: Outcome)
    requires ObserveEach(ps, s, trs) == Some(os)
    requires if outcome.Done? then (forall o | o in os :: o.outcome.Done?)
             else FirstRejection(os, k) && os[k].outcome == outcome
    ensures Observe(Parallel(ps), s, ParallelRun(trs, k)) == Some(CloseGroup(Together(os, s).(outcome := outcome)))
  {
    TogetherSucceeds(os, s);
    if !outcome.Done? { assert os[k] in os; }
  }

  lemma ClosedExactly(o: Obs, end: real, outcome: Outcome, key: string, c: Costs)
    requires Exactly(o, end, o.outcome, key, c)
    ensures Exactly(CloseGroup(o.(outcome := outcome)), end, outcome, key, c)
  {
  }

  lemma OnlySlowestFails(ps: seq<Policy>, s: real, r: real, os: seq<Obs>, outcome: Outcome)
    requires ps != [] && (forall i | 0 <= i < |ps| :: Duration(ps[i], r) >= 0.0)
    requires EndsEach(os, ps, s, Slowest(ps, r), outcome, r)
    ensures if outcome.Done? then (forall o | o in os :: o.outcome.Done?)
            else FirstRejection(os, Slowest(ps, r)) && os[Slowest(ps, r)].outcome == outcome
  {
    SlowestIs(ps, r);
    if outcome.Done? {
      forall o | o in os ensures o.outcome.Done? {
        var i :| 0 <= i < |os| && os[i] == o;
      }
    }
  }

  lemma {:induction false} ParallelFull(
    ps: seq<Policy>, depth: nat, s: real, outcome: Outcome, r: real, key: string, from: real, until: real)
    requires PlanAt(Parallel(ps), depth).Success? && NoneEmpty(Parallel(ps)) && Untruncated(Parallel(ps), depth)
    requires !outcome.Cancelled? && 0.0 <= r < 1.0 && Fits(Parallel(ps), s, r, from, until)
    ensures RunsFully(Parallel(ps), depth, s, outcome, r, key)
    decreases ps, 1, 0
  {
    var k := Slowest(ps, r);
    EachNonNegative(ps, depth + 1, r);
    EachFull(ps, depth + 1, s, k, outcome, r, key, from, until);
    var trs := EachTraces(ps, k, outcome, r);
    var os := ObserveEach(ps, s, trs).value;
    OnlySlowestFails(ps, s, r, os, outcome);
    ParallelObserved(ps, s, trs, k, os, outcome);
    ClosedExactly(Together(os, s), s + MaxDuration(ps, r), outcome, key,
                  PlanCosts(CombineParallel(PlanAll(ps, depth + 1).value), DemandAll(ps, key)));
  }

  // ---- Retry ---------------------------------------------------------------------------------

  lemma RoundExactly(
    a: Obs, b: Obs, n: nat, budget: Option<string>, at: real, end: real, outcome: Outcome, key: string, c: Costs)
    requires n >= 1 && Exactly(a, at, Failed, key, c) && at <= end
    requires Exactly(b, end, outcome, key, RoundsBound(n, c, budget == Some(key)))
    ensures Exactly(Then(AfterCharge(a, budget), b), end, outcome, key, RoundsBound(n + 1, c, budget == Some(key)))
  {
  }

  ghost predicate RoundsRunFully(
    q: Policy, depth: nat, policy: RetryPolicy, budget: Option<string>, k: nat, s: real, outcome: Outcome, r: real,
    key: string)
    requires PlanAt(q, depth).Success? && 1 <= k <= policy.times
  {
    var o := ObserveRounds(q, policy, budget, k, s, RoundTraces(q, policy, k, outcome, r));
    var c := PlanCosts(PlanAt(q, depth).value, Demand(q, key));
    && o.Some?
    && Exactly(o.value, s + RoundsDuration(q, policy, k, r), outcome, key,
               RoundsBound(policy.times - k + 1, c, budget == Some(key)))
  }

  lemma LastRoundFull(
    q: Policy, depth: nat, policy: RetryPolicy, budget: Option<string>, s: real, outcome: Outcome, r: real, key: string)
    requires PlanAt(q, depth).Success? && policy.times >= 1 && RunsFully(q, depth, s, outcome, r, key)
    ensures RoundsRunFully(q, depth, policy, budget, policy.times, s, outcome, r, key)
  {
    var c := PlanCosts(PlanAt(q, depth).value, Demand(q, key));
    assert Repeat(1, c) == Plus(c, Repeat(0, c));
  }

  lemma RoundObserved(
    q: Policy, policy: RetryPolicy, budget: Option<string>, k: nat, s: real, outcome: Outcome, r: real, a: Obs, b: Obs)
    requires 1 <= k < policy.times && 0.0 <= r < 1.0
    requires ComputeRetryDelay(k, policy, policy.maxDelay, r).Success?
    requires Observe(q, s, FullTrace(q, Failed, r)) == Some(a) && a.outcome.Failed?
    requires ObserveRounds(q, policy, budget, k + 1, a.settle + DelayAt(k, policy, r),
                           RoundTraces(q, policy, k + 1, outcome, r)) == Some(b)
    ensures ObserveRounds(q, policy, budget, k, s, RoundTraces(q, policy, k, outcome, r))
         == Some(Then(AfterCharge(a, budget), b))
  {
    assert RoundTraces(q, policy, k, outcome, r)[1..] == RoundTraces(q, policy, k + 1, outcome, r);
  }

  lemma RoundCombined(
    q: Policy, policy: RetryPolicy, budget: Option<string>, k: nat, s: real, outcome: Outcome, r: real, key: string,
    a: Obs, b: Obs, c: Costs)
    requires 1 <= k < policy.times && 0.0 <= r < 1.0
    requires ComputeRetryDelay(k, policy, policy.maxDelay, r).Success?
    requires DelayAt(k, policy, r) >= 0.0 && RoundsDuration(q, policy, k + 1, r) >= 0.0
    requires Observe(q, s, FullTrace(q, Failed, r)) == Some(a) && Exactly(a, s + Duration(q, r), Failed, key, c)
    requires var at := s + Duration(q, r) + DelayAt(k, policy, r);
             && ObserveRounds(q, policy, budget, k + 1, at, RoundTraces(q, policy, k + 1, outcome, r)) == Some(b)
             && Exactly(b, at + RoundsDuration(q, policy, k + 1, r), outcome, key,
                        RoundsBound(policy.times - k, c, budget == Some(key)))
    ensures var o := ObserveRounds(q, policy, budget, k, s, RoundTraces(q, policy, k, outcome, r));
            && o == Some(Then(AfterCharge(a, budget), b))
            && Exactly(o.value, s + RoundsDuration(q, policy, k, r), outcome, key,
                       RoundsBound(policy.times - k + 1, c, budget == Some(key)))
  {
    RoundObserved(q, policy, budget, k, s, outcome, r, a, b);
    RoundExactly(a, b, policy.times - k, budget, s + Duration(q, r), s + RoundsDuration(q, policy, k, r),
                 outcome, key, c);
  }

  lemma NextRoundFull(
    q: Policy, depth: nat, policy: RetryPolicy, budget: Option<string>, k: nat, s: real, outcome: Outcome, r: real,
    key: string)
    requires PlanAt(q, depth).Success? && 1 <= k < policy.times && 0.0 <= r < 1.0
    requires ComputeRetryDelay(k, policy, policy.maxDelay, r).Success?
    requires DelayAt(k, policy, r) >= 0.0 && RoundsDuration(q, policy, k + 1, r) >= 0.0
    requires RunsFully(q, depth, s, Failed, r, key)
    requires var at := s + Duration(q, r) + DelayAt(k, policy, r);
             RoundsRunFully(q, depth, policy, budget, k + 1, at, outcome, r, key)
    ensures RoundsRunFully(q, depth, policy, budget, k, s, outcome, r, key)
  {
    var at, c := s + Duration(q, r) + DelayAt(k, policy, r), PlanCosts(PlanAt(q, depth).value, Demand(q, key));
    var a := Observe(q, s, FullTrace(q, Failed, r)).value;
    var b := ObserveRounds(q, policy, budget, k + 1, at, RoundTraces(q, policy, k + 1, outcome, r)).value;
    assert Exactly(a, s + Duration(q, r), Failed, key, c);
    assert Exactly(b, at + RoundsDuration(q, policy, k + 1, r), outcome, key,
                   RoundsBound(policy.times - k, c, budget == Some(key)));
    RoundCombined(q, policy, budget, k, s, outcome, r, key, a, b, c);
  }

  lemma {:induction false} RoundsFull(
    q: Policy, depth: nat, policy: RetryPolicy, budget: Option<string>, k: nat, s: real, outcome: Outcome, r: real,
    key: string, from: real, until: real)
    requires PlanAt(q, depth).Success? && NoneEmpty(q) && Untruncated(q, depth)
    requires 1 <= k <= policy.times && DelaysFrom(k, policy).Success?
    requires !outcome.Cancelled? && 0.0 <= r < 1.0
    requires Spans(q, from, until) && from <= s && s + RoundsDuration(q, policy, k, r) <= until
    ensures RoundsRunFully(q, depth, policy, budget, k, s, outcome, r, key)
    decreases q, 3, policy.times - k
  {
    if k == policy.times {
      FullRunExists(q, depth, s, outcome, r, key, from, until);
      LastRoundFull(q, depth, policy, budget, s, outcome, r, key);
    } else {
      assert 0.0 <= RoundsDuration(q, policy, k + 1, r) && 0.0 <= Duration(q, r) by {
        DurationTakes(q, depth, r);
        RoundsTake(q, PlanAt(q, depth).value.upperBoundMs, NoJitter(q), policy, k + 1, r);
      }
      assert 0.0 <= DelayAt(k, policy, r) by { DelayTakes(k, policy, r); }
      DelayShare(k, policy, r);
      FullRunExists(q, depth, s, Failed, r, key, from, until);
      RoundsFull(q, depth, policy, budget, k + 1, s + Duration(q, r) + DelayAt(k, policy, r), outcome, r,
                 key, from, until);
      NextRoundFull(q, depth, policy, budget, k, s, outcome, r, key);
    }
  }

  lemma {:induction false} RetryFull(
    q: Policy, arg: RetryArg, depth: nat, s: real, outcome: Outcome, r: real, key: string, from: real, until: real)
    requires var p := Retry(q, arg); PlanAt(p, depth).Success? && NoneEmpty(p) && Untruncated(p, depth)
    requires !outcome.Cancelled? && 0.0 <= r < 1.0 && Fits(Retry(q, arg), s, r, from, until)
    ensures RunsFully(Retry(q, arg), depth, s, outcome, r, key)
    decreases q, 4, 0
  {
    var policy := Normalize(arg).value;
    RoundsFull(q, depth + 1, policy, BudgetOf(arg), 1, s, outcome, r, key, from, until);
    RetryPlanCosts(PlanAt(q, depth + 1).value, policy, DelaysFrom(1, policy).value, Demand(q, key));
  }

  // ---- Hedge ---------------------------------------------------------------------------------

  /** Attempt j of the last n ends on its own time; all but the very last fail. */
  ghost predicate EndsStaggered(os: seq<Obs>, s: real, after: real, i: nat, d: real, outcome: Outcome) {
    forall j | 0 <= j < |os| ::
      && os[j].settle == HedgeStart(s, after, i + j) + d
      && os[j].outcome == (if j == |os| - 1 then outcome else Failed)
  }

  ghost predicate StaggeredRunFully(
    q: Policy, depth: nat, after: real, s: real, i: nat, n: nat, outcome: Outcome, r: real, key: string)
    requires PlanAt(q, depth).Success? && n >= 1
  {
    var os := ObserveStaggered(q, after, s, i, AttemptTraces(q, n, outcome, r));
    && os.Some? && |os.value| == n
    && EndsStaggered(os.value, s, after, i, Duration(q, r), outcome)
    && CostsEach(os.value, s, HedgeStart(s, after, i + n - 1) + Duration(q, r), key,
                 Repeat(n, PlanCosts(PlanAt(q, depth).value, Demand(q, key))))
  }

  lemma LastAttemptObserved(q: Policy, after: real, s: real, i: nat, outcome: Outcome, r: real, a: Obs)
    requires Observe(q, HedgeStart(s, after, i), FullTrace(q, outcome, r)) == Some(a)
    ensures ObserveStaggered(q, after, s, i, AttemptTraces(q, 1, outcome, r)) == Some([a])
  {
    var trs := AttemptTraces(q, 1, outcome, r);
    assert AttemptTraces(q, 0, outcome, r) == [];
    assert trs == [FullTrace(q, outcome, r)] + [];
    assert trs[1..] == [] && [a] + [] == [a];
  }

  lemma AloneExactly(a: Obs, s: real, end: real, outcome: Outcome, key: string, c: Costs)
    requires Exactly(a, end, outcome, key, c) && s <= end
    ensures CostsEach([a], s, end, key, Repeat(1, c))
  {
    assert [a][1..] == [];
    assert Repeat(1, c) == Plus(c, Repeat(0, c));
  }

  lemma LastAttemptFull(q: Policy, depth: nat, after: real, s: real, i: nat, outcome: Outcome, r: real, key: string)
    requires PlanAt(q, depth).Success? && RunsFully(q, depth, HedgeStart(s, after, i), outcome, r, key)
    requires s <= HedgeStart(s, after, i) + Duration(q, r)
    ensures StaggeredRunFully(q, depth, after, s, i, 1, outcome, r, key)
  {
    var start, c := HedgeStart(s, after, i), PlanCosts(PlanAt(q, depth).value, Demand(q, key));
    var a := Observe(q, start, FullTrace(q, outcome, r)).value;
    LastAttemptObserved(q, after, s, i, outcome, r, a);
    AloneExactly(a, s, start + Duration(q, r), outcome, key, c);
  }

  lemma AttemptObserved(
    q: Policy, after: real, s: real, i: nat, n: nat, outcome: Outcome, r: real, a: Obs, os: seq<Obs>)
    requires n >= 2 && Observe(q, HedgeStart(s, after, i), FullTrace(q, Failed, r)) == Some(a)
    requires ObserveStaggered(q, after, s, i + 1, AttemptTraces(q, n - 1, outcome, r)) == Some(os)
    ensures ObserveStaggered(q, after, s, i, AttemptTraces(q, n, outcome, r)) == Some([a] + os)
  {
    assert AttemptTraces(q, n, outcome, r)[1..] == AttemptTraces(q, n - 1, outcome, r);
  }

  lemma EndsBefore(a: Obs, os: seq<Obs>, s: real, after: real, i: nat, d: real, outcome: Outcome)
    requires os != [] && EndsStaggered(os, s, after, i + 1, d, outcome)
    requires a.settle == HedgeStart(s, after, i) + d && a.outcome.Failed?
    ensures EndsStaggered([a] + os, s, after, i, d, outcome)
  {
    var all := [a] + os;
    forall j | 0 <= j < |all|
      ensures all[j].settle == HedgeStart(s, after, i + j) + d
      ensures all[j].outcome == (if j == |all| - 1 then outcome else Failed)
    {
      if j > 0 { assert all[j] == os[j - 1] && i + j == (i + 1) + (j - 1); }
    }
  }

  lemma NextAttemptFull(
    q: Policy, depth: nat, after: real, s: real, i: nat, n: nat, outcome: Outcome, r: real, key: string)
    requires PlanAt(q, depth).Success? && n >= 2 && RunsFully(q, depth, HedgeStart(s, after, i), Failed, r, key)
    requires HedgeStart(s, after, i) <= HedgeStart(s, after, i + n - 1)
    requires StaggeredRunFully(q, depth, after, s, i + 1, n - 1, outcome, r, key)
    ensures StaggeredRunFully(q, depth, after, s, i, n, outcome, r, key)
  {
    var start, c := HedgeStart(s, after, i), PlanCosts(PlanAt(q, depth).value, Demand(q, key));
    var a := Observe(q, start, FullTrace(q, Failed, r)).value;
    var os := ObserveStaggered(q, after, s, i + 1, AttemptTraces(q, n - 1, outcome, r)).value;
    assert ObserveStaggered(q, after, s, i, AttemptTraces(q, n, outcome, r)) == Some([a] + os) by {
      AttemptObserved(q, after, s, i, n, outcome, r, a, os);
    }
    assert EndsStaggered([a] + os, s, after, i, Duration(q, r), outcome) by {
      EndsBefore(a, os, s, after, i, Duration(q, r), outcome);
    }
    BesideExactly(a, os, s, start + Duration(q, r), HedgeStart(s, after, i + n - 1) + Duration(q, r), Failed, key, c,
                  Repeat(n - 1, c));
  }

  lemma {:induction false} StaggeredFull(
    q: Policy, depth: nat, after: real, s: real, i: nat, n: nat, outcome: Outcome, r: real, key: string,
    from: real, until: real)
    requires PlanAt(q, depth).Success? && NoneEmpty(q) && Untruncated(q, depth) && after >= 0.0 && n >= 1
    requires !outcome.Cancelled? && 0.0 <= r < 1.0
    requires Spans(q, from, until) && from <= s && HedgeStart(s, after, i + n - 1) + Duration(q, r) <= until
    ensures StaggeredRunFully(q, depth, after, s, i, n, outcome, r, key)
    decreases q, 3, n
  {
    HedgeStartMonotone(s, after, 0, i);
    HedgeStartMonotone(s, after, i, i + n - 1);
    assert 0.0 <= Duration(q, r) by { DurationTakes(q, depth, r); }
    FullRunExists(q, depth, HedgeStart(s, after, i), if n == 1 then outcome else Failed, r, key, from, until);
    if n == 1 {
      LastAttemptFull(q, depth, after, s, i, outcome, r, key);
    } else {
      StaggeredFull(q, depth, after, s, i + 1, n - 1, outcome, r, key, from, until);
      NextAttemptFull(q, depth, after, s, i, n, outcome, r, key);
    }
  }

  lemma LastHedgeWins(os: seq<Obs>, s: real, after: real, max: nat, d: real, outcome: Outcome)
    requires max >= 1 && |os| == max && after >= 0.0 && d >= 0.0 && !outcome.Cancelled?
    requires EndsStaggered(os, s, after, 0, d, outcome)
    requires Together(os, s).settle == HedgeStart(s, after, max - 1) + d
    ensures var end := if outcome.Done? then Won(max - 1) else AllFailed;
            && HedgeTime(os, s, end) == HedgeStart(s, after, max - 1) + d
            && HedgeEnds(os, s, after, max, end, HedgeTime(os, s, end))
  {
    HedgeStartMonotone(s, after, 0, max - 1);
    forall i | 0 <= i < max ensures HedgeStart(s, after, i) <= HedgeStart(s, after, max - 1) + d {
      HedgeStartMonotone(s, after, i, max - 1);
    }
  }

  lemma HedgeSettles(
    q: Policy, after: real, max: nat, s: real, trs: seq<Trace>, end: HedgeEnd, os: seq<Obs>, t: real)
    requires max >= 1 && ObserveStaggered(q, after, s, 0, trs) == Some(os)
    requires HedgeTime(os, s, end) == t && HedgeEnds(os, s, after, max, end, t)
    ensures Observe(Hedge(q, after, max), s, HedgeRun(trs, end))
         == Some(Together(os, s).(settle := t, outcome := HedgeOutcome(end)))
  {
  }

  lemma LastStart(s: real, after: real, max: nat)
    requires max >= 1
    ensures HedgeStart(s, after, max - 1) == s + HedgeWaits(after, max)
  {
  }

  lemma HedgeObserved(
    q: Policy, after: real, max: nat, depth: nat, s: real, outcome: Outcome, r: real, key: string)
    requires var p := Hedge(q, after, max); PlanAt(p, depth).Success?
    requires StaggeredRunFully(q, depth + 1, after, s, 0, max, outcome, r, key)
    requires after >= 0.0 && Duration(q, r) >= 0.0 && !outcome.Cancelled?
    ensures RunsFully(Hedge(q, after, max), depth, s, outcome, r, key)
  {
    var trs, end := AttemptTraces(q, max, outcome, r), if outcome.Done? then Won(max - 1) else AllFailed;
    var os, t := ObserveStaggered(q, after, s, 0, trs).value, HedgeStart(s, after, max - 1) + Duration(q, r);
    var c := Repeat(max, PlanCosts(PlanAt(q, depth + 1).value, Demand(q, key)));
    LastHedgeWins(os, s, after, max, Duration(q, r), outcome);
    HedgeSettles(q, after, max, s, trs, end, os, t);
    HedgedExactly(os, s, t, outcome, key, c);
    HedgePlanCosts(PlanAt(q, depth + 1).value, after, max, Demand(q, key));
    LastStart(s, after, max);
    HedgeRunsFully(q, after, max, depth, s, outcome, r, key, Together(os, s).(settle := t, outcome := outcome), c);
  }

  lemma HedgeRunsFully(
    q: Policy, after: real, max: nat, depth: nat, s: real, outcome: Outcome, r: real, key: string, o: Obs, c: Costs)
    requires var p := Hedge(q, after, max);
             PlanAt(p, depth).Success? && Observe(p, s, FullTrace(p, outcome, r)) == Some(o)
    requires Exactly(o, s + HedgeWaits(after, max) + Duration(q, r), outcome, key, c)
    requires var plan := HedgePlan(PlanAt(q, depth + 1).value, after, max);
             c.attempts == plan.attempts && c.work == plan.parallelWorkMs && c.demand == max * Demand(q, key)
    ensures RunsFully(Hedge(q, after, max), depth, s, outcome, r, key)
  {
  }

  lemma HedgedExactly(os: seq<Obs>, s: real, end: real, outcome: Outcome, key: string, c: Costs)
    requires CostsEach(os, s, end, key, c)
    ensures Exactly(Together(os, s).(settle := end, outcome := outcome), end, outcome, key, c)
  {
  }

  lemma {:induction false} HedgeFull(
    q: Policy, after: real, max: int, depth: nat, s: real, outcome: Outcome, r: real, key: string,
    from: real, until: real)
    requires var p := Hedge(q, after, max); PlanAt(p, depth).Success? && NoneEmpty(p) && Untruncated(p, depth)
    requires !outcome.Cancelled? && 0.0 <= r < 1.0 && Fits(Hedge(q, after, max), s, r, from, until)
    ensures RunsFully(Hedge(q, after, max), depth, s, outcome, r, key)
    decreases q, 4, 0
  {
    assert 0.0 <= Duration(q, r) by { DurationTakes(q, depth + 1, r); }
    StaggeredFull(q, depth + 1, after, s, 0, max, outcome, r, key, from, until);
    HedgeObserved(q, after, max, depth, s, outcome, r, key);
  }

  // ---- Main results --------------------------------------------------------------------------

  /**
   * A run that ends as asked, cost exactly what was planned, and settled at no less than
   * the share f of the bound, and exactly at it if `exact`.
   */
  ghost predicate Meets(
    o: Obs, s: real, plan: Plan, outcome: Outcome, key: string, demand: nat, f: real, exact: bool) {
    && o.outcome == outcome
    && o.invocations == plan.attempts && o.work == plan.parallelWorkMs
    && o.charged[key] == demand && o.refused[key] == 0
    && s + f * plan.upperBoundMs <= o.settle <= s + plan.upperBoundMs
    && (exact ==> o.settle == s + plan.upperBoundMs)
  }

  lemma ExactlyMeets(
    o: Obs, s: real, d: real, plan: Plan, outcome: Outcome, key: string, demand: nat, f: real, exact: bool)
    requires Exactly(o, s + d, outcome, key, PlanCosts(plan, demand)) && Takes(d, plan.upperBoundMs, f, exact)
    ensures Meets(o, s, plan, outcome, key, demand, f, exact)
  {
  }

  /**
   * The planner's numbers are met: in an accepted tree without empty compositions or
   * truncating limits, whose deadlines were planned by s and fall after the bound, some run
   * from s makes exactly `attempts` leaf invocations, works exactly `parallelWorkMs`,
   * charges every key exactly its demand, and settles as close to the bound as jitter lets
   * it, exactly there without jitter. It can be a success or an ordinary failure.
   */
  lemma {:induction false} PlanIsMet(p: Policy, depth: nat, s: real, outcome: Outcome, r: real, key: string)
    requires PlanAt(p, depth).Success? && NoneEmpty(p) && Untruncated(p, depth)
    requires Spans(p, s, s + PlanAt(p, depth).value.upperBoundMs)
    requires !outcome.Cancelled? && 0.0 <= r < 1.0
    ensures var o := Observe(p, s, FullTrace(p, outcome, r));
            && o.Some?
            && Meets(o.value, s, PlanAt(p, depth).value, outcome, key, Demand(p, key), Share(r), NoJitter(p))
  {
    var plan := PlanAt(p, depth).value;
    DurationTakes(p, depth, r);
    FullRunExists(p, depth, s, outcome, r, key, s, s + plan.upperBoundMs);
    ExactlyMeets(Observe(p, s, FullTrace(p, outcome, r)).value, s, Duration(p, r), plan, outcome, key, Demand(p, key),
                 Share(r), NoJitter(p));
  }

  /** No retry of the tree asks a function for its delays. */
  predicate NoDynamic(p: Policy)
    decreases p, 0
  {
    match p
    case Attempt(_) => true
    case Series(ps) => NoneDynamic(ps)
    case Parallel(ps) => NoneDynamic(ps)
    case Retry(q, arg) =>
      && NoDynamic(q)
      && (Normalize(arg).Success? ==> !(Normalize(arg).value.backoff.Dynamic? && Normalize(arg).value.times > 1))
    case Hedge(q, _, _) => NoDynamic(q)
    case Timeout(_, q) => NoDynamic(q)
    case Deadline(_, _, q) => NoDynamic(q)
  }

  predicate NoneDynamic(ps: seq<Policy>)
    decreases ps, 0
  {
    ps == [] || (NoDynamic(ps[0]) && NoneDynamic(ps[1..]))
  }

  /** Nothing in the tree makes the plan inexact, or depends on a function's answers. */
  predicate Plain(p: Policy, depth: nat)
    requires PlanAt(p, depth).Success?
  {
    NoneEmpty(p) && Untruncated(p, depth) && NoJitter(p) && NoDynamic(p)
  }

  /** A plan carries no warning exactly when nothing in the tree makes it inexact. */
  lemma {:induction false} SilentIff(p: Policy, depth: nat)
    requires PlanAt(p, depth).Success?
    ensures PlanAt(p, depth).value.warnings == [] <==> Plain(p, depth)
    decreases p, 0
  {
    match p
    case Attempt(_) =>
    case Series(ps) => if ps != [] { AllSilentIff(ps, depth + 1); }
    case Parallel(ps) => if ps != [] { AllSilentIff(ps, depth + 1); }
    case Retry(q, arg) =>
      SilentIff(q, depth + 1);
      var policy := Normalize(arg).value;
      assert RetryWarnings(policy) == [] <==> !policy.jitter && !(policy.backoff.Dynamic? && policy.times > 1);
    case Hedge(q, _, _) => SilentIff(q, depth + 1);
    case Timeout(_, q) => SilentIff(q, depth + 1);
    case Deadline(_, _, q) => SilentIff(q, depth + 1);
  }

  lemma {:induction false} AllSilentIff(ps: seq<Policy>, depth: nat)
    requires PlanAll(ps, depth).Success?
    ensures var silent := AllNoneEmpty(ps) && AllUntruncated(ps, depth) && NoneJitter(ps) && NoneDynamic(ps);
            && (CombineSeries(PlanAll(ps, depth).value).warnings == [] <==> silent)
            && (CombineParallel(PlanAll(ps, depth).value).warnings == [] <==> silent)
    decreases ps, 0
  {
    if ps != [] {
      assert PlanAll(ps, depth).value[1..] == PlanAll(ps[1..], depth).value;
      SilentIff(ps[0], depth);
      AllSilentIff(ps[1..], depth);
    }
  }

  /** So a plan without warnings is exact: a run settles at its bound, to the millisecond. */
  lemma {:induction false} SilentPlanIsExact(p: Policy, depth: nat, s: real, outcome: Outcome)
    requires PlanAt(p, depth).Success? && PlanAt(p, depth).value.warnings == [] && !outcome.Cancelled?
    requires Spans(p, s, s + PlanAt(p, depth).value.upperBoundMs)
    ensures var o := Observe(p, s, FullTrace(p, outcome, 0.0));
            o.Some? && o.value.outcome == outcome && o.value.settle == s + PlanAt(p, depth).value.upperBoundMs
  {
    SilentIff(p, depth);
    PlanIsMet(p, depth, s, outcome, 0.0, "");
  }

  /** Every deadline leaves what it limits its planned time. */
  predicate DeadlinesFit(p: Policy, depth: nat)
    requires PlanAt(p, depth).Success?
    decreases p, 0
  {
    match p
    case Attempt(_) => true
    case Series(ps) => ps == [] || AllDeadlinesFit(ps, depth + 1)
    case Parallel(ps) => ps == [] || AllDeadlinesFit(ps, depth + 1)
    case Retry(q, _) => DeadlinesFit(q, depth + 1)
    case Hedge(q, _, _) => DeadlinesFit(q, depth + 1)
    case Timeout(_, q) => DeadlinesFit(q, depth + 1)
    case Deadline(at, now, q) =>
      DeadlinesFit(q, depth + 1) && PlanAt(q, depth + 1).value.upperBoundMs <= RemainingMs(at, now)
  }

  predicate AllDeadlinesFit(ps: seq<Policy>, depth: nat)
    requires PlanAll(ps, depth).Success?
    decreases ps, 0
  {
    ps == [] || (DeadlinesFit(ps[0], depth) && AllDeadlinesFit(ps[1..], depth))
  }

  /** A plan is valid exactly when every deadline anywhere in the tree leaves enough time. */
  lemma {:induction false} ValidIff(p: Policy, depth: nat)
    requires PlanAt(p, depth).Success?
    ensures PlanAt(p, depth).value.valid <==> DeadlinesFit(p, depth)
    decreases p, 0
  {
    match p
    case Attempt(_) =>
    case Series(ps) => if ps != [] { AllValidIff(ps, depth + 1); }
    case Parallel(ps) => if ps != [] { AllValidIff(ps, depth + 1); }
    case Retry(q, _) => ValidIff(q, depth + 1);
    case Hedge(q, _, _) => ValidIff(q, depth + 1);
    case Timeout(_, q) => ValidIff(q, depth + 1);
    case Deadline(_, _, q) => ValidIff(q, depth + 1);
  }

  lemma {:induction false} AllValidIff(ps: seq<Policy>, depth: nat)
    requires PlanAll(ps, depth).Success?
    ensures CombineSeries(PlanAll(ps, depth).value).valid <==> AllDeadlinesFit(ps, depth)
    ensures CombineParallel(PlanAll(ps, depth).value).valid <==> AllDeadlinesFit(ps, depth)
    decreases ps, 0
  {
    if ps != [] {
      assert PlanAll(ps, depth).value[1..] == PlanAll(ps[1..], depth).value;
      ValidIff(ps[0], depth);
      AllValidIff(ps[1..], depth);
    }
  }
}
