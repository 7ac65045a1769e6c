/**
 * Retry policy normalisation and delay arithmetic (packages/core/src/engine/retry.ts).
 *
 * Durations are non-negative reals in milliseconds. The result of a caller's backoff
 * function and the random draw behind jitter are parameters.
 */
module RetryPolicies {
  import opened Powers
  import opened Wrappers

  const MAX_RETRY_ATTEMPTS := 1000
  const MAX_TIMEOUT_MS := 2147483647.0

  datatype PolicyError = InvalidDuration | InvalidTimes | InvalidHedgeMax | DepthExceeded | InvalidSnapshot

  datatype Backoff = Fixed | Linear | Exponential | Dynamic

  datatype RetryOpts = RetryOpts(
    times: int, backoff: Option<Backoff>, initialDelay: Option<real>, maxDelay: Option<real>,
    jitter: Option<bool>, customRetryIf: bool, retryBudget: Option<string>)

  /** `run.retry` takes a bare attempt count or a full options record. */
  datatype RetryArg = Count(times: int) | Opts(opts: RetryOpts)

  datatype RetryPolicy = RetryPolicy(
    times: nat, backoff: Backoff, initialDelay: real, maxDelay: real, jitter: bool, customRetryIf: bool)

  function ParseDuration(d: real): Result<real, PolicyError> {
    if d < 0.0 || d > MAX_TIMEOUT_MS then Failure(InvalidDuration) else Success(d)
  }

  function OrElse<T>(o: Option<T>, fallback: T): T {
    if o.Some? then o.value else fallback
  }

  function Normalize(arg: RetryArg): Result<RetryPolicy, PolicyError> {
    var raw := if arg.Opts? then arg.opts else RetryOpts(arg.times, None, None, None, None, false, None);
    if raw.times < 1 || raw.times > MAX_RETRY_ATTEMPTS then Failure(InvalidTimes)
    else Success(RetryPolicy(
        raw.times,
        OrElse(raw.backoff, Exponential),
        OrElse(raw.initialDelay, 100.0),
        OrElse(raw.maxDelay, 30000.0),
        OrElse(raw.jitter, true),
        raw.customRetryIf))
  }

  /** The budget charged before each additional attempt, if any. */
  function BudgetOf(arg: RetryArg): Option<string> {
    if arg.Opts? then arg.opts.retryBudget else None
  }

  function Min(a: real, b: real): real {
    if a <= b then a else b
  }

  function Max(a: real, b: real): real {
    if a >= b then a else b
  }

  /** The delay before clamping, for the built-in backoffs. */
  function RawDelay(attempt: nat, backoff: Backoff, initialMs: real): real
    requires attempt >= 1
  {
    match backoff
    case Linear => initialMs * attempt as real
    case Exponential => initialMs * Pow2(attempt - 1) as real
    case _ => initialMs
  }

  /** The delay `run.retry` sleeps after failed attempt `attempt`. */
  function ComputeRetryDelay(attempt: nat, policy: RetryPolicy, dynamic: real, random: real)
    : Result<real, PolicyError>
    requires attempt >= 1
  {
    var initialMs :- ParseDuration(policy.initialDelay);
    var maxMs :- ParseDuration(policy.maxDelay);
    var raw :- if policy.backoff.Dynamic? then ParseDuration(dynamic)
               else Success(RawDelay(attempt, policy.backoff, initialMs));
    var delay := Min(raw, maxMs);
    Success(if policy.jitter then Jittered(delay, random) else delay)
  }

  /** Half of the delay, and up to another half at random. */
  function Jittered(delay: real, random: real): real {
    delay * (0.5 + random * 0.5)
  }

  /** The delay the planner books for the same wait. */
  function EstimateRetryDelay(attempt: nat, policy: RetryPolicy): Result<real, PolicyError>
    requires attempt >= 1
  {
    var initialMs :- ParseDuration(policy.initialDelay);
    var maxMs :- ParseDuration(policy.maxDelay);
    if policy.backoff.Dynamic? then Success(maxMs)
    else Success(Min(RawDelay(attempt, policy.backoff, initialMs), maxMs))
  }

  lemma RawDelayNonNegative(attempt: nat, backoff: Backoff, initialMs: real)
    requires attempt >= 1 && initialMs >= 0.0
    ensures RawDelay(attempt, backoff, initialMs) >= 0.0
  {
    MulNonNegative(initialMs, Pow2(attempt - 1) as real);
    MulNonNegative(initialMs, attempt as real);
  }

  lemma JitteredWithin(delay: real, random: real)
    requires delay >= 0.0 && 0.0 <= random < 1.0
    ensures 0.0 <= Jittered(delay, random) <= delay
  {
    var f := 0.5 + random * 0.5;
    MulNonNegative(delay, f);
    MulNonNegative(delay, 1.0 - f);
    assert delay * (1.0 - f) == delay - delay * f;
  }

  lemma MulNonNegative(x: real, y: real)
    requires x >= 0.0 && y >= 0.0
    ensures x * y >= 0.0
  {
  }

  /**
   * Whatever the backoff function returns and jitter draws, the runtime sleeps no longer
   * than the planner booked; and once the planner accepts the policy the runtime can only
   * reject a bad backoff result.
   */
  lemma EstimateBoundsRuntime(attempt: nat, policy: RetryPolicy, dynamic: real, random: real)
    requires attempt >= 1 && 0.0 <= random < 1.0
    requires EstimateRetryDelay(attempt, policy).Success?
    ensures var d := ComputeRetryDelay(attempt, policy, dynamic, random);
            && (d.Failure? <==> policy.backoff.Dynamic? && ParseDuration(dynamic).Failure?)
            && (d.Success? ==> 0.0 <= d.value <= EstimateRetryDelay(attempt, policy).value)
            && (d.Success? && !policy.jitter && !policy.backoff.Dynamic?
                ==> d.value == EstimateRetryDelay(attempt, policy).value)
  {
    RawDelayNonNegative(attempt, policy.backoff, policy.initialDelay);
    var raw := if policy.backoff.Dynamic? then dynamic else RawDelay(attempt, policy.backoff, policy.initialDelay);
    if raw >= 0.0 { JitteredWithin(Min(raw, policy.maxDelay), random); }
  }

  /** The planned delay after attempt k, once the planner accepts the policy. */
  function PlannedDelay(k: nat, policy: RetryPolicy): real
    requires k >= 1
  {
    var d := EstimateRetryDelay(k, policy);
    if d.Success? then d.value else 0.0
  }

  lemma LinearGrows(k: nat, x: real)
    requires k >= 1 && x >= 0.0
    ensures RawDelay(1, Linear, x) == x && RawDelay(k + 1, Linear, x) == RawDelay(k, Linear, x) + x
    ensures RawDelay(k, Linear, x) >= 0.0
  {
    RawDelayNonNegative(k, Linear, x);
    assert x * (k + 1) as real == x * k as real + x;
  }

  lemma ExponentialGrows(k: nat, x: real)
    requires k >= 1 && x >= 0.0
    ensures RawDelay(1, Exponential, x) == x && RawDelay(k + 1, Exponential, x) == 2.0 * RawDelay(k, Exponential, x)
    ensures RawDelay(k, Exponential, x) >= 0.0
  {
    RawDelayNonNegative(k, Exponential, x);
    var n := Pow2(k - 1);
    assert Pow2(k) == 2 * n && Pow2(0) == 1;
    assert x * (2 * n) as real == 2.0 * (x * n as real);
  }

  lemma ClampedGrows(a: real, b: real, max: real)
    requires a >= 0.0 && b >= 0.0 && max >= 0.0
    ensures Min(a + b, max) == Min(Min(a, max) + b, max)
    ensures Min(2.0 * a, max) == Min(2.0 * Min(a, max), max)
  {
  }

  /**
   * The delays, each from the one before: the first is the initial delay, and then it
   * stays, grows by it, or doubles, never beyond the maximum. A function's delay is planned
   * as the maximum.
   */
  lemma DelaysGrow(k: nat, policy: RetryPolicy)
    requires k >= 1 && 0.0 <= policy.initialDelay <= MAX_TIMEOUT_MS && 0.0 <= policy.maxDelay <= MAX_TIMEOUT_MS
    ensures PlannedDelay(1, policy) ==
            if policy.backoff.Dynamic? then policy.maxDelay else Min(policy.initialDelay, policy.maxDelay)
    ensures PlannedDelay(k + 1, policy) ==
            match policy.backoff
            case Fixed => PlannedDelay(k, policy)
            case Linear => Min(PlannedDelay(k, policy) + policy.initialDelay, policy.maxDelay)
            case Exponential => Min(2.0 * PlannedDelay(k, policy), policy.maxDelay)
            case Dynamic => policy.maxDelay
  {
    match policy.backoff
    case Fixed =>
    case Linear =>
      LinearGrows(k, policy.initialDelay);
      ClampedGrows(RawDelay(k, Linear, policy.initialDelay), policy.initialDelay, policy.maxDelay);
    case Exponential =>
      ExponentialGrows(k, policy.initialDelay);
      ClampedGrows(RawDelay(k, Exponential, policy.initialDelay), 0.0, policy.maxDelay);
    case Dynamic =>
  }

  /**
   * At run time a built-in backoff sleeps the planned delay, or with jitter a share of it
   * drawn evenly from a half up to, not including, the whole; a function's answer is
   * clamped to the maximum first.
   */
  lemma JitterExactly(k: nat, policy: RetryPolicy, dynamic: real, random: real)
    requires k >= 1 && 0.0 <= random < 1.0 && ComputeRetryDelay(k, policy, dynamic, random).Success?
    ensures var d := ComputeRetryDelay(k, policy, dynamic, random).value;
            var whole := if policy.backoff.Dynamic? then Min(dynamic, policy.maxDelay) else PlannedDelay(k, policy);
            && (!policy.jitter ==> d == whole)
            && (policy.jitter ==> d == whole / 2.0 + random * (whole / 2.0))
  {
    var whole := if policy.backoff.Dynamic? then Min(dynamic, policy.maxDelay) else PlannedDelay(k, policy);
    assert Jittered(whole, random) == whole / 2.0 + random * (whole / 2.0);
  }

  /** A bare count is that many attempts with the defaults; one to a thousand attempts are accepted. */
  lemma DefaultPolicy(times: int)
    ensures Normalize(Count(times)) ==
            if 1 <= times <= MAX_RETRY_ATTEMPTS
            then Success(RetryPolicy(times, Exponential, 100.0, 30000.0, true, false)) else Failure(InvalidTimes)
  {
  }
}
