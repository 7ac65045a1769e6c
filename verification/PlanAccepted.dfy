/**
 * Which trees the planner accepts: those with valid numbers, nested no deeper than its limit.
 */
module PlanAccepted {
  import opened Wrappers
  import opened RetryPolicies
  import opened TimePolicy

  predicate ValidMs(d: real) {
    0.0 <= d <= 2147483647.0
  }

  /** One to a thousand attempts, and valid delays if there is a second attempt. */
  predicate ValidRetry(arg: RetryArg) {
    var times := if arg.Count? then arg.times else arg.opts.times;
    && 1 <= times <= 1000
    && (times > 1 && arg.Opts? ==>
          && (arg.opts.initialDelay.Some? ==> ValidMs(arg.opts.initialDelay.value))
          && (arg.opts.maxDelay.Some? ==> ValidMs(arg.opts.maxDelay.value)))
  }

  predicate ValidTree(p: Policy)
    decreases p, 0
  {
    match p
    case Attempt(d) => ValidMs(d)
    case Series(ps) => ValidTrees(ps)
    case Parallel(ps) => ValidTrees(ps)
    case Retry(q, arg) => ValidTree(q) && ValidRetry(arg)
    case Hedge(q, after, max) => ValidTree(q) && ValidMs(after) && max >= 1
    case Timeout(ms, q) => ValidTree(q) && ValidMs(ms)
    case Deadline(_, _, q) => ValidTree(q)
  }

  predicate ValidTrees(ps: seq<Policy>)
    decreases ps, 0
  {
    ps == [] || (ValidTree(ps[0]) && ValidTrees(ps[1..]))
  }

  /** How many levels lie below the root. */
  function Height(p: Policy): nat
    decreases p, 0
  {
    match p
    case Attempt(_) => 0
    case Series(ps) => HeightBelow(ps)
    case Parallel(ps) => HeightBelow(ps)
    case Retry(q, _) => 1 + Height(q)
    case Hedge(q, _, _) => 1 + Height(q)
    case Timeout(_, q) => 1 + Height(q)
    case Deadline(_, _, q) => 1 + Height(q)
  }

  /** The height of a composition of these tasks. */
  function HeightBelow(ps: seq<Policy>): nat
    decreases ps, 0
  {
    if ps == [] then 0
    else
      var a, b := 1 + Height(ps[0]), HeightBelow(ps[1..]);
      if a >= b then a else b
  }

  lemma {:induction false} DelaysAccepted(k: nat, policy: RetryPolicy)
    requires k >= 1
    ensures DelaysFrom(k, policy).Success? <==>
            k >= policy.times || (ValidMs(policy.initialDelay) && ValidMs(policy.maxDelay))
    decreases policy.times - k
  {
    if k < policy.times { DelaysAccepted(k + 1, policy); }
  }

  lemma RetryAccepted(arg: RetryArg)
    ensures ValidRetry(arg) <==> Normalize(arg).Success? && DelaysFrom(1, Normalize(arg).value).Success?
  {
    if Normalize(arg).Success? { DelaysAccepted(1, Normalize(arg).value); }
  }

  /** A tree is accepted exactly when all its numbers are valid and it is at most 64 levels deep. */
  lemma {:induction false} AcceptedIff(p: Policy, depth: nat)
    ensures PlanAt(p, depth).Success? <==> ValidTree(p) && depth + Height(p) <= 64
    decreases p, 0
  {
    match p
    case Attempt(_) =>
    case Series(ps) => AllAcceptedIff(ps, depth + 1);
    case Parallel(ps) => AllAcceptedIff(ps, depth + 1);
    case Retry(q, arg) =>
      AcceptedIff(q, depth + 1);
      RetryAccepted(arg);
    case Hedge(q, _, _) => AcceptedIff(q, depth + 1);
    case Timeout(_, q) => AcceptedIff(q, depth + 1);
    case Deadline(_, _, q) => AcceptedIff(q, depth + 1);
  }

  lemma {:induction false} AllAcceptedIff(ps: seq<Policy>, depth: nat)
    requires depth >= 1
    ensures PlanAll(ps, depth).Success? <==> ValidTrees(ps) && (ps == [] || depth - 1 + HeightBelow(ps) <= 64)
    decreases ps, 0
  {
    if ps != [] {
      AcceptedIff(ps[0], depth);
      AllAcceptedIff(ps[1..], depth);
    }
  }
}
