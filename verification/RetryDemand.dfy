/**
 * Aggregate retry demand and its admission against budget snapshots
 * (packages/core/src/time-policy/index.ts, lines 285-387).
 */
module RetryDemand {
  import opened Wrappers
  import opened RetryPolicies
  import opened TimePolicy
  import opened PlanSoundness

  const MAX_SAFE_INTEGER: nat := 9007199254740991

  function Cap(n: nat): nat {
    if n <= MAX_SAFE_INTEGER then n else MAX_SAFE_INTEGER
  }

  function BoundedProduct(left: nat, right: nat): nat {
    Cap(left * right)
  }

  // ---- The accumulator-updating walk ---------------------------------------------------

  function AppendKey(order: seq<string>, key: string): seq<string> {
    if key in order then order else order + [key]
  }

  /** The keys of a tree in the order the walk first meets them. */
  function KeyOrder(p: Policy, seen: seq<string>): seq<string>
    decreases p, 0
  {
    match p
    case Attempt(_) => seen
    case Series(ps) => KeyOrders(ps, seen)
    case Parallel(ps) => KeyOrders(ps, seen)
    case Retry(q, arg) => KeyOrder(q, if BudgetOf(arg).Some? then AppendKey(seen, BudgetOf(arg).value) else seen)
    case Hedge(q, _, _) => KeyOrder(q, seen)
    case Timeout(_, q) => KeyOrder(q, seen)
    case Deadline(_, _, q) => KeyOrder(q, seen)
  }

  function KeyOrders(ps: seq<Policy>, seen: seq<string>): seq<string>
    decreases ps, 0
  {
    if ps == [] then seen else KeyOrders(ps[1..], KeyOrder(ps[0], seen))
  }

  /** The insertion-ordered Map the walk fills. */
  class DemandMap {
    var amounts: map<string, nat>
    var order: seq<string>

    constructor ()
      ensures Valid() && amounts == map[] && order == []
    {
      amounts, order := map[], [];
    }

    ghost predicate Valid()
      reads this
    {
      && (forall k :: k in order <==> k in amounts)
      && (forall i, j | 0 <= i < j < |order| :: order[i] != order[j])
      && forall k | k in amounts :: amounts[k] <= MAX_SAFE_INTEGER
    }

    method Add(key: string, amount: nat)
      requires Valid()
      modifies this
      ensures Valid()
      ensures amounts == old(amounts)[key := Cap(Amount(old(amounts), key) + amount)]
      ensures order == AppendKey(old(order), key)
    {
      if key !in amounts { order := order + [key]; }
      amounts := amounts[key := Cap(Amount(amounts, key) + amount)];
    }
  }

  /** The planner validates counts before the walk starts. */
  predicate CountsValid(p: Policy)
    decreases p
  {
    match p
    case Attempt(_) => true
    case Series(ps) => forall q | q in ps :: CountsValid(q)
    case Parallel(ps) => forall q | q in ps :: CountsValid(q)
    case Retry(q, arg) => Normalize(arg).Success? && CountsValid(q)
    case Hedge(q, _, max) => max >= 1 && CountsValid(q)
    case Timeout(_, q) => CountsValid(q)
    case Deadline(_, _, q) => CountsValid(q)
  }

  lemma {:induction false} PlannedCountsValid(p: Policy, depth: nat)
    requires PlanAt(p, depth).Success?
    ensures CountsValid(p)
    decreases p, 0
  {
    match p
    case Attempt(_) =>
    case Series(ps) => if ps != [] { AllPlannedCountsValid(ps, depth + 1); }
    case Parallel(ps) => if ps != [] { AllPlannedCountsValid(ps, depth + 1); }
    case Retry(q, _) => PlannedCountsValid(q, depth + 1);
    case Hedge(q, _, _) => PlannedCountsValid(q, depth + 1);
    case Timeout(_, q) => PlannedCountsValid(q, depth + 1);
    case Deadline(_, _, q) => PlannedCountsValid(q, depth + 1);
  }

  lemma {:induction false} AllPlannedCountsValid(ps: seq<Policy>, depth: nat)
    requires PlanAll(ps, depth).Success?
    ensures forall q | q in ps :: CountsValid(q)
    decreases ps, 0
  {
    if ps != [] {
      PlannedCountsValid(ps[0], depth);
      AllPlannedCountsValid(ps[1..], depth);
      assert forall q | q in ps :: q == ps[0] || q in ps[1..];
    }
  }

  function Amount(amounts: map<string, nat>, key: string): nat {
    if key in amounts then amounts[key] else 0
  }

  /** m * d, by addition. */
  function Scale(m: nat, d: nat): nat {
    if d == 0 then 0 else m + Scale(m, d - 1)
  }

  /** Every amount grew by m times the structural demand of `p`, up to the cap. */
  ghost predicate Collected(before: map<string, nat>, after: map<string, nat>, m: nat, p: Policy) {
    forall k: string :: Amount(after, k) == Cap(Amount(before, k) + Scale(m, Demand(p, k)))
  }

  ghost predicate CollectedAll(before: map<string, nat>, after: map<string, nat>, m: nat, ps: seq<Policy>) {
    forall k: string :: Amount(after, k) == Cap(Amount(before, k) + Scale(m, DemandAll(ps, k)))
  }

  /**
   * The walk passes a capped multiplier down and adds capped products to capped sums;
   * each amount still ends at the cap of the plain structural demand. `m` is the
   * multiplier without the cap.
   */
  method CollectRetryBudgetDemand(p: Policy, multiplier: nat, ghost m: nat, demand: DemandMap)
    requires demand.Valid() && CountsValid(p) && m >= 1 && multiplier == Cap(m)
    modifies demand
    ensures demand.Valid()
    ensures Collected(old(demand.amounts), demand.amounts, m, p)
    ensures demand.order == KeyOrder(p, old(demand.order))
    decreases p
  {
    match p {
      case Attempt(_) =>
      case Series(ps) => CollectAll(ps, multiplier, m, demand);
      case Parallel(ps) => CollectAll(ps, multiplier, m, demand);
      case Retry(q, arg) =>
        var times := Normalize(arg).value.times;
        if BudgetOf(arg).Some? {
          demand.Add(BudgetOf(arg).value, BoundedProduct(times - 1, multiplier));
        }
        ghost var mid := demand.amounts;
        CapTimes(times, m);
        CollectRetryBudgetDemand(q, BoundedProduct(multiplier, times), times * m, demand);
        CollectedRetry(old(demand.amounts), mid, demand.amounts, m, q, arg);
      case Hedge(q, _, max) =>
        CapTimes(max, m);
        CollectRetryBudgetDemand(q, BoundedProduct(multiplier, max), max * m, demand);
        CollectedHedge(old(demand.amounts), demand.amounts, m, p);
      case Timeout(_, q) => CollectRetryBudgetDemand(q, multiplier, m, demand);
      case Deadline(_, _, q) => CollectRetryBudgetDemand(q, multiplier, m, demand);
    }
  }

  method CollectAll(ps: seq<Policy>, multiplier: nat, ghost m: nat, demand: DemandMap)
    requires demand.Valid() && (forall q | q in ps :: CountsValid(q)) && m >= 1 && multiplier == Cap(m)
    modifies demand
    ensures demand.Valid()
    ensures CollectedAll(old(demand.amounts), demand.amounts, m, ps)
    ensures demand.order == KeyOrders(ps, old(demand.order))
    decreases ps
  {
    var i := 0;
    while i < |ps|
      invariant 0 <= i <= |ps|
      invariant demand.Valid()
      invariant CollectedAll(old(demand.amounts), demand.amounts, m, ps[..i])
      invariant KeyOrders(ps[i..], demand.order) == KeyOrders(ps, old(demand.order))
    {
      ghost var mid := demand.amounts;
      CollectRetryBudgetDemand(ps[i], multiplier, m, demand);
      assert ps[i..][1..] == ps[i + 1..];
      CollectedNext(old(demand.amounts), mid, demand.amounts, m, ps, i);
      i := i + 1;
    }
    assert ps[..i] == ps;
  }

  lemma CapTimes(n: nat, m: nat)
    requires m >= 1
    ensures BoundedProduct(n, Cap(m)) == BoundedProduct(Cap(m), n) == Cap(n * m)
    ensures n >= 1 ==> n * m >= 1
  {
    if n > 0 {
      assert n * m == (n - 1) * m + m;
      assert n * Cap(m) == (n - 1) * Cap(m) + Cap(m);
    }
  }

  lemma {:induction false} ScaleIsProduct(m: nat, d: nat)
    ensures Scale(m, d) == m * d
  {
    if d > 0 { ScaleIsProduct(m, d - 1); }
  }

  lemma {:induction false} ScaleSum(m: nat, a: nat, b: nat)
    ensures Scale(m, a + b) == Scale(m, a) + Scale(m, b)
  {
    if b > 0 { ScaleSum(m, a, b - 1); }
  }

  /** Multiplying the multiplier is multiplying the demand. */
  lemma {:induction false} ScaleTwice(m: nat, n: nat, d: nat)
    ensures Scale(n * m, d) == Scale(m, n * d)
  {
    if d > 0 {
      assert n * d == n * (d - 1) + n;
      ScaleTwice(m, n, d - 1);
      ScaleSum(m, n * (d - 1), n);
      ScaleIsProduct(m, n);
      assert m * n == n * m;
    }
  }

  /** Capping the product and then the sum loses nothing against capping once. */
  lemma CapOnce(a: nat, m: nat, own: nat, inner: nat)
    requires m >= 1
    ensures Cap(Cap(a + BoundedProduct(own, Cap(m))) + Scale(m, inner)) == Cap(a + Scale(m, own + inner))
  {
    CapTimes(own, m);
    ScaleIsProduct(m, own);
    ScaleSum(m, own, inner);
    assert own * m == m * own;
  }

  /** One key's amount through a retry: its own charges, then those of each attempt. */
  lemma RetryAmount(before: nat, mid: nat, after: nat, m: nat, own: nat, times: nat, d: nat)
    requires m >= 1
    requires mid == Cap(before + BoundedProduct(own, Cap(m))) && after == Cap(mid + Scale(times * m, d))
    ensures after == Cap(before + Scale(m, own + times * d))
  {
    ScaleTwice(m, times, d);
    CapOnce(before, m, own, times * d);
  }

  lemma CollectedRetry(
    before: map<string, nat>, mid: map<string, nat>, after: map<string, nat>, m: nat, q: Policy, arg: RetryArg)
    requires m >= 1 && Normalize(arg).Success?
    requires var times := Normalize(arg).value.times;
             && mid == (if BudgetOf(arg).Some?
                        then before[BudgetOf(arg).value :=
                          Cap(Amount(before, BudgetOf(arg).value) + BoundedProduct(times - 1, Cap(m)))]
                        else before)
             && Collected(mid, after, times * m, q)
    requires forall k | k in before :: before[k] <= MAX_SAFE_INTEGER
    ensures Collected(before, after, m, Retry(q, arg))
  {
    var times := Normalize(arg).value.times;
    forall k: string
      ensures Amount(after, k) == Cap(Amount(before, k) + Scale(m, Demand(Retry(q, arg), k)))
    {
      var own := if BudgetOf(arg) == Some(k) then times - 1 else 0;
      assert BoundedProduct(0, Cap(m)) == 0;
      assert Amount(mid, k) == Cap(Amount(before, k) + BoundedProduct(own, Cap(m)));
      RetryAmount(Amount(before, k), Amount(mid, k), Amount(after, k), m, own, times, Demand(q, k));
    }
  }

  lemma CollectedHedge(before: map<string, nat>, after: map<string, nat>, m: nat, p: Policy)
    requires p.Hedge? && p.max >= 1 && Collected(before, after, p.max * m, p.attempt)
    ensures Collected(before, after, m, p)
  {
    forall k: string
      ensures Amount(after, k) == Cap(Amount(before, k) + Scale(m, Demand(p, k)))
    {
      ScaleTwice(m, p.max, Demand(p.attempt, k));
    }
  }

  lemma CollectedNext(
    before: map<string, nat>, mid: map<string, nat>, after: map<string, nat>, m: nat, ps: seq<Policy>, i: nat)
    requires i < |ps| && CollectedAll(before, mid, m, ps[..i]) && Collected(mid, after, m, ps[i])
    ensures CollectedAll(before, after, m, ps[..i + 1])
  {
    forall k: string
      ensures Amount(after, k) == Cap(Amount(before, k) + Scale(m, DemandAll(ps[..i + 1], k)))
    {
      assert ps[..i + 1] == ps[..i] + [ps[i]];
      DemandAppend(ps[..i], ps[i], k);
      ScaleSum(m, DemandAll(ps[..i], k), Demand(ps[i], k));
    }
  }

  lemma {:induction false} DemandAppend(ps: seq<Policy>, q: Policy, key: string)
    ensures DemandAll(ps + [q], key) == DemandAll(ps, key) + Demand(q, key)
  {
    if ps == [] {
      assert ([] + [q])[1..] == [];
    } else {
      assert (ps + [q])[1..] == ps[1..] + [q];
      DemandAppend(ps[1..], q, key);
    }
  }

  // ---- The order of the keys ------------------------------------------------------------

  /** The budget keys of the retries from the outermost in, children left to right, repeats included. */
  function KeysOf(p: Policy): seq<string>
    decreases p, 0
  {
    match p
    case Attempt(_) => []
    case Series(ps) => KeysOfAll(ps)
    case Parallel(ps) => KeysOfAll(ps)
    case Retry(q, arg) => (if BudgetOf(arg).Some? then [BudgetOf(arg).value] else []) + KeysOf(q)
    case Hedge(q, _, _) => KeysOf(q)
    case Timeout(_, q) => KeysOf(q)
    case Deadline(_, _, q) => KeysOf(q)
  }

  function KeysOfAll(ps: seq<Policy>): seq<string>
    decreases ps, 0
  {
    if ps == [] then [] else KeysOf(ps[0]) + KeysOfAll(ps[1..])
  }

  /** Those keys in the order each is first met. */
  function FirstMet(seen: seq<string>, keys: seq<string>): seq<string>
    decreases |keys|
  {
    if keys == [] then seen else FirstMet(if keys[0] in seen then seen else seen + [keys[0]], keys[1..])
  }

  lemma {:induction false} FirstMetSum(seen: seq<string>, a: seq<string>, b: seq<string>)
    ensures FirstMet(seen, a + b) == FirstMet(FirstMet(seen, a), b)
    decreases |a|
  {
    if a == [] {
      assert a + b == b;
    } else {
      assert (a + b)[1..] == a[1..] + b;
      FirstMetSum(if a[0] in seen then seen else seen + [a[0]], a[1..], b);
    }
  }

  /** The plan lists each key once, where the tree first names it. */
  lemma {:induction false} KeysInOrder(p: Policy, seen: seq<string>)
    ensures KeyOrder(p, seen) == FirstMet(seen, KeysOf(p))
    decreases p, 0
  {
    match p
    case Attempt(_) =>
    case Series(ps) => AllKeysInOrder(ps, seen);
    case Parallel(ps) => AllKeysInOrder(ps, seen);
    case Retry(q, arg) =>
      if BudgetOf(arg).Some? {
        var key := BudgetOf(arg).value;
        FirstMetSum(seen, [key], KeysOf(q));
        KeysInOrder(q, AppendKey(seen, key));
        assert FirstMet(seen, [key]) == AppendKey(seen, key) by { assert [key][1..] == []; }
      } else {
        KeysInOrder(q, seen);
        assert [] + KeysOf(q) == KeysOf(q);
      }
    case Hedge(q, _, _) => KeysInOrder(q, seen);
    case Timeout(_, q) => KeysInOrder(q, seen);
    case Deadline(_, _, q) => KeysInOrder(q, seen);
  }

  lemma {:induction false} AllKeysInOrder(ps: seq<Policy>, seen: seq<string>)
    ensures KeyOrders(ps, seen) == FirstMet(seen, KeysOfAll(ps))
    decreases ps, 0
  {
    if ps != [] {
      KeysInOrder(ps[0], seen);
      AllKeysInOrder(ps[1..], KeyOrder(ps[0], seen));
      FirstMetSum(seen, KeysOf(ps[0]), KeysOfAll(ps[1..]));
    }
  }
}
