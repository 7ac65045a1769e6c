/**
 * Admission of a policy's aggregate retry demand against budget snapshots, and what the
 * verdict means for its runs (packages/core/src/time-policy/index.ts, lines 132-134 and
 * 285-387; the charge is packages/core/src/run/index.ts, line 267).
 */
module RetryAdmission {
  import opened Wrappers
  import opened RetryPolicies
  import opened TimePolicy
  import opened PolicyRuns
  import opened PlanSoundness
  import opened RetryDemand

  datatype BudgetState = BudgetState(limit: real, spent: real)

  datatype Snapshot = Snapshot(key: string, state: BudgetState)

  datatype BudgetEntry =
    | Unverified(key: string, required: nat)
    | Verified(key: string, required: nat, state: BudgetState, remaining: real, admissible: bool)

  datatype BudgetWarning =
    | SnapshotMissing(key: string, requiredRetries: nat)
    | BudgetExceeded(key: string, requiredRetries: nat, remainingRetries: real)

  datatype TimePlan = TimePlan(base: Plan, valid: bool, budgets: seq<BudgetEntry>, budgetWarnings: seq<BudgetWarning>)

  predicate StateOk(s: BudgetState) {
    0.0 <= s.spent <= s.limit
  }

  predicate SnapshotsOk(snapshots: seq<Snapshot>) {
    && (forall i | 0 <= i < |snapshots| :: StateOk(snapshots[i].state))
    && forall i, j | 0 <= i < j < |snapshots| :: snapshots[i].key != snapshots[j].key
  }

  /** The snapshots as a map; rejected when one is malformed or a key comes twice. */
  method ReadSnapshots(snapshots: seq<Snapshot>) returns (r: Result<map<string, BudgetState>, PolicyError>)
    ensures r.Success? <==> SnapshotsOk(snapshots)
    ensures r.Success? ==> StatesAre(r.value, snapshots)
  {
    var states: map<string, BudgetState> := map[];
    for i := 0 to |snapshots|
      invariant SnapshotsOk(snapshots[..i])
      invariant StatesAre(states, snapshots[..i])
    {
      var s := snapshots[i];
      assert snapshots[..i + 1] == snapshots[..i] + [s];
      if !StateOk(s.state) { return Failure(InvalidSnapshot); }
      if s.key in states {
        assert Snapshot(s.key, states[s.key]) in snapshots[..i];
        return Failure(InvalidSnapshot);
      }
      assert forall j | 0 <= j < i :: snapshots[..i][j].key != s.key by {
        forall j | 0 <= j < i ensures snapshots[..i][j].key != s.key {
          assert Snapshot(snapshots[j].key, snapshots[j].state) in snapshots[..i];
        }
      }
      states := states[s.key := s.state];
    }
    assert snapshots[..|snapshots|] == snapshots;
    return Success(states);
  }

  function EntryFor(key: string, required: nat, states: map<string, BudgetState>): BudgetEntry {
    if key !in states then Unverified(key, required)
    else
      var remaining := states[key].limit - states[key].spent;
      Verified(key, required, states[key], remaining, required as real <= remaining)
  }

  function WarningFor(e: BudgetEntry): seq<BudgetWarning> {
    match e
    case Unverified(key, required) => [SnapshotMissing(key, required)]
    case Verified(key, required, _, remaining, admissible) =>
      if admissible then [] else [BudgetExceeded(key, required, remaining)]
  }

  /** One warning per entry that is not admissible, in entry order. */
  function WarningsFor(entries: seq<BudgetEntry>): seq<BudgetWarning> {
    if entries == [] then []
    else WarningsFor(entries[..|entries| - 1]) + WarningFor(entries[|entries| - 1])
  }

  predicate Admissible(e: BudgetEntry) {
    e.Verified? && e.admissible
  }

  predicate AllAdmissible(entries: seq<BudgetEntry>) {
    forall e | e in entries :: Admissible(e)
  }

  lemma NextEntry(
    entries: seq<BudgetEntry>, e: BudgetEntry, p: Policy, order: seq<string>, snapshots: seq<Snapshot>)
    requires |entries| < |order| && EntriesAre(entries, p, order, snapshots)
    requires EntryIs(e, order[|entries|], Cap(Demand(p, order[|entries|])), snapshots)
    ensures EntriesAre(entries + [e], p, order, snapshots)
  {
  }

  lemma EntryAppended(entries: seq<BudgetEntry>, e: BudgetEntry)
    ensures AllAdmissible(entries + [e]) <==> AllAdmissible(entries) && Admissible(e)
    ensures WarningsFor(entries + [e]) == WarningsFor(entries) + WarningFor(e)
  {
    var longer := entries + [e];
    assert longer[..|entries|] == entries && longer[|entries|] == e;
    if AllAdmissible(longer) {
      assert e in longer && forall x | x in entries :: x in longer;
    }
  }

  /** What an entry says about its key: the capped demand, compared with the snapshot for that key if there is one. */
  ghost predicate EntryIs(e: BudgetEntry, key: string, required: nat, snapshots: seq<Snapshot>) {
    && e.key == key && e.required == required
    && (e.Unverified? <==> forall s | s in snapshots :: s.key != key)
    && (e.Verified? ==> && Snapshot(key, e.state) in snapshots
                        && e.remaining == e.state.limit - e.state.spent
                        && (e.admissible <==> required as real <= e.remaining))
  }

  /** Entry i is about key i and its capped demand. */
  ghost predicate EntriesAre(entries: seq<BudgetEntry>, p: Policy, order: seq<string>, snapshots: seq<Snapshot>) {
    && |entries| <= |order|
    && forall i | 0 <= i < |entries| :: EntryIs(entries[i], order[i], Cap(Demand(p, order[i])), snapshots)
  }

  /** The Map the snapshots are read into. */
  ghost predicate StatesAre(states: map<string, BudgetState>, snapshots: seq<Snapshot>) {
    forall k, st :: (k in states && states[k] == st) <==> Snapshot(k, st) in snapshots
  }

  lemma EntryForIs(key: string, required: nat, states: map<string, BudgetState>, snapshots: seq<Snapshot>)
    requires StatesAre(states, snapshots)
    ensures EntryIs(EntryFor(key, required, states), key, required, snapshots)
  {
    if key in states {
      assert Snapshot(key, states[key]) in snapshots;
    } else {
      forall s | s in snapshots ensures s.key != key {
        assert Snapshot(s.key, s.state) in snapshots;
      }
    }
  }

  lemma EntryForDemand(
    p: Policy, key: string, amounts: map<string, nat>, states: map<string, BudgetState>, snapshots: seq<Snapshot>)
    requires Collected(map[], amounts, 1, p)
    requires StatesAre(states, snapshots)
    ensures EntryIs(EntryFor(key, Amount(amounts, key), states), key, Cap(Demand(p, key)), snapshots)
  {
    ScaleIsProduct(1, Demand(p, key));
    EntryForIs(key, Amount(amounts, key), states, snapshots);
  }

  /**
   * `planTimePolicy`: the static plan plus one budget entry per key of the tree, each
   * stating the capped structural demand and whether the snapshot covers it.
   */
  method PlanTimePolicy(p: Policy, snapshots: seq<Snapshot>) returns (r: Result<TimePlan, PolicyError>)
    ensures PlanAt(p, 0).Failure? ==> r == Failure(PlanAt(p, 0).error)
    ensures PlanAt(p, 0).Success? ==> (r.Success? <==> KeyOrder(p, []) == [] || SnapshotsOk(snapshots))
    ensures r.Success? ==>
              && r.value.base == PlanAt(p, 0).value
              && |r.value.budgets| == |KeyOrder(p, [])|
              && EntriesAre(r.value.budgets, p, KeyOrder(p, []), snapshots)
              && r.value.budgetWarnings == WarningsFor(r.value.budgets)
              && (r.value.valid <==> r.value.base.valid && AllAdmissible(r.value.budgets))
  {
    var base :- PlanAt(p, 0);
    PlannedCountsValid(p, 0);
    var demand := new DemandMap();
    CollectRetryBudgetDemand(p, 1, 1, demand);
    var order, amounts := demand.order, demand.amounts;
    if |order| == 0 { return Success(TimePlan(base, base.valid, [], [])); }
    var states :- ReadSnapshots(snapshots);
    var budgets, warnings, admissible := BuildEntries(p, order, amounts, states, snapshots);
    return Success(TimePlan(base, base.valid && admissible, budgets, warnings));
  }

  method BuildEntries(
    p: Policy, order: seq<string>, amounts: map<string, nat>, states: map<string, BudgetState>,
    ghost snapshots: seq<Snapshot>)
    returns (budgets: seq<BudgetEntry>, warnings: seq<BudgetWarning>, valid: bool)
    requires Collected(map[], amounts, 1, p)
    requires StatesAre(states, snapshots)
    ensures |budgets| == |order| && EntriesAre(budgets, p, order, snapshots)
    ensures warnings == WarningsFor(budgets)
    ensures valid <==> AllAdmissible(budgets)
  {
    valid, budgets, warnings := true, [], [];
    for i := 0 to |order|
      invariant |budgets| == i && EntriesAre(budgets, p, order, snapshots)
      invariant warnings == WarningsFor(budgets)
      invariant valid <==> AllAdmissible(budgets)
    {
      var key := order[i];
      var e := EntryFor(key, Amount(amounts, key), states);
      EntryForDemand(p, key, amounts, states, snapshots);
      NextEntry(budgets, e, p, order, snapshots);
      EntryAppended(budgets, e);
      budgets := budgets + [e];
      warnings := warnings + WarningFor(e);
      valid := valid && Admissible(e);
    }
  }

  /** No key that a run could charge is missing from the plan. */
  lemma {:induction false} DemandIsPlanned(p: Policy, seen: seq<string>, key: string)
    ensures Demand(p, key) > 0 || key in seen ==> key in KeyOrder(p, seen)
    decreases p, 0
  {
    match p
    case Attempt(_) =>
    case Series(ps) => DemandsArePlanned(ps, seen, key);
    case Parallel(ps) => DemandsArePlanned(ps, seen, key);
    case Retry(q, arg) =>
      if Demand(q, key) == 0 { assert Times(arg) * Demand(q, key) == 0; }
      DemandIsPlanned(q, if BudgetOf(arg).Some? then AppendKey(seen, BudgetOf(arg).value) else seen, key);
    case Hedge(q, _, max) =>
      if max >= 1 && Demand(q, key) == 0 { assert max * Demand(q, key) == 0; }
      DemandIsPlanned(q, seen, key);
    case Timeout(_, q) => DemandIsPlanned(q, seen, key);
    case Deadline(_, _, q) => DemandIsPlanned(q, seen, key);
  }

  lemma {:induction false} DemandsArePlanned(ps: seq<Policy>, seen: seq<string>, key: string)
    ensures DemandAll(ps, key) > 0 || key in seen ==> key in KeyOrders(ps, seen)
    decreases ps, 0
  {
    if ps != [] {
      DemandIsPlanned(ps[0], seen, key);
      DemandsArePlanned(ps[1..], KeyOrder(ps[0], seen), key);
    }
  }

  // ---- What the verdict means for runs -------------------------------------------------

  /**
   * A run with sole use of the budget: its accepted charges fit, and a charge was refused
   * only when one more would exceed the limit.
   */
  ghost predicate Budgeted(o: Obs, key: string, st: BudgetState) {
    && st.spent + o.charged[key] as real <= st.limit
    && (o.refused[key] > 0 ==> st.spent + o.charged[key] as real + 1.0 > st.limit)
  }

  ghost predicate Stopped(o: Obs, key: string) {
    o.refused[key] > 0
  }

  /** An admissible, unsaturated key never stops a run that has sole use of the budget. */
  lemma {:induction false} AdmissibleNeverStopped(
    p: Policy, depth: nat, s: real, tr: Trace, key: string, st: BudgetState)
    requires PlanAt(p, depth).Success? && Observe(p, s, tr).Some?
    requires Cap(Demand(p, key)) as real <= st.limit - st.spent && Cap(Demand(p, key)) < MAX_SAFE_INTEGER
    requires Budgeted(Observe(p, s, tr).value, key, st)
    ensures !Stopped(Observe(p, s, tr).value, key)
  {
    RunCosts(p, depth, s, tr, key);
  }

  // ---- The bound is met ---------------------------------------------------------------

  /** Trees of attempts, retries with the default `retryIf`, and non-empty series. */
  predicate RetryTree(p: Policy)
    decreases p, 0
  {
    match p
    case Attempt(_) => true
    case Retry(q, arg) => RetryTree(q) && (arg.Opts? ==> !arg.opts.customRetryIf)
    case Series(ps) => ps != [] && AllRetryTrees(ps)
    case _ => false
  }

  predicate AllRetryTrees(ps: seq<Policy>)
    decreases ps, 0
  {
    ps == [] || (RetryTree(ps[0]) && AllRetryTrees(ps[1..]))
  }

  /** `o` ends with `outcome`, was refused nothing, and charged every key its full demand. */
  ghost predicate FullyCharged(o: Obs, outcome: Outcome, p: Policy) {
    && o.outcome == outcome && o.refused == multiset{}
    && forall key: string :: o.charged[key] == Demand(p, key)
  }

  /** Some run charges exactly the demand, whether it ends in success or failure. */
  lemma {:induction false} FullRun(p: Policy, depth: nat, s: real, outcome: Outcome) returns (tr: Trace)
    requires RetryTree(p) && PlanAt(p, depth).Success? && !outcome.Cancelled?
    ensures Observe(p, s, tr).Some? && FullyCharged(Observe(p, s, tr).value, outcome, p)
    decreases p, 0, 0
  {
    match p
    case Attempt(_) => tr := LeafRun(0.0, outcome);
    case Retry(q, arg) =>
      var policy := Normalize(arg).value;
      var rounds := FullRounds(q, depth + 1, policy, BudgetOf(arg), 1, s, outcome);
      tr := RetryRun(rounds);
      forall key: string
        ensures Observe(p, s, tr).value.charged[key] == Demand(p, key)
      {
        RetryDemandIs(q, arg, key);
      }
    case Series(ps) =>
      var trs := FullSeries(ps, depth + 1, s, outcome);
      tr := SeriesRun(trs, false);
  }

  lemma {:induction false} FullSeries(ps: seq<Policy>, depth: nat, s: real, outcome: Outcome) returns (trs: seq<Trace>)
    requires ps != [] && AllRetryTrees(ps) && PlanAll(ps, depth).Success? && !outcome.Cancelled?
    ensures ObserveSeries(ps, s, trs, false).Some?
    ensures var o := ObserveSeries(ps, s, trs, false).value;
            && o.outcome == outcome && o.refused == multiset{}
            && forall key: string :: o.charged[key] == DemandAll(ps, key)
    decreases ps, 0, 0
  {
    if |ps| == 1 {
      var head := FullRun(ps[0], depth, s, outcome);
      trs := [head];
      assert ps[1..] == [] && trs[1..] == [];
    } else {
      var head := FullRun(ps[0], depth, s, Done);
      var tail := FullSeries(ps[1..], depth, Observe(ps[0], s, head).value.settle, outcome);
      trs := [head] + tail;
      assert trs[1..] == tail;
    }
  }

  /** Charges of n attempts that charge d each, with `own` charged between two of them. */
  function RoundDemand(n: nat, own: nat, d: nat): nat
    requires n >= 1
  {
    if n == 1 then d else d + own + RoundDemand(n - 1, own, d)
  }

  lemma {:induction false} RoundDemandIsDemand(n: nat, own: nat, d: nat)
    requires n >= 1
    ensures RoundDemand(n, own, d) == own * (n - 1) + n * d
  {
    if n > 1 {
      RoundDemandIsDemand(n - 1, own, d);
      assert n * d == (n - 1) * d + d && own * (n - 1) == own * (n - 2) + own;
    }
  }

  function Own(budget: Option<string>, key: string): nat {
    if budget == Some(key) then 1 else 0
  }

  lemma RetryDemandIs(q: Policy, arg: RetryArg, key: string)
    requires Normalize(arg).Success?
    ensures Demand(Retry(q, arg), key)
        == RoundDemand(Normalize(arg).value.times, Own(BudgetOf(arg), key), Demand(q, key))
  {
    RoundDemandIsDemand(Normalize(arg).value.times, Own(BudgetOf(arg), key), Demand(q, key));
  }

  /** A planned wait can be slept for. */
  lemma CanSleep(k: nat, policy: RetryPolicy)
    requires 1 <= k < policy.times && DelaysFrom(k, policy).Success?
    ensures ComputeRetryDelay(k, policy, 0.0, 0.0).Success? && DelaysFrom(k + 1, policy).Success?
  {
    EstimateBoundsRuntime(k, policy, 0.0, 0.0);
  }

  /** A failed attempt whose retry is charged, and slept for as briefly as possible, in front of the rest. */
  lemma FirstSlept(
    q: Policy, policy: RetryPolicy, budget: Option<string>, k: nat, s: real, body: Trace, rest: seq<Round>)
    requires 1 <= k < policy.times && ComputeRetryDelay(k, policy, 0.0, 0.0).Success?
    requires Observe(q, s, body).Some? && Observe(q, s, body).value.outcome.Failed?
    requires var at := Observe(q, s, body).value.settle + ComputeRetryDelay(k, policy, 0.0, 0.0).value;
             ObserveRounds(q, policy, budget, k + 1, at, rest).Some?
    ensures var at := Observe(q, s, body).value.settle + ComputeRetryDelay(k, policy, 0.0, 0.0).value;
            ObserveRounds(q, policy, budget, k, s, [Round(body, Slept(0.0, 0.0))] + rest)
            == Some(Then(AfterCharge(Observe(q, s, body).value, budget),
                         ObserveRounds(q, policy, budget, k + 1, at, rest).value))
  {
    var rounds := [Round(body, Slept(0.0, 0.0))] + rest;
    assert rounds[1..] == rest;
  }

  /** Every key is charged what n attempts charge, with a charge of their own between each two. */
  ghost predicate ChargesRounds(o: Obs, n: nat, budget: Option<string>, q: Policy)
    requires n >= 1
  {
    forall key: string :: o.charged[key] == RoundDemand(n, Own(budget, key), Demand(q, key))
  }

  /** One more round in front charges one body and one charge of its own more. */
  lemma ChargedRounds(a: Obs, b: Obs, n: nat, budget: Option<string>, q: Policy)
    requires n >= 1 && (forall key: string :: a.charged[key] == Demand(q, key)) && ChargesRounds(b, n, budget, q)
    ensures ChargesRounds(Then(AfterCharge(a, budget), b), n + 1, budget, q)
  {
    var o := Then(AfterCharge(a, budget), b);
    forall key: string ensures o.charged[key] == RoundDemand(n + 1, Own(budget, key), Demand(q, key)) {
      assert b.charged[key] == RoundDemand(n, Own(budget, key), Demand(q, key));
    }
  }

  /** n attempts that end with `outcome`, were refused nothing, and charged every key in full. */
  ghost predicate FullyChargedRounds(o: Obs, outcome: Outcome, n: nat, budget: Option<string>, q: Policy)
    requires n >= 1
  {
    o.outcome == outcome && o.refused == multiset{} && ChargesRounds(o, n, budget, q)
  }

  lemma FullyCharges(a: Obs, b: Obs, outcome: Outcome, n: nat, budget: Option<string>, q: Policy)
    requires n >= 1 && FullyCharged(a, Failed, q) && FullyChargedRounds(b, outcome, n, budget, q)
    ensures FullyChargedRounds(Then(AfterCharge(a, budget), b), outcome, n + 1, budget, q)
  {
    ChargedRounds(a, b, n, budget, q);
  }

  lemma NextFullRound(
    q: Policy, policy: RetryPolicy, budget: Option<string>, k: nat, s: real, body: Trace, tail: seq<Round>,
    outcome: Outcome)
    requires 1 <= k < policy.times && ComputeRetryDelay(k, policy, 0.0, 0.0).Success?
    requires Observe(q, s, body).Some? && FullyCharged(Observe(q, s, body).value, Failed, q)
    requires var at := Observe(q, s, body).value.settle + ComputeRetryDelay(k, policy, 0.0, 0.0).value;
             var b := ObserveRounds(q, policy, budget, k + 1, at, tail);
             b.Some? && FullyChargedRounds(b.value, outcome, policy.times - k, budget, q)
    ensures var o := ObserveRounds(q, policy, budget, k, s, [Round(body, Slept(0.0, 0.0))] + tail);
            o.Some? && FullyChargedRounds(o.value, outcome, policy.times - k + 1, budget, q)
  {
    var a := Observe(q, s, body).value;
    var at := a.settle + ComputeRetryDelay(k, policy, 0.0, 0.0).value;
    var b := ObserveRounds(q, policy, budget, k + 1, at, tail).value;
    FullyCharges(a, b, outcome, policy.times - k, budget, q);
    assert ObserveRounds(q, policy, budget, k, s, [Round(body, Slept(0.0, 0.0))] + tail)
        == Some(Then(AfterCharge(a, budget), b)) by {
      FirstSlept(q, policy, budget, k, s, body, tail);
    }
  }

  /** Attempts k, ..., times: all but the last fail, and every wait is as short as it can be. */
  lemma {:induction false} FullRounds(
    q: Policy, depth: nat, policy: RetryPolicy, budget: Option<string>, k: nat, s: real, outcome: Outcome)
    returns (rounds: seq<Round>)
    requires RetryTree(q) && PlanAt(q, depth).Success? && !outcome.Cancelled?
    requires 1 <= k <= policy.times && DelaysFrom(k, policy).Success?
    ensures var o := ObserveRounds(q, policy, budget, k, s, rounds);
            o.Some? && FullyChargedRounds(o.value, outcome, policy.times - k + 1, budget, q)
    decreases q, 1, policy.times - k
  {
    if k == policy.times {
      var body := FullRun(q, depth, s, outcome);
      rounds := [Round(body, Stop)];
    } else {
      var body := FullRun(q, depth, s, Failed);
      CanSleep(k, policy);
      var at := Observe(q, s, body).value.settle + ComputeRetryDelay(k, policy, 0.0, 0.0).value;
      var tail := FullRounds(q, depth, policy, budget, k + 1, at, outcome);
      rounds := [Round(body, Slept(0.0, 0.0))] + tail;
      NextFullRound(q, policy, budget, k, s, body, tail, outcome);
    }
  }

  // ---- The verdict is exact -----------------------------------------------------------

  /** For every n below the demand, some run is accepted n charges of `key` and refused the next. */
  lemma {:induction false} StoppedRun(p: Policy, depth: nat, s: real, key: string, n: nat) returns (tr: Trace)
    requires RetryTree(p) && PlanAt(p, depth).Success? && n < Demand(p, key)
    ensures Observe(p, s, tr).Some? && StoppedAfter(Observe(p, s, tr).value, key, n)
    decreases p, 0, 0
  {
    match p
    case Retry(q, arg) =>
      RetryDemandIs(q, arg, key);
      var rounds := StoppedRounds(q, depth + 1, Normalize(arg).value, BudgetOf(arg), 1, s, key, n);
      tr := RetryRun(rounds);
    case Series(ps) =>
      var trs := StoppedSeries(ps, depth + 1, s, key, n);
      tr := SeriesRun(trs, false);
  }

  ghost predicate StoppedAfter(o: Obs, key: string, n: nat) {
    o.outcome.Cancelled? && o.charged[key] == n && o.refused[key] == 1
  }

  lemma {:induction false} StoppedSeries(ps: seq<Policy>, depth: nat, s: real, key: string, n: nat)
    returns (trs: seq<Trace>)
    requires AllRetryTrees(ps) && PlanAll(ps, depth).Success? && n < DemandAll(ps, key)
    ensures ObserveSeries(ps, s, trs, false).Some? && StoppedAfter(ObserveSeries(ps, s, trs, false).value, key, n)
    decreases ps, 0, 0
  {
    if n < Demand(ps[0], key) {
      var head := StoppedRun(ps[0], depth, s, key, n);
      trs := [head];
    } else {
      var head := FullRun(ps[0], depth, s, Done);
      var tail := StoppedSeries(ps[1..], depth, Observe(ps[0], s, head).value.settle, key, n - Demand(ps[0], key));
      trs := [head] + tail;
      assert trs[1..] == tail;
    }
  }

  /** The retry after attempt k is the charge that is refused. */
  lemma RefusedRound(
    q: Policy, policy: RetryPolicy, budget: Option<string>, k: nat, s: real, body: Trace, key: string)
    requires 1 <= k < policy.times && budget == Some(key)
    requires Observe(q, s, body).Some? && FullyCharged(Observe(q, s, body).value, Failed, q)
    ensures var o := ObserveRounds(q, policy, budget, k, s, [Round(body, BudgetRefused)]);
            o.Some? && StoppedAfter(o.value, key, Demand(q, key))
  {
  }

  lemma NextStoppedRound(
    q: Policy, policy: RetryPolicy, budget: Option<string>, k: nat, s: real, body: Trace, tail: seq<Round>,
    key: string, n: nat)
    requires 1 <= k < policy.times && ComputeRetryDelay(k, policy, 0.0, 0.0).Success?
    requires Observe(q, s, body).Some? && FullyCharged(Observe(q, s, body).value, Failed, q)
    requires var at := Observe(q, s, body).value.settle + ComputeRetryDelay(k, policy, 0.0, 0.0).value;
             var b := ObserveRounds(q, policy, budget, k + 1, at, tail);
             b.Some? && StoppedAfter(b.value, key, n)
    ensures var o := ObserveRounds(q, policy, budget, k, s, [Round(body, Slept(0.0, 0.0))] + tail);
            o.Some? && StoppedAfter(o.value, key, n + Demand(q, key) + Own(budget, key))
  {
    var a := Observe(q, s, body).value;
    var at := a.settle + ComputeRetryDelay(k, policy, 0.0, 0.0).value;
    var b := ObserveRounds(q, policy, budget, k + 1, at, tail).value;
    assert StoppedAfter(Then(AfterCharge(a, budget), b), key, n + Demand(q, key) + Own(budget, key));
    assert ObserveRounds(q, policy, budget, k, s, [Round(body, Slept(0.0, 0.0))] + tail)
        == Some(Then(AfterCharge(a, budget), b)) by {
      FirstSlept(q, policy, budget, k, s, body, tail);
    }
  }

  lemma {:induction false} StoppedRounds(
    q: Policy, depth: nat, policy: RetryPolicy, budget: Option<string>, k: nat, s: real, key: string, n: nat)
    returns (rounds: seq<Round>)
    requires RetryTree(q) && PlanAt(q, depth).Success?
    requires 1 <= k <= policy.times && DelaysFrom(k, policy).Success?
    requires n < RoundDemand(policy.times - k + 1, Own(budget, key), Demand(q, key))
    ensures var o := ObserveRounds(q, policy, budget, k, s, rounds); o.Some? && StoppedAfter(o.value, key, n)
    decreases q, 1, policy.times - k
  {
    var d := Demand(q, key);
    if n < d {
      var body := StoppedRun(q, depth, s, key, n);
      rounds := [Round(body, Stop)];
    } else {
      var body := FullRun(q, depth, s, Failed);
      if n == d && budget == Some(key) {
        rounds := [Round(body, BudgetRefused)];
        RefusedRound(q, policy, budget, k, s, body, key);
      } else {
        CanSleep(k, policy);
        var at := Observe(q, s, body).value.settle + ComputeRetryDelay(k, policy, 0.0, 0.0).value;
        var tail := StoppedRounds(q, depth, policy, budget, k + 1, at, key, n - d - Own(budget, key));
        rounds := [Round(body, Slept(0.0, 0.0))] + tail;
        NextStoppedRound(q, policy, budget, k, s, body, tail, key, n - d - Own(budget, key));
      }
    }
  }

  /** Some run with sole use of the budget is stopped by it. */
  ghost predicate CanBeStopped(p: Policy, s: real, key: string, st: BudgetState) {
    exists tr :: && Observe(p, s, tr).Some?
                 && Budgeted(Observe(p, s, tr).value, key, st) && Stopped(Observe(p, s, tr).value, key)
  }

  /**
   * For trees of attempts, default retries and non-empty series, the budget stops some run
   * exactly when the demand exceeds what remains.
   */
  lemma {:induction false} StoppedIffDemandExceeds(p: Policy, depth: nat, s: real, key: string, st: BudgetState)
    requires RetryTree(p) && PlanAt(p, depth).Success? && StateOk(st)
    ensures CanBeStopped(p, s, key, st) <==> Demand(p, key) as real > st.limit - st.spent
  {
    var remaining := st.limit - st.spent;
    if Demand(p, key) as real > remaining {
      var n := remaining.Floor;
      assert n as real <= remaining < n as real + 1.0;
      var tr := StoppedRun(p, depth, s, key, n);
      assert Budgeted(Observe(p, s, tr).value, key, st) && Stopped(Observe(p, s, tr).value, key);
    } else {
      forall tr | Observe(p, s, tr).Some? && Budgeted(Observe(p, s, tr).value, key, st)
        ensures !Stopped(Observe(p, s, tr).value, key)
      {
        RunCosts(p, depth, s, tr, key);
      }
    }
  }

  /**
   * So the planner's verdict is right exactly when the cap did not hide demand: either the
   * demand is below the cap or too little budget remains even for the cap.
   */
  lemma VerdictExactIff(p: Policy, depth: nat, s: real, key: string, st: BudgetState)
    requires RetryTree(p) && PlanAt(p, depth).Success? && StateOk(st)
    ensures (Cap(Demand(p, key)) as real <= st.limit - st.spent <==> !CanBeStopped(p, s, key, st))
       <==> (Demand(p, key) <= MAX_SAFE_INTEGER || st.limit - st.spent < MAX_SAFE_INTEGER as real
             || st.limit - st.spent >= Demand(p, key) as real)
  {
    StoppedIffDemandExceeds(p, depth, s, key, st);
  }

  // ---- A wrong verdict ----------------------------------------------------------------

  function ChargedRetry(key: string): RetryArg {
    Opts(RetryOpts(MAX_RETRY_ATTEMPTS, None, None, None, None, false, Some(key)))
  }

  /** n retries of 1000 attempts around each other, each charging `key`. */
  function Nested(n: nat, key: string): Policy {
    if n == 0 then Attempt(0.0) else Retry(Nested(n - 1, key), ChargedRetry(key))
  }

  lemma {:induction false} DefaultDelays(k: nat, policy: RetryPolicy)
    requires k >= 1 && policy.initialDelay == 100.0 && policy.maxDelay == 30000.0
    ensures DelaysFrom(k, policy).Success?
    decreases policy.times - k
  {
    if k < policy.times { DefaultDelays(k + 1, policy); }
  }

  lemma {:induction false} NestedAccepted(n: nat, key: string, depth: nat)
    requires depth + n <= MAX_POLICY_DEPTH
    ensures PlanAt(Nested(n, key), depth).Success? && RetryTree(Nested(n, key))
  {
    if n > 0 {
      NestedAccepted(n - 1, key, depth + 1);
      assert DelaysFrom(1, Normalize(ChargedRetry(key)).value).Success? by {
        DefaultDelays(1, Normalize(ChargedRetry(key)).value);
      }
    }
  }

  lemma NestedDemand(n: nat, key: string)
    ensures Demand(Nested(n + 1, key), key) == 999 + 1000 * Demand(Nested(n, key), key)
  {
  }

  /**
   * Six nested retries of 1000 attempts are accepted and want 10^18 - 1 charges; with
   * 2^53 - 1 remaining the planner calls the key admissible, and some run is stopped.
   */
  lemma CapHidesDemand(key: string, s: real)
    ensures var p, st := Nested(6, key), BudgetState(MAX_SAFE_INTEGER as real, 0.0);
            && PlanAt(p, 0).Success? && StateOk(st)
            && Demand(p, key) == 999999999999999999
            && Cap(Demand(p, key)) as real <= st.limit - st.spent
            && CanBeStopped(p, s, key, st)
  {
    var p, st := Nested(6, key), BudgetState(MAX_SAFE_INTEGER as real, 0.0);
    NestedAccepted(6, key, 0);
    assert Demand(Nested(0, key), key) == 0;
    NestedDemand(0, key);
    NestedDemand(1, key);
    NestedDemand(2, key);
    NestedDemand(3, key);
    NestedDemand(4, key);
    NestedDemand(5, key);
    StoppedIffDemandExceeds(p, 0, s, key, st);
  }
}
