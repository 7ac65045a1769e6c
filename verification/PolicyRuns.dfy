/**
 * What a policy tree does at run time: the `run` helpers of packages/core/src/run/index.ts
 * (`series`, `all`, `retry`, `hedge`, `timeout`, `deadline`) interpreted over a script of
 * everything the environment decides.
 *
 * Time is a real clock with ideal timers. A promise that loses a race is not stopped:
 * its trace goes on and its costs are counted.
 */
module PolicyRuns {
  import opened Wrappers
  import opened RetryPolicies
  import opened TimePolicy

  /** `Cancelled` covers every error carrying the CancellationError brand: timeouts and budget refusals too. */
  datatype Outcome = Done | Failed | Cancelled

  /** One run of a policy, as the environment decides it. */
  datatype Trace =
    | LeafRun(elapsed: real, outcome: Outcome)
    | SeriesRun(children: seq<Trace>, spawnRefused: bool)
    | ParallelRun(children: seq<Trace>, firstRejection: nat)
    | RetryRun(rounds: seq<Round>)
    | HedgeRun(attempts: seq<Trace>, end: HedgeEnd)
    | LimitRun(inner: Trace, fired: bool)

  datatype Round = Round(body: Trace, next: Next)

  /** What `run.retry` does after one attempt. */
  datatype Next =
    | Stop
    | BudgetMissing
    | BudgetRefused
    | BadBackoff
    | SleepAborted(dynamic: real, random: real, slept: real)
    | Slept(dynamic: real, random: real)

  datatype HedgeEnd = Won(winner: nat) | AllFailed | Aborted(at: real)

  /**
   * What a run shows: when its promise settles, when the last scope it opened closes,
   * how it ends, and what it costs, including work that outlives the settlement.
   */
  datatype Obs = Obs(
    settle: real, drain: Option<real>, outcome: Outcome,
    invocations: nat, work: real, charged: multiset<string>, refused: multiset<string>)

  function Idle(s: real): Obs {
    Obs(s, None, Done, 0, 0.0, multiset{}, multiset{})
  }

  function Later(a: Option<real>, b: Option<real>): Option<real> {
    if a.None? then b else if b.None? then a else Some(Max(a.value, b.value))
  }

  /** Costs add up, whichever run settles or ends how. */
  function WithCosts(o: Obs, a: Obs, b: Obs): Obs {
    o.(invocations := a.invocations + b.invocations, work := a.work + b.work,
       charged := a.charged + b.charged, refused := a.refused + b.refused)
  }

  function Then(a: Obs, b: Obs): Obs {
    WithCosts(b.(drain := Later(a.drain, b.drain)), a, b)
  }

  function Beside(a: Obs, b: Obs): Obs {
    WithCosts(b.(settle := Max(a.settle, b.settle), drain := Later(a.drain, b.drain)), a, b)
  }

  function Together(os: seq<Obs>, s: real): Obs {
    if os == [] then Idle(s) else Beside(os[0], Together(os[1..], s))
  }

  /** `group` returns only when its tasks have settled and the scopes opened below it have closed. */
  function CloseGroup(o: Obs): Obs {
    var end := if o.drain.Some? then Max(o.settle, o.drain.value) else o.settle;
    o.(settle := end, drain := Some(end))
  }

  /** `Promise.race` against a timer; at a tie either side may win. The loser keeps running. */
  function Race(o: Obs, limit: real, fired: bool): Option<Obs> {
    if fired then (if limit <= o.settle then Some(o.(settle := limit, outcome := Cancelled)) else None)
    else if o.settle <= limit then Some(o) else None
  }

  /** `Promise.all` rejects with the rejection that comes first. */
  ghost predicate FirstRejection(os: seq<Obs>, k: nat) {
    && k < |os| && !os[k].outcome.Done?
    && forall j | 0 <= j < |os| && !os[j].outcome.Done? :: os[k].settle <= os[j].settle
  }

  function HedgeStart(s: real, after: real, i: nat): real {
    s + after * i as real
  }

  /** When the hedge that started `os` settles, if `end` is how it can settle. */
  ghost predicate HedgeEnds(os: seq<Obs>, s: real, after: real, max: nat, end: HedgeEnd, t: real) {
    && s <= t
    && |os| <= max
    && (forall i | 0 <= i < |os| :: HedgeStart(s, after, i) <= t)
    && (forall i | 0 <= i < |os| && os[i].outcome.Done? :: t <= os[i].settle)
    && (|os| < max ==> !end.AllFailed? && t <= HedgeStart(s, after, |os|))
    && match end
       case Won(w) => w < |os| && os[w].outcome.Done? && t == os[w].settle
       case AllFailed => (forall i | 0 <= i < |os| :: !os[i].outcome.Done?) && t == Together(os, s).settle
       case Aborted(at) => t == at && (|os| == max ==> exists i | 0 <= i < |os| :: t <= os[i].settle)
  }

  ghost function HedgeTime(os: seq<Obs>, s: real, end: HedgeEnd): real {
    match end
    case Won(w) => if w < |os| then os[w].settle else s
    case AllFailed => Together(os, s).settle
    case Aborted(at) => at
  }

  function HedgeOutcome(end: HedgeEnd): Outcome {
    match end
    case Won(_) => Done
    case AllFailed => Failed
    case Aborted(_) => Cancelled
  }

  /** The run of `p` started at `s` that `tr` scripts, if `tr` is a possible one. */
  ghost function Observe(p: Policy, s: real, tr: Trace): Option<Obs>
    decreases p, 0, 0
  {
    match (p, tr)
    case (Attempt(d), LeafRun(e, outcome)) =>
      if 0.0 <= e <= d then Some(Idle(s).(settle := s + e, outcome := outcome, invocations := 1, work := e)) else None
    case (Series(ps), SeriesRun(trs, spawnRefused)) =>
      var o := ObserveSeries(ps, s, trs, spawnRefused);
      if o.None? then None else Some(CloseGroup(o.value))
    case (Parallel(ps), ParallelRun(trs, k)) =>
      var os := ObserveEach(ps, s, trs);
      if os.None? then None
      else if forall o | o in os.value :: o.outcome.Done? then Some(CloseGroup(Together(os.value, s)))
      else if FirstRejection(os.value, k)
      then Some(CloseGroup(Together(os.value, s).(outcome := os.value[k].outcome)))
      else None
    case (Retry(q, arg), RetryRun(rounds)) =>
      var policy := Normalize(arg);
      if policy.Failure? then None else ObserveRounds(q, policy.value, BudgetOf(arg), 1, s, rounds)
    case (Hedge(q, after, max), HedgeRun(trs, end)) =>
      var os := ObserveStaggered(q, after, s, 0, trs);
      if os.Some? && max >= 1 && HedgeEnds(os.value, s, after, max, end, HedgeTime(os.value, s, end))
      then Some(Together(os.value, s).(settle := HedgeTime(os.value, s, end), outcome := HedgeOutcome(end)))
      else None
    case (Timeout(ms, q), LimitRun(inner, fired)) =>
      var o := Observe(q, s, inner);
      if o.None? then None else Race(o.value, s + ms, fired)
    case (Deadline(at, now, q), LimitRun(inner, fired)) =>
      var o := Observe(q, s, inner);
      if o.None? || s < now then None else Race(o.value, s + RemainingMs(at, s), fired)
    case _ => None
  }

  /**
   * Tasks one after the other until one does not succeed. Spawning the next task throws
   * an ordinary error when the group's scope has been cancelled meanwhile.
   */
  ghost function ObserveSeries(ps: seq<Policy>, s: real, trs: seq<Trace>, spawnRefused: bool): Option<Obs>
    decreases ps, 0, 0
  {
    if ps == [] then (if trs == [] && !spawnRefused then Some(Idle(s)) else None)
    else if trs == [] then (if spawnRefused then Some(Idle(s).(outcome := Failed)) else None)
    else
      var a := Observe(ps[0], s, trs[0]);
      if a.None? then None
      else if !a.value.outcome.Done? then (if |trs| == 1 && !spawnRefused then a else None)
      else
        var b := ObserveSeries(ps[1..], a.value.settle, trs[1..], spawnRefused);
        if b.None? then None else Some(Then(a.value, b.value))
  }

  ghost function ObserveEach(ps: seq<Policy>, s: real, trs: seq<Trace>): Option<seq<Obs>>
    decreases ps, 0, 0
  {
    if |ps| != |trs| then None
    else if ps == [] then Some([])
    else
      var a, b := Observe(ps[0], s, trs[0]), ObserveEach(ps[1..], s, trs[1..]);
      if a.None? || b.None? then None else Some([a.value] + b.value)
  }

  /** Whether `run.retry` goes on to another attempt. */
  predicate GoesOn(a: Obs, policy: RetryPolicy, k: nat, next: Next) {
    a.outcome.Failed? && k < policy.times && next.Slept?
  }

  function AfterCharge(a: Obs, budget: Option<string>): Obs {
    if budget.Some? then a.(charged := a.charged + multiset{budget.value}) else a
  }

  /** How `run.retry` ends with attempt k, whose run was `a`, when it does not go on. */
  function LastRound(a: Obs, policy: RetryPolicy, budget: Option<string>, k: nat, next: Next): Option<Obs>
    requires k >= 1
  {
    if !a.outcome.Failed? || k >= policy.times then (if next.Stop? then Some(a) else None)
    else
      match next
      case Stop => if policy.customRetryIf then Some(a) else None
      case BudgetMissing => if budget.Some? then Some(a) else None
      case BudgetRefused =>
        if budget.None? then None
        else Some(a.(outcome := Cancelled, refused := a.refused + multiset{budget.value}))
      case BadBackoff => if policy.backoff.Dynamic? then Some(AfterCharge(a, budget)) else None
      case SleepAborted(dynamic, random, slept) =>
        var delay := ComputeRetryDelay(k, policy, dynamic, random);
        if delay.Success? && 0.0 <= random < 1.0 && 0.0 <= slept <= delay.value
        then Some(AfterCharge(a, budget).(settle := a.settle + slept, outcome := Cancelled)) else None
      case Slept(_, _) => None
  }

  /** Attempts of `run.retry` from number k on. */
  ghost function ObserveRounds(
    q: Policy, policy: RetryPolicy, budget: Option<string>, k: nat, s: real, rounds: seq<Round>): Option<Obs>
    requires k >= 1
    decreases q, 1, |rounds|
  {
    if rounds == [] then None else
    var a, next := Observe(q, s, rounds[0].body), rounds[0].next;
    if a.None? then None
    else if GoesOn(a.value, policy, k, next) then
      var delay := ComputeRetryDelay(k, policy, next.dynamic, next.random);
      if delay.Failure? || !(0.0 <= next.random < 1.0) then None
      else
        var rest := ObserveRounds(q, policy, budget, k + 1, a.value.settle + delay.value, rounds[1..]);
        if rest.None? then None else Some(Then(AfterCharge(a.value, budget), rest.value))
    else if |rounds| == 1 then LastRound(a.value, policy, budget, k, next)
    else None
  }

  ghost function ObserveStaggered(q: Policy, after: real, s: real, i: nat, trs: seq<Trace>): Option<seq<Obs>>
    decreases q, 1, |trs|
  {
    if trs == [] then Some([])
    else
      var a := Observe(q, HedgeStart(s, after, i), trs[0]);
      var b := ObserveStaggered(q, after, s, i + 1, trs[1..]);
      if a.None? || b.None? then None else Some([a.value] + b.value)
  }
}
