/**
 * `run.circuitBreaker` (packages/core/src/run/index.ts, lines 385-442): many calls in
 * flight over four shared variables, settling in any order. A half-open probe carries the
 * epoch it was admitted in, so a stale settlement cannot move the circuit.
 */
module CircuitBreaker {
  import opened Wrappers

  datatype Mode = Closed | Open | HalfOpen

  datatype Opts = Opts(failureThreshold: int, resetAfterMs: nat, halfOpenMaxCalls: int)

  /** The variables the wrapper shares between calls. */
  datatype Vars = Vars(mode: Mode, failures: nat, openedUntil: int, epoch: nat, admitted: nat)

  datatype Admission = RefusedOpen | RefusedHalfOpen | Admitted(halfOpenEpoch: nat)

  datatype Settlement = Succeeded | Threw | WasCancelled

  const INITIAL := Vars(Closed, 0, 0, 0, 0)

  // ---- One call ------------------------------------------------------------------------

  /** The synchronous part before the body starts. */
  function Enter(v: Vars, now: int, opts: Opts): (Vars, Admission) {
    if v.mode.Open? && now < v.openedUntil then (v, RefusedOpen)
    else
      var w := if v.mode.Open? then v.(mode := HalfOpen, epoch := v.epoch + 1, admitted := 0) else v;
      if w.mode.HalfOpen? && w.admitted >= opts.halfOpenMaxCalls then (w, RefusedHalfOpen)
      else if w.mode.HalfOpen? then (w.(admitted := w.admitted + 1), Admitted(w.epoch))
      else (w, Admitted(0))
  }

  function Opened(v: Vars, now: int, opts: Opts): Vars {
    v.(mode := Open, openedUntil := now + opts.resetAfterMs)
  }

  function ClosedAgain(v: Vars): Vars {
    v.(mode := Closed, failures := 0)
  }

  /** The synchronous part after the body of a call admitted with `tag` has settled. */
  function Leave(v: Vars, tag: nat, s: Settlement, now: int, opts: Opts): Vars {
    match s
    case WasCancelled => v
    case Succeeded =>
      if tag > 0 then (if v.mode.HalfOpen? && v.epoch == tag then ClosedAgain(v) else v)
      else if v.mode.Closed? then ClosedAgain(v) else v
    case Threw =>
      if tag > 0 then (if tag == v.epoch then Opened(v, now, opts) else v)
      else if v.mode.Closed? then
        var w := v.(failures := v.failures + 1);
        if w.failures >= opts.failureThreshold then Opened(w, now, opts) else w
      else v
  }

  /** The closure's variables, updated in place. */
  class Breaker {
    const opts: Opts
    var mode: Mode
    var failures: nat
    var openedUntil: int
    var epoch: nat
    var admitted: nat

    constructor (opts: Opts)
      ensures this.opts == opts && Now() == INITIAL
    {
      this.opts := opts;
      mode, failures, openedUntil, epoch, admitted := Closed, 0, 0, 0, 0;
    }

    function Now(): Vars
      reads this
    {
      Vars(mode, failures, openedUntil, epoch, admitted)
    }

    method Trip(now: int)
      modifies `mode, `openedUntil
      ensures Now() == Opened(old(Now()), now, opts)
    {
      mode := Open;
      openedUntil := now + opts.resetAfterMs;
    }

    method Close()
      modifies `mode, `failures
      ensures Now() == ClosedAgain(old(Now()))
    {
      mode := Closed;
      failures := 0;
    }

    method BeginCall(now: int) returns (r: Admission)
      modifies this
      ensures (Now(), r) == Enter(old(Now()), now, opts)
    {
      if mode == Open {
        if now < openedUntil { return RefusedOpen; }
        mode := HalfOpen;
        epoch := epoch + 1;
        admitted := 0;
      }
      if mode == HalfOpen && admitted >= opts.halfOpenMaxCalls { return RefusedHalfOpen; }
      var halfOpenEpoch := if mode == HalfOpen then epoch else 0;
      if mode == HalfOpen { admitted := admitted + 1; }
      return Admitted(halfOpenEpoch);
    }

    method EndCall(halfOpenEpoch: nat, s: Settlement, now: int)
      modifies this
      ensures Now() == Leave(old(Now()), halfOpenEpoch, s, now, opts)
    {
      if s == Succeeded {
        if halfOpenEpoch > 0 {
          if mode == HalfOpen && epoch == halfOpenEpoch { Close(); }
        } else if mode == Closed {
          Close();
        }
      } else if s == Threw {
        if halfOpenEpoch > 0 {
          if halfOpenEpoch == epoch { Trip(now); }
        } else if mode == Closed {
          failures := failures + 1;
          if failures >= opts.failureThreshold { Trip(now); }
        }
      }
    }
  }

  // ---- Runs ----------------------------------------------------------------------------

  /** The environment calls, or lets the body of call number `call` settle. */
  datatype Event = Call(now: int) | Settle(call: nat, s: Settlement, now: int)

  datatype Fact =
    | Refused(why: Admission, before: Vars, after: Vars)
    | Started(tag: nat, now: int, before: Vars, after: Vars)
    | Settled(tag: nat, s: Settlement, now: int, before: Vars, after: Vars)

  /** The wrapper, the calls in flight with their epochs, and what has happened. */
  datatype System = System(vars: Vars, calls: nat, inFlight: map<nat, nat>, history: seq<Fact>)

  const START := System(INITIAL, 0, map[], [])

  function Step(y: System, e: Event, opts: Opts): System {
    match e
    case Call(now) =>
      var (v, r) := Enter(y.vars, now, opts);
      if r.Admitted?
      then System(v, y.calls + 1, y.inFlight[y.calls := r.halfOpenEpoch],
                  y.history + [Started(r.halfOpenEpoch, now, y.vars, v)])
      else y.(vars := v, history := y.history + [Refused(r, y.vars, v)])
    case Settle(call, s, now) =>
      if call !in y.inFlight then y
      else
        var v := Leave(y.vars, y.inFlight[call], s, now, opts);
        System(v, y.calls, y.inFlight - {call}, y.history + [Settled(y.inFlight[call], s, now, y.vars, v)])
  }

  function Run(y: System, es: seq<Event>, opts: Opts): System
    decreases |es|
  {
    if es == [] then y else Step(Run(y, es[..|es| - 1], opts), es[|es| - 1], opts)
  }

  /** How many bodies the history started in half-open epoch e. */
  function Probes(h: seq<Fact>, e: nat): nat {
    if h == [] then 0
    else Probes(h[..|h| - 1], e) + (if h[|h| - 1].Started? && h[|h| - 1].tag == e then 1 else 0)
  }

  /** A settlement that moves a circuit that is not closed to closed. */
  predicate Closes(f: Fact) {
    f.Settled? && !f.before.mode.Closed? && f.after.mode.Closed?
  }

  /**
   * Failures of closed-admitted calls since the circuit last closed or a closed-admitted
   * call last succeeded, read off the history.
   */
  function FailuresSince(h: seq<Fact>): nat {
    if h == [] then 0
    else
      var f, earlier := h[|h| - 1], h[..|h| - 1];
      if Closes(f) || (f.Settled? && f.tag == 0 && f.s.Succeeded?) then 0
      else FailuresSince(earlier) + (if f.Settled? && f.tag == 0 && f.s.Threw? then 1 else 0)
  }

  /** No half-open epoch has started too many probes, and none of the future any. */
  ghost predicate ProbesCounted(y: System, opts: Opts) {
    && (forall e | e > y.vars.epoch :: Probes(y.history, e) == 0)
    && (forall e | 1 <= e :: Probes(y.history, e) <= if opts.halfOpenMaxCalls > 0 then opts.halfOpenMaxCalls else 0)
    && (y.vars.mode.HalfOpen? ==> y.vars.epoch >= 1 && Probes(y.history, y.vars.epoch) == y.vars.admitted)
  }

  ghost predicate FailuresCounted(y: System, opts: Opts) {
    y.vars.mode.Closed? ==>
      && y.vars.failures == FailuresSince(y.history)
      && (opts.failureThreshold >= 1 ==> y.vars.failures < opts.failureThreshold)
  }

  ghost predicate Invariant(y: System, opts: Opts) {
    && ProbesCounted(y, opts)
    && FailuresCounted(y, opts)
    && (forall c | c in y.inFlight :: y.inFlight[c] <= y.vars.epoch)
  }

  lemma ProbesAppended(h: seq<Fact>, f: Fact, e: nat)
    ensures Probes(h + [f], e) == Probes(h, e) + (if f.Started? && f.tag == e then 1 else 0)
  {
    assert (h + [f])[..|h|] == h;
  }

  lemma CallKeepsProbes(y: System, now: int, opts: Opts)
    requires ProbesCounted(y, opts)
    ensures ProbesCounted(Step(y, Call(now), opts), opts)
  {
    var z := Step(y, Call(now), opts);
    forall e: nat ensures Probes(z.history, e) == Probes(y.history, e)
                          + (if Enter(y.vars, now, opts).1 == Admitted(e) then 1 else 0)
    {
      ProbesAppended(y.history, z.history[|y.history|], e);
    }
  }

  lemma SettleKeepsProbes(y: System, call: nat, s: Settlement, now: int, opts: Opts)
    requires ProbesCounted(y, opts)
    ensures ProbesCounted(Step(y, Settle(call, s, now), opts), opts)
  {
    var z := Step(y, Settle(call, s, now), opts);
    if call in y.inFlight {
      forall e: nat ensures Probes(z.history, e) == Probes(y.history, e) {
        ProbesAppended(y.history, z.history[|y.history|], e);
      }
    }
  }

  lemma StepKeepsProbes(y: System, e: Event, opts: Opts)
    requires ProbesCounted(y, opts)
    ensures ProbesCounted(Step(y, e, opts), opts)
  {
    match e
    case Call(now) => CallKeepsProbes(y, now, opts);
    case Settle(call, s, now) => SettleKeepsProbes(y, call, s, now, opts);
  }

  lemma StepKeepsFailures(y: System, e: Event, opts: Opts)
    requires FailuresCounted(y, opts)
    ensures FailuresCounted(Step(y, e, opts), opts)
  {
    var z := Step(y, e, opts);
    if z.history != y.history { assert z.history[..|z.history| - 1] == y.history; }
  }

  lemma StepKeepsInvariant(y: System, e: Event, opts: Opts)
    requires Invariant(y, opts)
    ensures Invariant(Step(y, e, opts), opts)
  {
    StepKeepsProbes(y, e, opts);
    StepKeepsFailures(y, e, opts);
  }

  lemma {:induction false} RunKeepsInvariant(es: seq<Event>, opts: Opts)
    ensures Invariant(Run(START, es, opts), opts)
    decreases |es|
  {
    if es != [] {
      RunKeepsInvariant(es[..|es| - 1], opts);
      StepKeepsInvariant(Run(START, es[..|es| - 1], opts), es[|es| - 1], opts);
    }
  }

  /** Over every interleaving, each half-open epoch starts at most `halfOpenMaxCalls` bodies. */
  lemma {:induction false} ProbesBounded(es: seq<Event>, opts: Opts, epoch: nat)
    requires epoch >= 1
    ensures Probes(Run(START, es, opts).history, epoch)
         <= if opts.halfOpenMaxCalls > 0 then opts.halfOpenMaxCalls else 0
  {
    RunKeepsInvariant(es, opts);
  }

  /**
   * While the circuit is closed its counter is the number of failures the history asks
   * for, and below the threshold, however stale settlements interleave.
   */
  lemma {:induction false} CounterIsFailuresSince(es: seq<Event>, opts: Opts)
    requires Run(START, es, opts).vars.mode.Closed?
    ensures var y := Run(START, es, opts);
            && y.vars.failures == FailuresSince(y.history)
            && (opts.failureThreshold >= 1 ==> y.vars.failures < opts.failureThreshold)
  {
    RunKeepsInvariant(es, opts);
  }

  /** A settlement that opens the circuit, or opens it again. */
  predicate OpensCircuit(v: Vars, tag: nat, s: Settlement, opts: Opts) {
    && s.Threw?
    && (if tag > 0 then tag == v.epoch else v.mode.Closed? && v.failures + 1 >= opts.failureThreshold)
  }

  predicate Opens(f: Fact, opts: Opts) {
    f.Settled? && OpensCircuit(f.before, f.tag, f.s, opts)
  }

  /** When the circuit was last opened, if no body has started since. */
  function OpenedAt(h: seq<Fact>, opts: Opts): Option<int> {
    if h == [] then None
    else
      var f := h[|h| - 1];
      if f.Started? then None
      else if Opens(f, opts) then Some(f.now)
      else OpenedAt(h[..|h| - 1], opts)
  }

  /**
   * With `since`, when the circuit was last opened and no body has started since, the
   * circuit is open, or half-open without room for a probe.
   */
  predicate OpeningIs(v: Vars, since: Option<int>, opts: Opts) {
    && (v.mode.Open? ==> since.Some?)
    && (since.Some? ==>
          && v.openedUntil == since.value + opts.resetAfterMs
          && (v.mode.Open? || (v.mode.HalfOpen? && v.admitted >= opts.halfOpenMaxCalls)))
  }

  lemma EnterOpening(v: Vars, now: int, since: Option<int>, opts: Opts)
    requires OpeningIs(v, since, opts)
    ensures var (w, r) := Enter(v, now, opts); OpeningIs(w, if r.Admitted? then None else since, opts)
  {
  }

  lemma LeaveOpening(v: Vars, tag: nat, s: Settlement, now: int, since: Option<int>, opts: Opts)
    requires OpeningIs(v, since, opts) && (since.Some? && v.mode.HalfOpen? ==> tag < v.epoch)
    ensures OpeningIs(Leave(v, tag, s, now, opts), if OpensCircuit(v, tag, s, opts) then Some(now) else since, opts)
  {
  }

  /** No call in flight carries an epoch that is still to come. */
  ghost predicate EpochsPast(y: System) {
    forall c | c in y.inFlight :: y.inFlight[c] <= y.vars.epoch
  }

  /** Half-open without a probe in flight, as long as the last opening is not followed by a start. */
  ghost predicate NoProbeOut(y: System, opts: Opts) {
    OpenedAt(y.history, opts).Some? && y.vars.mode.HalfOpen? ==>
      forall c | c in y.inFlight :: y.inFlight[c] < y.vars.epoch
  }

  ghost predicate OpeningKnown(y: System, opts: Opts) {
    EpochsPast(y) && NoProbeOut(y, opts) && OpeningIs(y.vars, OpenedAt(y.history, opts), opts)
  }

  lemma OpenedAppended(h: seq<Fact>, f: Fact, opts: Opts)
    ensures OpenedAt(h + [f], opts) ==
            if f.Started? then None else if Opens(f, opts) then Some(f.now) else OpenedAt(h, opts)
  {
    assert (h + [f])[..|h|] == h;
  }

  lemma CallKeepsOpening(y: System, now: int, opts: Opts)
    requires OpeningKnown(y, opts)
    ensures OpeningKnown(Step(y, Call(now), opts), opts)
  {
    var (v, r) := Enter(y.vars, now, opts);
    EnterOpening(y.vars, now, OpenedAt(y.history, opts), opts);
    var f := if r.Admitted? then Started(r.halfOpenEpoch, now, y.vars, v) else Refused(r, y.vars, v);
    OpenedAppended(y.history, f, opts);
  }

  lemma SettleKeepsOpening(y: System, call: nat, s: Settlement, now: int, opts: Opts)
    requires OpeningKnown(y, opts) && call in y.inFlight
    ensures OpeningKnown(Step(y, Settle(call, s, now), opts), opts)
  {
    var tag := y.inFlight[call];
    LeaveOpening(y.vars, tag, s, now, OpenedAt(y.history, opts), opts);
    OpenedAppended(y.history, Settled(tag, s, now, y.vars, Leave(y.vars, tag, s, now, opts)), opts);
  }

  lemma StepKeepsOpening(y: System, e: Event, opts: Opts)
    requires OpeningKnown(y, opts)
    ensures OpeningKnown(Step(y, e, opts), opts)
  {
    match e
    case Call(now) => CallKeepsOpening(y, now, opts);
    case Settle(call, s, now) => if call in y.inFlight { SettleKeepsOpening(y, call, s, now, opts); }
  }

  /**
   * What may precede an entry f of the history: a body that starts while the circuit is
   * open starts at least `resetAfterMs` after the failure that last opened it, and no body
   * has started in between; the circuit closes exactly by a success of the current epoch
   * while half-open.
   */
  ghost predicate LawfulAfter(h: seq<Fact>, f: Fact, opts: Opts) {
    && (f.Started? && f.before.mode.Open? ==> OpenedAt(h, opts).Some?)
    && (f.Started? && OpenedAt(h, opts).Some? ==> f.now >= OpenedAt(h, opts).value + opts.resetAfterMs)
    && (Closes(f) <==> f.Settled? && f.before.mode.HalfOpen? && f.s.Succeeded? && f.tag == f.before.epoch)
    && (!f.Settled? ==> !f.before.mode.Closed? ==> !f.after.mode.Closed?)
  }

  lemma {:induction false} RunKeepsOpening(es: seq<Event>, opts: Opts)
    ensures OpeningKnown(Run(START, es, opts), opts)
    decreases |es|
  {
    if es != [] {
      RunKeepsOpening(es[..|es| - 1], opts);
      StepKeepsOpening(Run(START, es[..|es| - 1], opts), es[|es| - 1], opts);
    }
  }

  /** A step that makes an entry makes a lawful one. */
  lemma StepIsLawful(y: System, e: Event, opts: Opts)
    requires Invariant(y, opts) && OpeningKnown(y, opts)
    ensures var z := Step(y, e, opts);
            z.history == y.history
            || (|z.history| == |y.history| + 1 && z.history[..|y.history|] == y.history
                && LawfulAfter(y.history, z.history[|y.history|], opts))
  {
  }

  /** Over every interleaving each entry of the history is lawful after those before it. */
  lemma {:induction false} HistoryIsLawful(es: seq<Event>, opts: Opts, i: nat)
    requires i < |Run(START, es, opts).history|
    ensures LawfulAfter(Run(START, es, opts).history[..i], Run(START, es, opts).history[i], opts)
    decreases |es|
  {
    var front := es[..|es| - 1];
    var y, h := Run(START, front, opts), Run(START, es, opts).history;
    RunKeepsInvariant(front, opts);
    RunKeepsOpening(front, opts);
    StepIsLawful(y, es[|es| - 1], opts);
    if i < |y.history| {
      HistoryIsLawful(front, opts, i);
      assert h[..i] == h[..|y.history|][..i] && h[i] == h[..|y.history|][i];
    } else {
      assert h[..i] == y.history;
    }
  }

  /** A probe of the current epoch fails. */
  predicate ProbeFails(y: System, e: Event) {
    e.Settle? && e.s.Threw? && e.call in y.inFlight && y.inFlight[e.call] == y.vars.epoch && y.vars.epoch >= 1
  }

  lemma {:induction false} EpochStaysFailed(y: System, es: seq<Event>, opts: Opts, epoch: nat)
    requires y.vars.epoch == epoch && y.vars.mode.Open?
    ensures var z := Run(y, es, opts);
            z.vars.epoch >= epoch && (z.vars.epoch == epoch ==> z.vars.mode.Open?)
    decreases |es|
  {
    if es != [] { EpochStaysFailed(y, es[..|es| - 1], opts, epoch); }
  }

  /**
   * After a probe of the current epoch has failed, no settlement of that epoch, of an
   * earlier one, or of a call admitted while closed ever closes the circuit again.
   */
  lemma {:induction false} FailedEpochNeverCloses(
    before: seq<Event>, failure: Event, later: seq<Event>, last: Event, opts: Opts)
    requires ProbeFails(Run(START, before, opts), failure)
    requires var z := Run(Step(Run(START, before, opts), failure, opts), later, opts);
             && last.Settle? && last.call in z.inFlight
             && z.inFlight[last.call] <= Run(START, before, opts).vars.epoch
    ensures var z := Run(Step(Run(START, before, opts), failure, opts), later, opts);
            !z.vars.mode.Closed? ==> !Step(z, last, opts).vars.mode.Closed?
  {
    EpochStaysFailed(Step(Run(START, before, opts), failure, opts), later, opts, Run(START, before, opts).vars.epoch);
  }
}
