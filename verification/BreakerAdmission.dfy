/**
 * What the circuit breaker must do with every call, read off the calls and settlements
 * before it: a closed circuit refuses nothing, an open one refuses until its time and then
 * probes, and a half-open one admits exactly the probes it has room for.
 */
module BreakerAdmission {
  import opened Wrappers
  import opened CircuitBreaker

  /** Where the circuit stands: closed, open since a failure, or probing in an epoch. */
  datatype Phase = Shut | OpenSince(at: int) | Probing(epoch: nat)

  datatype Reading = Reading(phase: Phase, epochs: nat)

  /** What one entry of the history means, `failures` being those to count before it. */
  function Next(r: Reading, f: Fact, failures: nat, opts: Opts): Reading {
    match f
    case Started(_, _, _, _) =>
      if r.phase.OpenSince? then Reading(Probing(r.epochs + 1), r.epochs + 1) else r
    case Refused(why, _, _) =>
      if r.phase.OpenSince? && why.RefusedHalfOpen? then Reading(Probing(r.epochs + 1), r.epochs + 1) else r
    case Settled(tag, s, now, _, _) =>
      match s
      case WasCancelled => r
      case Succeeded => if tag > 0 && r.phase == Probing(tag) then r.(phase := Shut) else r
      case Threw =>
        if tag > 0 then (if tag == r.epochs then r.(phase := OpenSince(now)) else r)
        else if r.phase.Shut? && failures + 1 >= opts.failureThreshold then r.(phase := OpenSince(now))
        else r
  }

  /** The circuit as the history alone tells it. */
  function Read(h: seq<Fact>, opts: Opts): Reading {
    if h == [] then Reading(Shut, 0)
    else Next(Read(h[..|h| - 1], opts), h[|h| - 1], FailuresSince(h[..|h| - 1]), opts)
  }

  /** The verdict the history asks for. */
  function Due(r: Reading, probes: nat, now: int, opts: Opts): Admission {
    match r.phase
    case Shut => Admitted(0)
    case OpenSince(at) =>
      if now < at + opts.resetAfterMs then RefusedOpen
      else if opts.halfOpenMaxCalls >= 1 then Admitted(r.epochs + 1)
      else RefusedHalfOpen
    case Probing(e) => if probes < opts.halfOpenMaxCalls then Admitted(e) else RefusedHalfOpen
  }

  /** The variables say what the history says. */
  predicate Agrees(v: Vars, r: Reading, opts: Opts) {
    && v.epoch == r.epochs
    && match r.phase
       case Shut => v.mode.Closed?
       case OpenSince(at) => v.mode.Open? && v.openedUntil == at + opts.resetAfterMs
       case Probing(e) => v.mode.HalfOpen? && e == v.epoch
  }

  lemma EnterAgrees(v: Vars, r: Reading, now: int, probes: nat, opts: Opts)
    requires Agrees(v, r, opts) && (v.mode.HalfOpen? ==> probes == v.admitted)
    ensures Enter(v, now, opts).1 == Due(r, probes, now, opts)
    ensures var (w, why) := Enter(v, now, opts);
            forall f: Fact, failures ::
              (if why.Admitted? then f.Started? else f.Refused? && f.why == why) ==>
                Agrees(w, Next(r, f, failures, opts), opts)
  {
  }

  lemma LeaveAgrees(v: Vars, r: Reading, tag: nat, s: Settlement, now: int, failures: nat, opts: Opts)
    requires Agrees(v, r, opts) && (v.mode.Closed? ==> v.failures == failures)
    ensures forall f: Fact | f.Settled? && f.tag == tag && f.s == s && f.now == now ::
              Agrees(Leave(v, tag, s, now, opts), Next(r, f, failures, opts), opts)
  {
  }

  lemma ReadAppended(h: seq<Fact>, f: Fact, opts: Opts)
    ensures Read(h + [f], opts) == Next(Read(h, opts), f, FailuresSince(h), opts)
  {
    assert (h + [f])[..|h|] == h;
  }

  lemma StepAgrees(y: System, e: Event, opts: Opts)
    requires Invariant(y, opts) && Agrees(y.vars, Read(y.history, opts), opts)
    ensures Agrees(Step(y, e, opts).vars, Read(Step(y, e, opts).history, opts), opts)
  {
    var z, r := Step(y, e, opts), Read(y.history, opts);
    match e
    case Call(now) =>
      EnterAgrees(y.vars, r, now, Probes(y.history, y.vars.epoch), opts);
      ReadAppended(y.history, z.history[|y.history|], opts);
    case Settle(call, s, now) =>
      if call in y.inFlight {
        LeaveAgrees(y.vars, r, y.inFlight[call], s, now, FailuresSince(y.history), opts);
        ReadAppended(y.history, z.history[|y.history|], opts);
      }
  }

  /** Over every interleaving the variables say what the history says. */
  lemma {:induction false} RunAgrees(es: seq<Event>, opts: Opts)
    ensures var y := Run(START, es, opts); Agrees(y.vars, Read(y.history, opts), opts)
    decreases |es|
  {
    if es != [] {
      RunAgrees(es[..|es| - 1], opts);
      RunKeepsInvariant(es[..|es| - 1], opts);
      StepAgrees(Run(START, es[..|es| - 1], opts), es[|es| - 1], opts);
    }
  }

  /** What a call at `now` gets after `es`, read off the entry it leaves. */
  function Verdict(es: seq<Event>, now: int, opts: Opts): Admission {
    var h := Run(START, es + [Call(now)], opts).history;
    if h == [] then RefusedOpen
    else match h[|h| - 1]
         case Started(tag, _, _, _) => Admitted(tag)
         case Refused(why, _, _) => why
         case _ => RefusedOpen
  }

  /**
   * Over every interleaving each call gets exactly the verdict its history asks for: it is
   * refused as open if and only if the circuit is open since some `at` and it comes before
   * `at + resetAfterMs`; from then on it starts the first probe of a new epoch; while
   * probing it starts if and only if the epoch has started fewer than `halfOpenMaxCalls`;
   * and a closed circuit refuses nothing.
   */
  lemma {:induction false} AdmissionExactly(es: seq<Event>, now: int, opts: Opts)
    ensures var h := Run(START, es, opts).history;
            var r := Read(h, opts);
            Verdict(es, now, opts) == Due(r, Probes(h, r.epochs), now, opts)
  {
    var y := Run(START, es, opts);
    var all := es + [Call(now)];
    assert all[..|es|] == es;
    RunAgrees(es, opts);
    RunKeepsInvariant(es, opts);
    EnterAgrees(y.vars, Read(y.history, opts), now, Probes(y.history, y.vars.epoch), opts);
  }

  /** With room for probes, the first call at or after its time starts a body in an epoch no body has started in. */
  lemma {:induction false} OpenCircuitRecovers(es: seq<Event>, now: int, opts: Opts)
    requires var r := Read(Run(START, es, opts).history, opts);
             r.phase.OpenSince? && now >= r.phase.at + opts.resetAfterMs && opts.halfOpenMaxCalls >= 1
    ensures Verdict(es, now, opts).Admitted?
    ensures Verdict(es, now, opts).halfOpenEpoch >= 1
    ensures Probes(Run(START, es, opts).history, Verdict(es, now, opts).halfOpenEpoch) == 0
  {
    AdmissionExactly(es, now, opts);
    RunAgrees(es, opts);
    RunKeepsInvariant(es, opts);
  }
}
