/**
 * The exporter's circuit, read off the settled calls: when it opens, how long it keeps
 * queued events from the exporter, and when it closes again.
 */
module ExporterCircuits {
  import opened Wrappers
  import opened Exporter

  /** Closed, open since a failed call, or trying one event. */
  datatype Phase = Shut | OpenSince(at: int) | Trying

  /** The exporter call under way settles. */
  predicate CallSettles<T>(s: State<T>, e: Event<T>) {
    e.DoSettle? && s.drain.Exporting?
  }

  /** How many exporter calls have failed since one last succeeded. */
  function FailuresInRow<T>(es: seq<Event<T>>, o: Opts): nat
    decreases |es|
  {
    if es == [] then 0
    else
      var e, earlier := es[|es| - 1], FailuresInRow(es[..|es| - 1], o);
      if !CallSettles(Run(es[..|es| - 1], o), e) then earlier else if e.ok then 0 else earlier + 1
  }

  /**
   * The circuit as the run alone tells it: a failed call opens it when it was a trial or
   * completes `failureThreshold` failures in a row, a call made while it is open is a
   * trial, and a successful call closes it.
   */
  function Circuit<T>(es: seq<Event<T>>, o: Opts): Phase
    decreases |es|
  {
    if es == [] then Shut
    else
      var front, e, earlier := es[..|es| - 1], es[|es| - 1], Circuit(es[..|es| - 1], o);
      if CallSettles(Run(front, o), e) then
        if e.ok then Shut
        else if earlier.Trying? || FailuresInRow(front, o) + 1 >= o.failureThreshold then OpenSince(e.now)
        else earlier
      else if earlier.OpenSince? && |Run(es, o).calls| > |Run(front, o).calls| then Trying
      else earlier
  }

  /** The circuit keeps events from the exporter at `now`. */
  predicate Withholds(phase: Phase, now: int, o: Opts) {
    phase.OpenSince? && now < phase.at + o.openForMs
  }

  predicate Agrees<T>(s: State<T>, phase: Phase, o: Opts) {
    match phase
    case Shut => s.mode.Closed?
    case OpenSince(at) => s.mode.Open? && s.openedUntil == at + o.openForMs
    case Trying => s.mode.HalfOpen?
  }

  lemma DrainAgrees<T>(s: State<T>, phase: Phase, now: int, o: Opts)
    requires Agrees(s, phase, o)
    ensures var t := DrainLoop(s, now);
            && Agrees(t, if phase.OpenSince? && |t.calls| > |s.calls| then Trying else phase, o)
            && t.failures == s.failures
            && (s.queue != [] ==>
                  && t.queue == s.queue[1..]
                  && (Withholds(phase, now, o) ==>
                        t.calls == s.calls && t.dropped == s.dropped + 1 && t.drain.Resuming?)
                  && (!Withholds(phase, now, o) ==>
                        && |t.calls| == |s.calls| + 1 && t.calls[..|s.calls|] == s.calls
                        && t.calls[|s.calls|].offer == s.queue[0].offer && t.calls[|s.calls|].now == now
                        && t.drain == Exporting(s.queue[0]) && t.dropped == s.dropped))
  {
  }

  /** Making room touches the circuit and the calls not at all. */
  lemma {:induction false} RoomKeepsCircuit<T>(s: State<T>, bytes: nat, o: Opts)
    ensures var t := MakeRoomForBytes(s, bytes, o);
            t.mode == s.mode && t.openedUntil == s.openedUntil && t.failures == s.failures && t.calls == s.calls
            && t.drain == s.drain
    decreases |s.queue|
  {
    if !Fits(o, s.queuedBytes + bytes) && s.queue != [] { RoomKeepsCircuit(DropOldest(s), bytes, o); }
  }

  lemma OfferAgrees<T>(s: State<T>, event: T, bytes: nat, now: int, phase: Phase, o: Opts)
    requires Agrees(s, phase, o)
    ensures var t := Offer(s, event, bytes, now, o);
            && Agrees(t, if phase.OpenSince? && |t.calls| > |s.calls| then Trying else phase, o)
            && t.failures == s.failures
  {
    var u := s.(offers := s.offers + [event]);
    if !Refused(o, bytes) {
      RoomKeepsCircuit(if |u.queue| >= o.maxItems && u.queue != [] then DropOldest(u) else u, bytes, o);
      var w := Enqueue(MakeRoom(u, bytes, o), Item(|s.offers|, event, bytes));
      DrainAgrees(w, phase, now, o);
    }
  }

  lemma SettleAgrees<T>(s: State<T>, ok: bool, now: int, phase: Phase, o: Opts)
    requires Agrees(s, phase, o) && s.drain.Exporting? && !s.mode.Open?
    ensures var t := Settle(s, ok, now, o);
            && t.failures == (if ok then 0 else s.failures + 1)
            && Agrees(t, if ok then Shut
                         else if phase.Trying? || s.failures + 1 >= o.failureThreshold then OpenSince(now)
                         else phase, o)
  {
  }

  /** Over every run the variables say what the settled calls say. */
  lemma {:induction false} RunAgrees<T>(es: seq<Event<T>>, o: Opts)
    ensures Agrees(Run(es, o), Circuit(es, o), o) && Run(es, o).failures == FailuresInRow(es, o)
    decreases |es|
  {
    if es != [] {
      var front, e := es[..|es| - 1], es[|es| - 1];
      var s := Run(front, o);
      RunAgrees(front, o);
      RunKeeps(front, o);
      match e
      case DoOffer(event, bytes, now) => OfferAgrees(s, event, bytes, now, Circuit(front, o), o);
      case DoSettle(ok, now) => if s.drain.Exporting? { SettleAgrees(s, ok, now, Circuit(front, o), o); }
      case DoResume(now) => if s.drain.Resuming? { DrainAgrees(s, Circuit(front, o), now, o); }
      case DoDrop =>
    }
  }

  /**
   * The next queued event reaches the exporter exactly when the circuit does not withhold
   * it: it is dropped unsent if and only if the circuit is open and it comes less than
   * `openForMs` after the failed call that opened it.
   */
  lemma {:induction false} QueuedEventExactly<T>(es: seq<Event<T>>, now: int, o: Opts)
    requires Run(es, o).drain.Resuming? && Run(es, o).queue != []
    ensures var s, t := Run(es, o), Step(Run(es, o), DoResume(now), o);
            && t.queue == s.queue[1..]
            && (Withholds(Circuit(es, o), now, o) ==> t.calls == s.calls && t.dropped == s.dropped + 1)
            && (!Withholds(Circuit(es, o), now, o) ==>
                  |t.calls| == |s.calls| + 1 && t.drain == Exporting(s.queue[0]) && t.dropped == s.dropped)
  {
    RunAgrees(es, o);
    DrainAgrees(Run(es, o), Circuit(es, o), now, o);
  }

  /** An event that fits the queue at all: it holds items and bytes, and this many bytes. */
  predicate FitsAtAll(o: Opts, bytes: nat) {
    o.maxItems >= 1 && (o.maxBytes.None? || (o.maxBytes.value >= 1 && bytes <= o.maxBytes.value))
  }

  /** An event that does not fit at all is dropped on its own. */
  lemma UnfitIsDropped<T>(s: State<T>, event: T, bytes: nat, now: int, o: Opts)
    requires !FitsAtAll(o, bytes)
    ensures Offer(s, event, bytes, now, o) == s.(offers := s.offers + [event], dropped := s.dropped + 1)
  {
  }

  /** The same for an event offered to an idle exporter: it is sent at once unless the circuit withholds it. */
  lemma {:induction false} OfferedEventExactly<T>(es: seq<Event<T>>, event: T, bytes: nat, now: int, o: Opts)
    requires Run(es, o).drain.Idle? && FitsAtAll(o, bytes)
    ensures var s, t := Run(es, o), Step(Run(es, o), DoOffer(event, bytes, now), o);
            && t.queue == []
            && (Withholds(Circuit(es, o), now, o) ==> t.calls == s.calls && t.dropped == s.dropped + 1)
            && (!Withholds(Circuit(es, o), now, o) ==>
                  && |t.calls| == |s.calls| + 1 && t.dropped == s.dropped
                  && t.drain == Exporting(Item(|s.offers|, event, bytes)))
  {
    var s := Run(es, o);
    RunAgrees(es, o);
    RunKeeps(es, o);
    var u := s.(offers := s.offers + [event]);
    assert s.queue == [] && MakeRoom(u, bytes, o) == u;
    DrainAgrees(Enqueue(u, Item(|s.offers|, event, bytes)), Circuit(es, o), now, o);
  }

  /** An offer behind a running drain only queues: no call is made and the circuit stays. */
  lemma {:induction false} BusyOfferWaits<T>(es: seq<Event<T>>, event: T, bytes: nat, now: int, o: Opts)
    requires !Run(es, o).drain.Idle?
    ensures var s, t := Run(es, o), Step(Run(es, o), DoOffer(event, bytes, now), o);
            && t.calls == s.calls && t.drain == s.drain
            && (FitsAtAll(o, bytes) ==> t.queue != [] && t.queue[|t.queue| - 1] == Item(|s.offers|, event, bytes))
  {
    var u := Run(es, o).(offers := Run(es, o).offers + [event]);
    if !Refused(o, bytes) {
      RoomKeepsCircuit(if |u.queue| >= o.maxItems && u.queue != [] then DropOldest(u) else u, bytes, o);
    }
  }
}
