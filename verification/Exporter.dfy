/**
 * The telemetry exporter (packages/core/src/observability/index.ts, lines 205-314): a
 * drop-oldest queue bounded by items and bytes, drained one event at a time into a
 * caller-supplied exporter behind a circuit breaker.
 *
 * One step is one synchronous stretch. Clock, byte estimates and state-change callbacks
 * are assumed to return normally; the exporter itself may fail.
 */
module Exporter {
  import opened Wrappers

  datatype Mode = Closed | Open | HalfOpen

  /** `maxBytes` is None for the default, no bound. */
  datatype Opts = Opts(failureThreshold: int, openForMs: nat, maxItems: int, maxBytes: Option<nat>)

  /** A queued event: the offer it came from and its estimated size. */
  datatype Item<T> = Item(offer: nat, event: T, bytes: nat)

  /** Where the drain loop is suspended. */
  datatype Drain<T> = Idle | Exporting(item: Item<T>) | Resuming

  /** One call of the caller's exporter, with the circuit it saw. */
  datatype Call = Call(offer: nat, now: int, mode: Mode, openedUntil: int)

  /** `offers` lists the events offered; `filtered` counts events dropped before export. */
  datatype State<T> = State(
    mode: Mode, failures: nat, openedUntil: int, exported: nat, dropped: nat, drain: Drain<T>,
    queuedBytes: int, queue: seq<Item<T>>, offers: seq<T>, filtered: nat, calls: seq<Call>, settled: nat)

  function Init<T>(): State<T> {
    State(Closed, 0, 0, 0, 0, Idle, 0, [], [], 0, [], 0)
  }

  predicate Fits(o: Opts, bytes: int) {
    o.maxBytes.None? || bytes <= o.maxBytes.value
  }

  predicate Refused(o: Opts, bytes: nat) {
    o.maxItems < 1 || !Fits(o, 1) || !Fits(o, bytes)
  }

  function DropOldest<T>(s: State<T>): State<T>
    requires s.queue != []
  {
    s.(queue := s.queue[1..], queuedBytes := s.queuedBytes - s.queue[0].bytes, dropped := s.dropped + 1)
  }

  function MakeRoomForBytes<T>(s: State<T>, bytes: nat, o: Opts): State<T>
    decreases |s.queue|
  {
    if !Fits(o, s.queuedBytes + bytes) && s.queue != [] then MakeRoomForBytes(DropOldest(s), bytes, o) else s
  }

  function MakeRoom<T>(s: State<T>, bytes: nat, o: Opts): State<T> {
    MakeRoomForBytes(if |s.queue| >= o.maxItems && s.queue != [] then DropOldest(s) else s, bytes, o)
  }

  function Enqueue<T>(s: State<T>, item: Item<T>): State<T> {
    s.(queue := s.queue + [item], queuedBytes := s.queuedBytes + item.bytes)
  }

  /** The drain loop up to its next await. */
  function DrainLoop<T>(s: State<T>, now: int): State<T> {
    if s.queue == [] then s.(drain := Idle)
    else
      var item := s.queue[0];
      var t := s.(queue := s.queue[1..], queuedBytes := s.queuedBytes - item.bytes);
      if s.mode.Open? && now < s.openedUntil then t.(dropped := s.dropped + 1, drain := Resuming)
      else t.(mode := if s.mode.Open? then HalfOpen else s.mode, drain := Exporting(item),
              calls := s.calls + [Call(item.offer, now, s.mode, s.openedUntil)])
  }

  function Offer<T>(s: State<T>, event: T, bytes: nat, now: int, o: Opts): State<T> {
    var n, t := |s.offers|, s.(offers := s.offers + [event]);
    if Refused(o, bytes) then t.(dropped := s.dropped + 1)
    else
      var u := Enqueue(MakeRoom(t, bytes, o), Item(n, event, bytes));
      if u.drain.Idle? then DrainLoop(u, now) else u
  }

  /** The awaited exporter call settles. */
  function Settle<T>(s: State<T>, ok: bool, now: int, o: Opts): State<T> {
    if !s.drain.Exporting? then s
    else if ok then
      s.(exported := s.exported + 1, failures := 0, mode := Closed, drain := Resuming, settled := s.settled + 1)
    else
      var t := s.(dropped := s.dropped + 1, failures := s.failures + 1, drain := Resuming, settled := s.settled + 1);
      if s.mode.HalfOpen? || t.failures >= o.failureThreshold
      then t.(mode := Open, openedUntil := now + o.openForMs) else t
  }

  function Resume<T>(s: State<T>, now: int): State<T> {
    if s.drain.Resuming? then DrainLoop(s, now) else s
  }

  /** An event filtered by sampling or the sanitizer. */
  function Drop<T>(s: State<T>): State<T> {
    s.(dropped := s.dropped + 1, filtered := s.filtered + 1)
  }

  datatype Event<T> =
    | DoOffer(event: T, bytes: nat, now: int)
    | DoSettle(ok: bool, now: int)
    | DoResume(now: int)
    | DoDrop

  function Step<T>(s: State<T>, e: Event<T>, o: Opts): State<T> {
    match e
    case DoOffer(event, bytes, now) => Offer(s, event, bytes, now, o)
    case DoSettle(ok, now) => Settle(s, ok, now, o)
    case DoResume(now) => Resume(s, now)
    case DoDrop => Drop(s)
  }

  function Run<T>(es: seq<Event<T>>, o: Opts): State<T>
    decreases |es|
  {
    if es == [] then Init() else Step(Run(es[..|es| - 1], o), es[|es| - 1], o)
  }

  // ---- The closure, updated in place -------------------------------------------------------

  class ExporterCircuit<T> {
    const opts: Opts
    var mode: Mode
    var failures: nat
    var openedUntil: int
    var exported: nat
    var dropped: nat
    var drain: Drain<T>
    var queuedBytes: int
    var queue: seq<Item<T>>
    var offers: seq<T>
    var filtered: nat
    var calls: seq<Call>
    var settled: nat

    constructor (opts: Opts)
      ensures this.opts == opts && Now() == Init()
    {
      this.opts := opts;
      mode, failures, openedUntil, exported, dropped, drain := Closed, 0, 0, 0, 0, Idle;
      queuedBytes, queue, offers, filtered, calls, settled := 0, [], [], 0, [], 0;
    }

    function Now(): State<T>
      reads this
    {
      State(mode, failures, openedUntil, exported, dropped, drain, queuedBytes, queue, offers, filtered, calls, settled)
    }

    method Export(event: T, bytes: nat, now: int)
      modifies this
      ensures Now() == Offer(old(Now()), event, bytes, now, opts)
    {
      var n := |offers|;
      offers := offers + [event];
      if Refused(opts, bytes) {
        dropped := dropped + 1;
        return;
      }
      if |queue| >= opts.maxItems && |queue| > 0 { DropFirst(); }
      DropForBytes(bytes);
      queue := queue + [Item(n, event, bytes)];
      queuedBytes := queuedBytes + bytes;
      if drain.Idle? { ContinueDrain(now); }
    }

    method DropForBytes(bytes: nat)
      modifies this
      ensures Now() == MakeRoomForBytes(old(Now()), bytes, opts)
    {
      while !Fits(opts, queuedBytes + bytes) && |queue| > 0
        invariant MakeRoomForBytes(Now(), bytes, opts) == MakeRoomForBytes(old(Now()), bytes, opts)
        decreases |queue|
      {
        DropFirst();
      }
    }

    method DropFirst()
      requires |queue| > 0
      modifies this
      ensures Now() == DropOldest(old(Now()))
    {
      var item := queue[0];
      queue := queue[1..];
      queuedBytes := queuedBytes - item.bytes;
      dropped := dropped + 1;
    }

    method ContinueDrain(now: int)
      modifies this
      ensures Now() == DrainLoop(old(Now()), now)
    {
      if |queue| == 0 {
        drain := Idle;
        return;
      }
      var item := queue[0];
      queue := queue[1..];
      queuedBytes := queuedBytes - item.bytes;
      var before := mode;
      if mode == Open {
        if now < openedUntil {
          dropped := dropped + 1;
          drain := Resuming;
          return;
        }
        mode := HalfOpen;
      }
      calls := calls + [Call(item.offer, now, before, openedUntil)];
      drain := Exporting(item);
    }

    method OnSettled(ok: bool, now: int)
      requires drain.Exporting?
      modifies this
      ensures Now() == Settle(old(Now()), ok, now, opts)
    {
      settled := settled + 1;
      if ok {
        exported := exported + 1;
        failures := 0;
        mode := Closed;
      } else {
        dropped := dropped + 1;
        failures := failures + 1;
        if mode == HalfOpen || failures >= opts.failureThreshold {
          mode := Open;
          openedUntil := now + opts.openForMs;
        }
      }
      drain := Resuming;
    }

    method OnResumed(now: int)
      requires drain.Resuming?
      modifies this
      ensures Now() == Resume(old(Now()), now)
    {
      ContinueDrain(now);
    }

    method DropFiltered()
      modifies this
      ensures Now() == Drop(old(Now()))
    {
      dropped := dropped + 1;
      filtered := filtered + 1;
    }
  }

  // ---- After every step --------------------------------------------------------------------

  function SumBytes<T>(queue: seq<Item<T>>): nat {
    if queue == [] then 0 else queue[0].bytes + SumBytes(queue[1..])
  }

  lemma {:induction false} SumBytesAppend<T>(queue: seq<Item<T>>, item: Item<T>)
    ensures SumBytes(queue + [item]) == SumBytes(queue) + item.bytes
  {
    if queue == [] {
      assert (queue + [item])[1..] == [];
    } else {
      assert (queue + [item])[1..] == queue[1..] + [item];
      SumBytesAppend(queue[1..], item);
    }
  }

  function InFlight<T>(s: State<T>): nat {
    if s.drain.Exporting? then 1 else 0
  }

  /** `pending` is 1 in the middle of an offer, whose event is counted but not yet placed. */
  ghost predicate Balanced<T>(s: State<T>, o: Opts, pending: nat) {
    && pending <= |s.offers|
    // Conservation and exact byte accounting within both bounds.
    && |s.offers| + s.filtered == s.exported + s.dropped + |s.queue| + InFlight(s) + pending
    && s.queuedBytes == SumBytes(s.queue) && Fits(o, s.queuedBytes)
    && |s.queue| <= (if o.maxItems > 0 then o.maxItems else 0)
    // A queued event is always followed up.
    && (s.queue != [] ==> !s.drain.Idle?)
    // At most one call is open, and none was made against an open circuit before its time.
    && |s.calls| == s.settled + InFlight(s)
    && (forall c | c in s.calls :: c.mode.Open? ==> c.now >= c.openedUntil)
    && (s.mode.Closed? && o.failureThreshold >= 1 ==> s.failures < o.failureThreshold)
    && (s.drain.Exporting? ==> !s.mode.Open?)
  }

  /** Queue and exporter calls are subsequences of the offers, in order. */
  ghost predicate InOrder<T>(s: State<T>, pending: nat) {
    && (forall i | 0 <= i < |s.queue| ::
          s.queue[i].offer < |s.offers| - pending && s.offers[s.queue[i].offer] == s.queue[i].event)
    && (forall i, j | 0 <= i < j < |s.queue| :: s.queue[i].offer < s.queue[j].offer)
    && (forall i | 0 <= i < |s.calls| :: s.calls[i].offer < |s.offers| - pending)
    && (forall i, j | 0 <= i < j < |s.calls| :: s.calls[i].offer < s.calls[j].offer)
    && (forall i, j | 0 <= i < |s.calls| && 0 <= j < |s.queue| :: s.calls[i].offer < s.queue[j].offer)
    && (s.drain.Exporting? ==> s.calls != [] && s.calls[|s.calls| - 1].offer == s.drain.item.offer)
  }

  lemma DropOldestKeeps<T>(s: State<T>, o: Opts, pending: nat)
    requires s.queue != [] && Balanced(s, o, pending) && InOrder(s, pending)
    ensures Balanced(DropOldest(s), o, pending) && InOrder(DropOldest(s), pending)
  {
  }

  lemma {:induction false} MakeRoomForBytesKeeps<T>(s: State<T>, bytes: nat, o: Opts, pending: nat)
    requires Balanced(s, o, pending) && InOrder(s, pending)
    ensures var t := MakeRoomForBytes(s, bytes, o);
            && Balanced(t, o, pending) && InOrder(t, pending) && (Fits(o, t.queuedBytes + bytes) || t.queue == [])
            && t == s.(queue := t.queue, queuedBytes := t.queuedBytes, dropped := t.dropped) && |t.queue| <= |s.queue|
    decreases |s.queue|
  {
    if !Fits(o, s.queuedBytes + bytes) && s.queue != [] {
      DropOldestKeeps(s, o, pending);
      MakeRoomForBytesKeeps(DropOldest(s), bytes, o, pending);
    }
  }

  /** After making room one more item fits both bounds. */
  lemma MakeRoomKeeps<T>(s: State<T>, bytes: nat, o: Opts)
    requires Balanced(s, o, 1) && InOrder(s, 1) && !Refused(o, bytes)
    ensures var t := MakeRoom(s, bytes, o);
            && Balanced(t, o, 1) && InOrder(t, 1)
            && Fits(o, t.queuedBytes + bytes) && |t.queue| < o.maxItems
            && t == s.(queue := t.queue, queuedBytes := t.queuedBytes, dropped := t.dropped)
  {
    var r := if |s.queue| >= o.maxItems && s.queue != [] then DropOldest(s) else s;
    if |s.queue| >= o.maxItems && s.queue != [] { DropOldestKeeps(s, o, 1); }
    MakeRoomForBytesKeeps(r, bytes, o, 1);
  }

  /** An offer drops the oldest events, and no more of them than the two bounds require. */
  lemma RoomIsMinimal<T>(s: State<T>, bytes: nat, o: Opts)
    requires s.queuedBytes == SumBytes(s.queue) && o.maxItems >= 1
    ensures var t := MakeRoom(s, bytes, o);
            var k := |s.queue| - |t.queue|;
            && 0 <= k <= |s.queue| && t.queue == s.queue[k..] && t.dropped == s.dropped + k
            && (k > 0 ==> (k == 1 && |s.queue| >= o.maxItems) || !Fits(o, SumBytes(s.queue[k - 1..]) + bytes))
  {
    if |s.queue| >= o.maxItems && s.queue != [] {
      var r := DropOldest(s);
      ByteRoomIsMinimal(r, bytes, o);
      var k := |r.queue| - |MakeRoomForBytes(r, bytes, o).queue|;
      assert r.queue[k..] == s.queue[k + 1..];
      if k > 0 { assert r.queue[k - 1..] == s.queue[k..]; }
    } else {
      ByteRoomIsMinimal(s, bytes, o);
    }
  }

  lemma {:induction false} ByteRoomIsMinimal<T>(s: State<T>, bytes: nat, o: Opts)
    requires s.queuedBytes == SumBytes(s.queue)
    ensures var t := MakeRoomForBytes(s, bytes, o);
            var k := |s.queue| - |t.queue|;
            && 0 <= k <= |s.queue| && t.queue == s.queue[k..] && t.dropped == s.dropped + k
            && (k > 0 ==> !Fits(o, SumBytes(s.queue[k - 1..]) + bytes))
    decreases |s.queue|
  {
    if !Fits(o, s.queuedBytes + bytes) && s.queue != [] {
      var r := DropOldest(s);
      ByteRoomIsMinimal(r, bytes, o);
      var k := |r.queue| - |MakeRoomForBytes(r, bytes, o).queue|;
      assert r.queue[k..] == s.queue[k + 1..];
      if k > 0 { assert r.queue[k - 1..] == s.queue[k..]; }
      else { assert s.queue[0..] == s.queue; }
    }
  }

  lemma EnqueueKeeps<T>(t: State<T>, item: Item<T>, o: Opts)
    requires Balanced(t, o, 1) && InOrder(t, 1) && Fits(o, t.queuedBytes + item.bytes) && |t.queue| < o.maxItems
    requires item.offer == |t.offers| - 1 && t.offers[item.offer] == item.event
    ensures var u := Enqueue(t, item);
            && Balanced(u.(drain := if u.drain.Idle? then Resuming else u.drain), o, 0)
            && InOrder(u, 0)
  {
    SumBytesAppend(t.queue, item);
  }

  lemma DrainLoopKeeps<T>(s: State<T>, now: int, o: Opts)
    requires Balanced(s.(drain := Resuming), o, 0) && InOrder(s.(drain := Resuming), 0) && !s.drain.Exporting?
    ensures Balanced(DrainLoop(s, now), o, 0) && InOrder(DrainLoop(s, now), 0)
  {
    assert s.queue != [] ==> SumBytes(s.queue) == s.queue[0].bytes + SumBytes(s.queue[1..]);
  }

  lemma CountedOffer<T>(s: State<T>, event: T, o: Opts)
    requires Balanced(s, o, 0) && InOrder(s, 0)
    ensures var t := s.(offers := s.offers + [event]); Balanced(t, o, 1) && InOrder(t, 1)
  {
  }

  lemma RefusedOfferKeeps<T>(t: State<T>, o: Opts)
    requires Balanced(t, o, 1) && InOrder(t, 1)
    ensures var u := t.(dropped := t.dropped + 1); Balanced(u, o, 0) && InOrder(u, 0)
  {
  }

  lemma AdmittedOfferKeeps<T>(t: State<T>, item: Item<T>, now: int, o: Opts)
    requires Balanced(t, o, 1) && InOrder(t, 1) && !Refused(o, item.bytes)
    requires item.offer == |t.offers| - 1 && t.offers[item.offer] == item.event
    ensures var u := Enqueue(MakeRoom(t, item.bytes, o), item);
            var v := if u.drain.Idle? then DrainLoop(u, now) else u;
            Balanced(v, o, 0) && InOrder(v, 0)
  {
    MakeRoomKeeps(t, item.bytes, o);
    EnqueueKeeps(MakeRoom(t, item.bytes, o), item, o);
    var u := Enqueue(MakeRoom(t, item.bytes, o), item);
    if u.drain.Idle? { DrainLoopKeeps(u, now, o); }
  }

  lemma OfferKeeps<T>(s: State<T>, event: T, bytes: nat, now: int, o: Opts)
    requires Balanced(s, o, 0) && InOrder(s, 0)
    ensures Balanced(Offer(s, event, bytes, now, o), o, 0) && InOrder(Offer(s, event, bytes, now, o), 0)
  {
    var t := s.(offers := s.offers + [event]);
    CountedOffer(s, event, o);
    if Refused(o, bytes) {
      RefusedOfferKeeps(t, o);
    } else {
      AdmittedOfferKeeps(t, Item(|s.offers|, event, bytes), now, o);
    }
  }

  lemma SettleKeepsBalance<T>(s: State<T>, ok: bool, now: int, o: Opts)
    requires Balanced(s, o, 0)
    ensures Balanced(Settle(s, ok, now, o), o, 0)
  {
  }

  lemma SettleKeepsOrder<T>(s: State<T>, ok: bool, now: int, o: Opts)
    requires InOrder(s, 0)
    ensures InOrder(Settle(s, ok, now, o), 0)
  {
  }

  lemma DropKeeps<T>(s: State<T>, o: Opts)
    requires Balanced(s, o, 0) && InOrder(s, 0)
    ensures Balanced(Drop(s), o, 0) && InOrder(Drop(s), 0)
  {
  }

  lemma {:induction false} RunKeeps<T>(es: seq<Event<T>>, o: Opts)
    ensures Balanced(Run(es, o), o, 0) && InOrder(Run(es, o), 0)
    decreases |es|
  {
    if es != [] {
      RunKeeps(es[..|es| - 1], o);
      var s, e := Run(es[..|es| - 1], o), es[|es| - 1];
      match e
      case DoOffer(event, bytes, now) => OfferKeeps(s, event, bytes, now, o);
      case DoSettle(ok, now) =>
        SettleKeepsBalance(s, ok, now, o);
        SettleKeepsOrder(s, ok, now, o);
      case DoResume(now) => if s.drain.Resuming? { DrainLoopKeeps(s, now, o); }
      case DoDrop => DropKeeps(s, o);
    }
  }

  /**
   * After every step every event offered or filtered is exported, dropped, queued or in
   * flight; the byte count is exact and both bounds hold; a non-empty queue has a running
   * drain; and at most one exporter call is unsettled.
   */
  lemma {:induction false} Conservation<T>(es: seq<Event<T>>, o: Opts)
    ensures var s := Run(es, o);
            && |s.offers| + s.filtered == s.exported + s.dropped + |s.queue| + InFlight(s)
            && s.queuedBytes == SumBytes(s.queue) && Fits(o, s.queuedBytes)
            && |s.queue| <= (if o.maxItems > 0 then o.maxItems else 0)
            && (s.queue != [] ==> !s.drain.Idle?)
            && |s.calls| == s.settled + InFlight(s)
            && (s.mode.Closed? && o.failureThreshold >= 1 ==> s.failures < o.failureThreshold)
  {
    RunKeeps(es, o);
  }

  /**
   * Exporter calls are made for offers in offer order, each at most once, and never
   * against an open circuit before `openedUntil`; what is queued comes after them.
   */
  lemma {:induction false} CallsInOfferOrder<T>(es: seq<Event<T>>, o: Opts)
    ensures var s := Run(es, o);
            && InOrder(s, 0)
            && (forall i | 0 <= i < |s.calls| :: s.calls[i].mode.Open? ==> s.calls[i].now >= s.calls[i].openedUntil)
  {
    RunKeeps(es, o);
  }
}
