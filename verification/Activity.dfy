/**
 * Activity boundaries over the in-memory store (packages/core/src/activity/index.ts,
 * lines 152-187 and 221-277): an insertion-ordered, bounded map, and calls that claim an
 * id, run their body and record how it ended, interleaving at every await.
 */
module Activity {
  import opened Wrappers

  type Id = string
  type Hash = string
  type Payload = string

  datatype Status = Started | Completed(result: Payload) | FailedWith(error: Thrown) | CancelledFor(reason: string)

  datatype Record = Record(id: Id, hash: Hash, startedAt: int, updatedAt: int, status: Status)

  datatype Thrown =
    | Conflict(id: Id)
    | NotRunnable(id: Id, status: Status)
    | Unserializable(id: Id)
    | Raised(message: string)
    | Cancelled(reason: string)

  // ---- The store -----------------------------------------------------------------------------

  /** The Map: its records, and its keys in insertion order. */
  datatype Store = Store(records: map<Id, Record>, order: seq<Id>)

  const EMPTY := Store(map[], [])

  datatype Claim = Claim(isNew: bool, record: Record)

  ghost predicate ValidStore(s: Store, max: nat) {
    && (forall i, j | 0 <= i < j < |s.order| :: s.order[i] != s.order[j])
    && (forall id :: id in s.records <==> id in s.order)
    && |s.order| <= max
  }

  function DeleteOldest(s: Store): Store {
    if s.order == [] then s else Store(s.records - {s.order[0]}, s.order[1..])
  }

  /** `start`: an existing record is returned as it is; a new one evicts the oldest when full. */
  function StartRecord(s: Store, r: Record, max: nat): (Store, Claim) {
    if r.id in s.records then (s, Claim(false, s.records[r.id]))
    else
      var t := if |s.order| >= max then DeleteOldest(s) else s;
      (Store(t.records[r.id := r], t.order + [r.id]), Claim(true, r))
  }

  /** `finish`: only a started record of the same input takes a terminal state, and keeps its place. */
  function FinishRecord(s: Store, r: Record): (Store, Option<Thrown>) {
    if r.id !in s.records || s.records[r.id].hash != r.hash then (s, Some(Conflict(r.id)))
    else if !s.records[r.id].status.Started? then (s, Some(NotRunnable(r.id, s.records[r.id].status)))
    else (Store(s.records[r.id := r], s.order), None)
  }

  class MemoryStore {
    const max: nat
    var records: map<Id, Record>
    var order: seq<Id>

    ghost predicate Valid()
      reads this
    {
      ValidStore(Now(), max)
    }

    function Now(): Store
      reads this
    {
      Store(records, order)
    }

    constructor (max: nat)
      requires max >= 1
      ensures this.max == max && Now() == EMPTY && Valid()
    {
      this.max, records, order := max, map[], [];
    }

    method Start(r: Record) returns (claim: Claim)
      requires Valid() && max >= 1
      modifies this
      ensures (Now(), claim) == StartRecord(old(Now()), r, max) && Valid()
    {
      StartKeepsValid(Now(), r, max);
      if r.id in records { return Claim(false, records[r.id]); }
      if |order| >= max {
        records := records - {order[0]};
        order := order[1..];
      }
      records := records[r.id := r];
      order := order + [r.id];
      return Claim(true, r);
    }

    method Finish(r: Record) returns (error: Option<Thrown>)
      requires Valid()
      modifies this
      ensures (Now(), error) == FinishRecord(old(Now()), r) && Valid()
    {
      if r.id !in records || records[r.id].hash != r.hash { return Some(Conflict(r.id)); }
      if records[r.id].status != Started { return Some(NotRunnable(r.id, records[r.id].status)); }
      records := records[r.id := r];
      return None;
    }
  }

  lemma StartKeepsValid(s: Store, r: Record, max: nat)
    requires ValidStore(s, max) && max >= 1
    ensures ValidStore(StartRecord(s, r, max).0, max)
  {
    if r.id !in s.records && |s.order| >= max {
      var t := DeleteOldest(s);
      forall id ensures id in t.records <==> id in t.order {
        if id in t.records {
          var k :| 0 <= k < |s.order| && s.order[k] == id;
          assert t.order[k - 1] == id;
        }
      }
    }
  }

  // ---- One call of the wrapped task --------------------------------------------------------------

  datatype Phase =
    | Claiming(claim: Claim)
    | InBody
    | Catching(error: Thrown)
    | Returned(value: Payload)
    | Threw(error: Thrown)

  datatype Outcome =
    | Resolves(result: Payload)
    | ResolvesUnserializable
    | Raises(message: string)
    | Cancels(reason: string)

  /** After `await store.start`: conflict first, then replay, then the body. */
  function AfterClaim(claim: Claim, id: Id, hash: Hash): Phase {
    if claim.record.hash != hash then Threw(Conflict(id))
    else if !claim.isNew then Replay(claim.record)
    else InBody
  }

  function Replay(r: Record): Phase {
    match r.status
    case Completed(v) => Returned(v)
    case _ => Threw(NotRunnable(r.id, r.status))
  }

  function ErrorOf(o: Outcome, id: Id): Thrown
    requires !o.Resolves?
  {
    match o
    case ResolvesUnserializable => Unserializable(id)
    case Raises(m) => Raised(m)
    case Cancels(reason) => Cancelled(reason)
  }

  /** The `catch` block: records the end of the body; an error of its own replaces the original. */
  function CatchBlock(s: Store, id: Id, hash: Hash, startedAt: int, error: Thrown, now: int): (Store, Phase) {
    var status := if error.Cancelled? then CancelledFor(error.reason) else FailedWith(error);
    var (t, own) := FinishRecord(s, Record(id, hash, startedAt, now, status));
    (t, Threw(if own.Some? then own.value else error))
  }

  /** After `await task(ctx)`; a `finish` that fails here is caught by the same block, one step later. */
  function AfterBody(s: Store, id: Id, hash: Hash, startedAt: int, o: Outcome, now: int): (Store, Phase) {
    if o.Resolves? then
      var (t, error) := FinishRecord(s, Record(id, hash, startedAt, now, Completed(o.result)));
      (t, if error.Some? then Catching(error.value) else Returned(o.result))
    else CatchBlock(s, id, hash, startedAt, ErrorOf(o, id), now)
  }

  class ActivityCall {
    const store: MemoryStore
    const id: Id
    const hash: Hash
    const startedAt: int
    var phase: Phase

    constructor (store: MemoryStore, id: Id, hash: Hash, now: int)
      requires store.Valid() && store.max >= 1
      modifies store
      ensures this.store == store && this.id == id && this.hash == hash && startedAt == now && store.Valid()
      ensures phase.Claiming?
              && (store.Now(), phase.claim)
                 == StartRecord(old(store.Now()), Record(id, hash, now, now, Started), store.max)
    {
      this.store, this.id, this.hash, startedAt := store, id, hash, now;
      var claim := store.Start(Record(id, hash, now, now, Started));
      phase := Claiming(claim);
    }

    method OnClaimed()
      requires phase.Claiming?
      modifies this
      ensures phase == AfterClaim(old(phase).claim, id, hash)
    {
      var claim := phase.claim;
      if claim.record.hash != hash {
        phase := Threw(Conflict(id));
      } else if !claim.isNew {
        phase := Replay(claim.record);
      } else {
        phase := InBody;
      }
    }

    method OnBodySettled(o: Outcome, now: int)
      requires phase.InBody? && store.Valid()
      modifies this, store
      ensures (store.Now(), phase) == AfterBody(old(store.Now()), id, hash, startedAt, o, now) && store.Valid()
    {
      if o.Resolves? {
        var error := store.Finish(Record(id, hash, startedAt, now, Completed(o.result)));
        phase := if error.Some? then Catching(error.value) else Returned(o.result);
      } else {
        phase := Catching(ErrorOf(o, id));
        OnCaught(now);
      }
    }

    method OnCaught(now: int)
      requires phase.Catching? && store.Valid()
      modifies this, store
      ensures (store.Now(), phase) == CatchBlock(old(store.Now()), id, hash, startedAt, old(phase).error, now)
      ensures store.Valid()
    {
      var error := phase.error;
      var status := if error.Cancelled? then CancelledFor(error.reason) else FailedWith(error);
      var own := store.Finish(Record(id, hash, startedAt, now, status));
      phase := Threw(if own.Some? then own.value else error);
    }
  }

  // ---- Runs -------------------------------------------------------------------------------------

  datatype Event =
    | Invoke(id: Id, hash: Hash, now: int)
    | Resume(call: nat, now: int)
    | Settle(call: nat, outcome: Outcome, now: int)

  /** A call; `since` is how often its id had been evicted when it last read or wrote the store. */
  datatype Call = Call(id: Id, hash: Hash, startedAt: int, phase: Phase, since: nat)

  /** The store, every call made, and logs of the ids claimed, evicted, and whose body started. */
  datatype System = System(store: Store, calls: seq<Call>, claimed: seq<Id>, evicted: seq<Id>, bodies: seq<Id>)

  const INITIAL := System(EMPTY, [], [], [], [])

  /** How many entries of a log are `id`. */
  function Count(log: seq<Id>, id: Id): nat {
    if log == [] then 0 else Count(log[..|log| - 1], id) + (if log[|log| - 1] == id then 1 else 0)
  }

  function Step(y: System, e: Event, max: nat): System {
    match e
    case Invoke(id, hash, now) =>
      var (s, claim) := StartRecord(y.store, Record(id, hash, now, now, Started), max);
      var evicted := if claim.isNew && |y.store.order| >= max && y.store.order != []
          then y.evicted + [y.store.order[0]] else y.evicted;
      System(s, y.calls + [Call(id, hash, now, Claiming(claim), Count(evicted, id))],
             if claim.isNew then y.claimed + [id] else y.claimed, evicted, y.bodies)
    case Resume(c, now) =>
      if c >= |y.calls| then y
      else
        var call := y.calls[c];
        if call.phase.Claiming? then
          var phase := AfterClaim(call.phase.claim, call.id, call.hash);
          y.(calls := y.calls[c := call.(phase := phase)],
             bodies := if phase.InBody? then y.bodies + [call.id] else y.bodies)
        else if call.phase.Catching? then
          Wrote(y, c, CatchBlock(y.store, call.id, call.hash, call.startedAt, call.phase.error, now))
        else y
    case Settle(c, o, now) =>
      if c >= |y.calls| || !y.calls[c].phase.InBody? then y
      else
        var call := y.calls[c];
        Wrote(y, c, AfterBody(y.store, call.id, call.hash, call.startedAt, o, now))
  }

  function Wrote(y: System, c: nat, r: (Store, Phase)): System
    requires c < |y.calls|
  {
    y.(store := r.0, calls := y.calls[c := y.calls[c].(phase := r.1, since := Count(y.evicted, y.calls[c].id))])
  }

  function Run(y: System, es: seq<Event>, max: nat): System
    decreases |es|
  {
    if es == [] then y else Step(Run(y, es[..|es| - 1], max), es[|es| - 1], max)
  }

  // ---- What every step keeps ---------------------------------------------------------------------

  lemma CountSum(a: seq<Id>, b: seq<Id>, id: Id)
    ensures Count(a + b, id) == Count(a, id) + Count(b, id)
    decreases |b|
  {
    if b == [] {
      assert a + b == a;
    } else {
      assert (a + b)[..|a + b| - 1] == a + b[..|b| - 1];
      CountSum(a, b[..|b| - 1], id);
    }
  }

  lemma CountAppended(a: seq<Id>, x: Id, id: Id)
    ensures Count(a + [x], id) == Count(a, id) + (if x == id then 1 else 0)
  {
    assert (a + [x])[..|a|] == a;
  }

  lemma {:induction false} CountDistinct(order: seq<Id>, id: Id)
    requires forall i, j | 0 <= i < j < |order| :: order[i] != order[j]
    ensures Count(order, id) == if id in order then 1 else 0
  {
    if order != [] {
      var k := |order| - 1;
      CountDistinct(order[..k], id);
      assert order == order[..k] + [order[k]];
    }
  }

  /** The store is a bounded map, and what was claimed is what was evicted, then what is stored, in order. */
  ghost predicate ClaimOrder(y: System, max: nat) {
    ValidStore(y.store, max) && y.claimed == y.evicted + y.store.order
  }

  lemma StepKeepsOrder(y: System, e: Event, max: nat)
    requires ClaimOrder(y, max) && max >= 1
    ensures ClaimOrder(Step(y, e, max), max)
  {
    if e.Invoke? {
      StartKeepsValid(y.store, Record(e.id, e.hash, e.now, e.now, Started), max);
      if e.id !in y.store.records && |y.store.order| >= max {
        assert y.store.order == [y.store.order[0]] + y.store.order[1..];
        assert y.evicted + ([y.store.order[0]] + y.store.order[1..])
            == (y.evicted + [y.store.order[0]]) + y.store.order[1..];
      }
    }
  }

  lemma {:induction false} RunKeepsOrder(es: seq<Event>, max: nat)
    requires max >= 1
    ensures ClaimOrder(Run(INITIAL, es, max), max)
    decreases |es|
  {
    if es != [] {
      RunKeepsOrder(es[..|es| - 1], max);
      StepKeepsOrder(Run(INITIAL, es[..|es| - 1], max), es[|es| - 1], max);
    }
  }

  /** Calls of `id` that have claimed it and whose body has not started. */
  function Waiting(calls: seq<Call>, id: Id): nat {
    if calls == [] then 0 else Waiting(calls[..|calls| - 1], id) + (if Waits(calls[|calls| - 1], id) then 1 else 0)
  }

  predicate Waits(c: Call, id: Id) {
    c.id == id && c.phase.Claiming? && c.phase.claim.isNew
  }

  lemma {:induction false} WaitingUpdated(calls: seq<Call>, k: nat, c: Call, id: Id)
    requires k < |calls|
    ensures Waiting(calls[k := c], id) + (if Waits(calls[k], id) then 1 else 0)
            == Waiting(calls, id) + (if Waits(c, id) then 1 else 0)
  {
    var n := |calls| - 1;
    if k < n {
      WaitingUpdated(calls[..n], k, c, id);
      assert calls[k := c][..n] == calls[..n][k := c];
    } else {
      assert calls[k := c][..n] == calls[..n];
    }
  }

  /** A new claim carries the hash of its own call. */
  predicate OwnHash(c: Call) {
    c.phase.Claiming? && c.phase.claim.isNew ==> c.phase.claim.record.hash == c.hash
  }

  ghost predicate EveryClaimStarts(y: System) {
    && (forall c | c in y.calls :: OwnHash(c))
    && (forall id :: Count(y.bodies, id) + Waiting(y.calls, id) == Count(y.claimed, id))
  }

  lemma StepCounts(y: System, e: Event, max: nat, id: Id)
    requires EveryClaimStarts(y)
    ensures var z := Step(y, e, max); Count(z.bodies, id) + Waiting(z.calls, id) == Count(z.claimed, id)
  {
    var z := Step(y, e, max);
    assert Count(y.bodies, id) + Waiting(y.calls, id) == Count(y.claimed, id);
    if e.Invoke? {
      assert z.calls[..|y.calls|] == y.calls;
      CountAppended(y.claimed, e.id, id);
    } else if e.call < |y.calls| {
      assert OwnHash(y.calls[e.call]);
      assert z.calls == y.calls[e.call := z.calls[e.call]];
      WaitingUpdated(y.calls, e.call, z.calls[e.call], id);
      CountAppended(y.bodies, y.calls[e.call].id, id);
    }
  }

  lemma StepKeepsHashes(y: System, e: Event, max: nat)
    requires EveryClaimStarts(y)
    ensures forall c | c in Step(y, e, max).calls :: OwnHash(c)
  {
  }

  lemma StepKeepsStarts(y: System, e: Event, max: nat)
    requires EveryClaimStarts(y)
    ensures EveryClaimStarts(Step(y, e, max))
  {
    StepKeepsHashes(y, e, max);
    var z := Step(y, e, max);
    forall id ensures Count(z.bodies, id) + Waiting(z.calls, id) == Count(z.claimed, id) {
      StepCounts(y, e, max, id);
    }
  }

  lemma {:induction false} RunKeepsStarts(es: seq<Event>, max: nat)
    ensures EveryClaimStarts(Run(INITIAL, es, max))
    decreases |es|
  {
    if es != [] {
      RunKeepsStarts(es[..|es| - 1], max);
      StepKeepsStarts(Run(INITIAL, es[..|es| - 1], max), es[|es| - 1], max);
    }
  }

  /**
   * Over every interleaving, the bodies started for an id, and the claims still waiting to
   * start theirs, are one for each eviction of the id and one more if it is stored.
   */
  lemma {:induction false} BodyStartsOncePerClaim(es: seq<Event>, max: nat, id: Id)
    requires max >= 1
    ensures var y := Run(INITIAL, es, max);
            Count(y.bodies, id) + Waiting(y.calls, id) == Count(y.evicted, id) + if id in y.store.records then 1 else 0
  {
    var y := Run(INITIAL, es, max);
    RunKeepsOrder(es, max);
    RunKeepsStarts(es, max);
    CountSum(y.evicted, y.store.order, id);
    CountDistinct(y.store.order, id);
  }

  /** The store never exceeds `maxRecords`, and evicts in the order in which ids were claimed. */
  lemma {:induction false} EvictsInClaimOrder(es: seq<Event>, max: nat)
    requires max >= 1
    ensures var y := Run(INITIAL, es, max);
            && |y.store.order| <= max
            && |y.evicted| <= |y.claimed|
            && y.evicted == y.claimed[..|y.evicted|]
            && y.store.order == y.claimed[|y.evicted|..]
  {
    RunKeepsOrder(es, max);
  }

  // ---- Records keep their terminal state ------------------------------------------------------------

  /** `later` is `r`, or `r` was still started and `later` is how the same input ended. */
  predicate Follows(r: Record, later: Record) {
    later == r || (r.status.Started? && later.id == r.id && later.hash == r.hash && !later.status.Started?)
  }

  lemma StepEvictions(y: System, e: Event, max: nat, id: Id)
    ensures Count(y.evicted, id) <= Count(Step(y, e, max).evicted, id)
  {
    if y.store.order != [] { CountAppended(y.evicted, y.store.order[0], id); }
  }

  lemma FinishFollows(s: Store, r: Record, id: Id)
    requires id in s.records && s.records[id].id == id && (r.status.Started? ==> r.id != id)
    ensures var t := FinishRecord(s, r).0; id in t.records && Follows(s.records[id], t.records[id])
  {
  }

  lemma StartFollows(s: Store, r: Record, max: nat, id: Id)
    requires id in s.records && (r.id !in s.records && |s.order| >= max && s.order != [] ==> s.order[0] != id)
    ensures var t := StartRecord(s, r, max).0; id in t.records && t.records[id] == s.records[id]
  {
  }

  lemma StepFollows(y: System, e: Event, max: nat, id: Id)
    requires id in y.store.records && y.store.records[id].id == id
    requires Count(Step(y, e, max).evicted, id) == Count(y.evicted, id)
    ensures var z := Step(y, e, max); id in z.store.records && Follows(y.store.records[id], z.store.records[id])
  {
    match e
    case Invoke(i, hash, now) =>
      if y.store.order != [] { CountAppended(y.evicted, y.store.order[0], id); }
      StartFollows(y.store, Record(i, hash, now, now, Started), max, id);
    case Resume(c, now) =>
      if c < |y.calls| && y.calls[c].phase.Catching? {
        var call := y.calls[c];
        var status := if call.phase.error.Cancelled? then CancelledFor(call.phase.error.reason)
            else FailedWith(call.phase.error);
        FinishFollows(y.store, Record(call.id, call.hash, call.startedAt, now, status), id);
      }
    case Settle(c, o, now) =>
      if c < |y.calls| && y.calls[c].phase.InBody? { BodyFollows(y.store, y.calls[c], o, now, id); }
  }

  lemma BodyFollows(s: Store, call: Call, o: Outcome, now: int, id: Id)
    requires id in s.records && s.records[id].id == id
    ensures var t := AfterBody(s, call.id, call.hash, call.startedAt, o, now).0;
            id in t.records && Follows(s.records[id], t.records[id])
  {
  }

  /**
   * However calls interleave, a stored record keeps its input hash, takes one terminal state and
   * keeps it until it is evicted.
   */
  lemma {:induction false} RecordIsFinal(y: System, es: seq<Event>, max: nat, id: Id)
    requires id in y.store.records && y.store.records[id].id == id
    ensures var z := Run(y, es, max);
            && Count(y.evicted, id) <= Count(z.evicted, id)
            && (Count(z.evicted, id) == Count(y.evicted, id) ==>
                  id in z.store.records && Follows(y.store.records[id], z.store.records[id]))
    decreases |es|
  {
    if es != [] {
      var x := Run(y, es[..|es| - 1], max);
      RecordIsFinal(y, es[..|es| - 1], max, id);
      StepEvictions(x, es[|es| - 1], max, id);
      if Count(Step(x, es[|es| - 1], max).evicted, id) == Count(y.evicted, id) {
        StepFollows(x, es[|es| - 1], max, id);
      }
    }
  }

  // ---- What a call returns -----------------------------------------------------------------------

  /** What a call knows of its record, as long as the record has not been evicted since. */
  ghost predicate Knows(y: System, c: Call) {
    && c.since <= Count(y.evicted, c.id)
    && (c.phase.Claiming? ==> c.phase.claim.record.id == c.id)
    && (c.since == Count(y.evicted, c.id) ==>
          && (c.phase.Returned? ==>
                c.id in y.store.records && y.store.records[c.id].hash == c.hash
                && y.store.records[c.id].status == Completed(c.phase.value))
          && (c.phase.Claiming? ==>
                c.id in y.store.records && Follows(c.phase.claim.record, y.store.records[c.id])))
  }

  ghost predicate Informed(y: System) {
    && (forall id | id in y.store.records :: y.store.records[id].id == id)
    && (forall c | c in y.calls :: Knows(y, c))
  }

  /** A call that does not move keeps its knowledge. */
  lemma OthersKnow(y: System, e: Event, max: nat, c: Call)
    requires Informed(y) && Knows(y, c)
    ensures Knows(Step(y, e, max), c)
  {
    StepEvictions(y, e, max, c.id);
    var z := Step(y, e, max);
    if c.since == Count(z.evicted, c.id) && (c.phase.Returned? || c.phase.Claiming?) {
      StepFollows(y, e, max, c.id);
    }
  }

  lemma StepKeepsInformed(y: System, e: Event, max: nat)
    requires Informed(y)
    ensures Informed(Step(y, e, max))
  {
    var z := Step(y, e, max);
    forall k | 0 <= k < |z.calls| ensures Knows(z, z.calls[k]) {
      if k < |y.calls| { OthersKnow(y, e, max, y.calls[k]); }
    }
  }

  lemma {:induction false} RunKeepsInformed(es: seq<Event>, max: nat)
    ensures Informed(Run(INITIAL, es, max))
    decreases |es|
  {
    if es != [] {
      RunKeepsInformed(es[..|es| - 1], max);
      StepKeepsInformed(Run(INITIAL, es[..|es| - 1], max), es[|es| - 1], max);
    }
  }

  /**
   * Whatever call returns normally returns the stored result: until the id is evicted the
   * record is completed with that value, for that input, so all such calls agree.
   */
  lemma {:induction false} ReturnsStoredResult(es: seq<Event>, max: nat, k: nat)
    requires k < |Run(INITIAL, es, max).calls|
    ensures var y := Run(INITIAL, es, max); var c := y.calls[k];
            && c.since <= Count(y.evicted, c.id)
            && (c.phase.Returned? && c.since == Count(y.evicted, c.id) ==>
                  c.id in y.store.records && y.store.records[c.id].hash == c.hash
                  && y.store.records[c.id].status == Completed(c.phase.value))
  {
    RunKeepsInformed(es, max);
    assert Run(INITIAL, es, max).calls[k] in Run(INITIAL, es, max).calls;
  }

  /** The call has found a record r of another input, and can only conflict. */
  predicate Conflicting(c: Call, r: Record) {
    && c.hash != r.hash
    && (c.phase == Claiming(Claim(false, r)) || c.phase == Threw(Conflict(c.id)))
  }

  lemma StepConflicts(y: System, e: Event, max: nat, k: nat, r: Record)
    requires k < |y.calls| && Conflicting(y.calls[k], r)
    ensures var z := Step(y, e, max);
            k < |z.calls| && Conflicting(z.calls[k], r) && z.calls[k].id == y.calls[k].id
  {
    if !e.Invoke? && e.call == k && y.calls[k].phase.Threw? { assert Step(y, e, max) == y; }
  }

  /** A call that finds its id stored for another input never runs its body, writes or returns: it can only conflict. */
  lemma {:induction false} OtherInputConflicts(y: System, id: Id, hash: Hash, now: int, es: seq<Event>, max: nat)
    requires id in y.store.records && y.store.records[id].hash != hash
    ensures var z := Run(Step(y, Invoke(id, hash, now), max), es, max);
            var k := |y.calls|;
            k < |z.calls| && z.calls[k].id == id && Conflicting(z.calls[k], y.store.records[id])
    decreases |es|
  {
    if es != [] {
      var x := Step(y, Invoke(id, hash, now), max);
      OtherInputConflicts(y, id, hash, now, es[..|es| - 1], max);
      StepConflicts(Run(x, es[..|es| - 1], max), es[|es| - 1], max, |y.calls|, y.store.records[id]);
    }
  }
}
