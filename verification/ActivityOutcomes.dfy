/**
 * What becomes of an activity call: the body's own outcome is what is stored and returned,
 * and a later call replays what it found.
 */
module ActivityOutcomes {
  import opened Wrappers
  import opened Activity

  /** The call has claimed its id and not yet recorded how its body ended. */
  predicate Active(c: Call) {
    (c.phase.Claiming? && c.phase.claim.isNew) || c.phase.InBody? || c.phase.Catching?
  }

  /** The record of the id is the call's own claim, still open. */
  predicate OwnClaim(s: Store, c: Call) {
    && c.id in s.records && s.records[c.id].status.Started? && s.records[c.id].hash == c.hash
    && !c.phase.Catching?
    && (c.phase.Claiming? ==> c.phase.claim.record.hash == c.hash)
  }

  ghost predicate EachOwns(y: System, id: Id) {
    forall k | 0 <= k < |y.calls| && y.calls[k].id == id && Active(y.calls[k]) :: OwnClaim(y.store, y.calls[k])
  }

  ghost predicate OneActive(y: System, id: Id) {
    forall j, k | 0 <= j < k < |y.calls| && y.calls[j].id == id && y.calls[k].id == id ::
      !(Active(y.calls[j]) && Active(y.calls[k]))
  }

  /** Unless the id was evicted, at most one call of it is active, and it owns the open record. */
  ghost predicate Exclusive(y: System, id: Id) {
    Count(y.evicted, id) == 0 ==> EachOwns(y, id) && OneActive(y, id)
  }

  /** A claim leaves the open records of other calls alone, unless it evicts them. */
  lemma StartKeepsOwn(s: Store, r: Record, max: nat, c: Call)
    requires OwnClaim(s, c)
    requires r.id !in s.records && |s.order| >= max && s.order != [] ==> s.order[0] != c.id
    ensures OwnClaim(StartRecord(s, r, max).0, c)
  {
    StartFollows(s, r, max, c.id);
  }

  lemma InvokeExclusive(y: System, i: Id, hash: Hash, now: int, max: nat, id: Id)
    requires Exclusive(y, id)
    ensures Exclusive(Step(y, Invoke(i, hash, now), max), id)
  {
    var z, r := Step(y, Invoke(i, hash, now), max), Record(i, hash, now, now, Started);
    if y.store.order != [] { CountAppended(y.evicted, y.store.order[0], id); }
    if Count(z.evicted, id) == 0 {
      forall k | 0 <= k < |z.calls| && z.calls[k].id == id && Active(z.calls[k]) ensures OwnClaim(z.store, z.calls[k]) {
        if k < |y.calls| {
          assert OwnClaim(y.store, y.calls[k]);
          StartKeepsOwn(y.store, r, max, y.calls[k]);
        }
      }
      forall j, k | 0 <= j < k < |z.calls| && z.calls[j].id == id && z.calls[k].id == id
        ensures !(Active(z.calls[j]) && Active(z.calls[k]))
      {
        assert Active(y.calls[j]) ==> OwnClaim(y.store, y.calls[j]);
      }
    }
  }

  lemma ResumeExclusive(y: System, c: nat, now: int, max: nat, id: Id)
    requires Exclusive(y, id)
    ensures Exclusive(Step(y, Resume(c, now), max), id)
  {
  }

  lemma SettleExclusive(y: System, c: nat, o: Outcome, now: int, max: nat, id: Id)
    requires Exclusive(y, id)
    ensures Exclusive(Step(y, Settle(c, o, now), max), id)
  {
  }

  lemma {:induction false} RunExclusive(es: seq<Event>, max: nat, id: Id)
    ensures Exclusive(Run(INITIAL, es, max), id)
    decreases |es|
  {
    if es != [] {
      var y := Run(INITIAL, es[..|es| - 1], max);
      RunExclusive(es[..|es| - 1], max, id);
      match es[|es| - 1]
      case Invoke(i, hash, now) => InvokeExclusive(y, i, hash, now, max, id);
      case Resume(c, now) => ResumeExclusive(y, c, now, max, id);
      case Settle(c, o, now) => SettleExclusive(y, c, o, now, max, id);
    }
  }

  /** How the call and its record stand once its body has ended and been recorded. */
  predicate Recorded(c: Call, r: Record, o: Outcome) {
    match o
    case Resolves(v) => c.phase == Returned(v) && r.status == Completed(v)
    case ResolvesUnserializable =>
      c.phase == Threw(Unserializable(c.id)) && r.status == FailedWith(Unserializable(c.id))
    case Raises(m) => c.phase == Threw(Raised(m)) && r.status == FailedWith(Raised(m))
    case Cancels(reason) => c.phase == Threw(Cancelled(reason)) && r.status == CancelledFor(reason)
  }

  /** A body that ends while its record is open is recorded as it ended, and the call ends the same way. */
  lemma OpenRecordIsClosed(y: System, k: nat, o: Outcome, now: int, max: nat)
    requires k < |y.calls| && y.calls[k].phase.InBody? && OwnClaim(y.store, y.calls[k])
    ensures var z, id := Step(y, Settle(k, o, now), max), y.calls[k].id;
            && k < |z.calls| && z.calls[k].id == id && id in z.store.records
            && Recorded(z.calls[k], z.store.records[id], o)
            && z.store.records[id].hash == y.calls[k].hash && z.store.records[id].updatedAt == now
            && z.store.order == y.store.order
  {
  }

  /**
   * Over every interleaving, unless the id was evicted, the body of the call that claimed it
   * decides everything: its value is stored and returned, its failure or cancellation is
   * stored and thrown.
   */
  lemma {:induction false} BodyDecides(es: seq<Event>, max: nat, k: nat, o: Outcome, now: int)
    requires var y := Run(INITIAL, es, max);
             k < |y.calls| && y.calls[k].phase.InBody? && Count(y.evicted, y.calls[k].id) == 0
    ensures var y, z := Run(INITIAL, es, max), Step(Run(INITIAL, es, max), Settle(k, o, now), max);
            var id := y.calls[k].id;
            && y.store.records.Keys == z.store.records.Keys && id in z.store.records
            && k < |z.calls| && z.calls[k].id == id && Recorded(z.calls[k], z.store.records[id], o)
  {
    var y := Run(INITIAL, es, max);
    RunExclusive(es, max, y.calls[k].id);
    OpenRecordIsClosed(y, k, o, now, max);
  }

  /** A body that ends after its record was evicted, or taken over, writes nothing and its call does not return. */
  lemma StaleBodyIsRefused(y: System, k: nat, o: Outcome, now: int, max: nat)
    requires k < |y.calls| && y.calls[k].phase.InBody? && !OwnClaim(y.store, y.calls[k])
    ensures var z := Step(y, Settle(k, o, now), max);
            && z.store == y.store && k < |z.calls|
            && (z.calls[k].phase.Threw? || z.calls[k].phase.Catching?)
            && (z.calls[k].phase.Threw? ==> z.calls[k].phase.error.Conflict? || z.calls[k].phase.error.NotRunnable?)
  {
  }

  /** What a call that found a record is due. */
  function Due(r: Record, id: Id, hash: Hash): Phase {
    if r.hash != hash then Threw(Conflict(id))
    else if r.status.Completed? then Returned(r.status.result)
    else Threw(NotRunnable(r.id, r.status))
  }

  lemma StepWaits(y: System, e: Event, max: nat, k: nat)
    requires k < |y.calls| && (e.Resume? ==> e.call != k)
    ensures y.calls[k].phase.Claiming? ==>
              k < |Step(y, e, max).calls| && Step(y, e, max).calls[k] == y.calls[k]
  {
  }

  predicate NotResumed(es: seq<Event>, k: nat) {
    forall i | 0 <= i < |es| :: es[i].Resume? ==> es[i].call != k
  }

  lemma {:induction false} CallWaits(y: System, es: seq<Event>, max: nat, k: nat)
    requires k < |y.calls| && y.calls[k].phase.Claiming? && NotResumed(es, k)
    ensures var z := Run(y, es, max); k < |z.calls| && z.calls[k] == y.calls[k]
    decreases |es|
  {
    if es != [] {
      CallWaits(y, es[..|es| - 1], max, k);
      StepWaits(Run(y, es[..|es| - 1], max), es[|es| - 1], max, k);
    }
  }

  /**
   * Whatever happens in between, a call resumes by what it found when it was made: a record
   * of its input replays as it stood then, one of another input conflicts, and only a call
   * that found none runs its body.
   */
  lemma {:induction false} ResumesByWhatItFound(
    y: System, id: Id, hash: Hash, now: int, es: seq<Event>, later: int, max: nat)
    requires NotResumed(es, |y.calls|)
    ensures var k := |y.calls|;
            var z := Step(Run(Step(y, Invoke(id, hash, now), max), es, max), Resume(k, later), max);
            && k < |z.calls|
            && z.calls[k].phase == (if id in y.store.records then Due(y.store.records[id], id, hash) else InBody)
  {
    CallWaits(Step(y, Invoke(id, hash, now), max), es, max, |y.calls|);
  }
}
