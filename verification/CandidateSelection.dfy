/**
 * `firstAcceptable` as it runs: the candidate loop over `run.retry`, filling the attempt
 * recorder and the decision buffer, and the evidence zipped from the two.
 */
module CandidateSelection {
  import opened Wrappers
  import opened Candidates

  const MAX_CANDIDATES := 1000
  const MAX_RETRY_ATTEMPTS := 1000
  const MAX_TOTAL_CANDIDATE_ATTEMPTS := 10000

  datatype AttemptOutcome = Succeeded | Failed | Cancelled

  /** What the attempt recorder keeps of one invocation. */
  datatype AttemptRecord = AttemptRecord(attempt: nat, outcome: AttemptOutcome, reasonCode: Option<string>)

  datatype Evidence = Evidence(
    candidate: nat, attempt: nat, outcome: AttemptOutcome, decision: AttemptDecision, reasonCode: Option<string>)

  function RecordOf<T>(end: End<T>, attempt: nat): AttemptRecord {
    match end
    case Accepted(_) => AttemptRecord(attempt, Succeeded, None)
    case NotAccepted => AttemptRecord(attempt, Succeeded, None)
    case Classified(d, _) => AttemptRecord(attempt, Failed, Some(d.reasonCode))
    case CallbackFailed(_) => AttemptRecord(attempt, Failed, None)
    case Raw(_) => AttemptRecord(attempt, Cancelled, None)
  }

  function Pair(a: AttemptRecord, d: DecisionRecord): Evidence {
    Evidence(d.candidate, a.attempt, a.outcome, d.decision, if d.reasonCode.Some? then d.reasonCode else a.reasonCode)
  }

  /** The bounded attempt buffer of `createAttemptRecorder`. */
  class AttemptRecorder {
    const maxAttempts: nat
    var attempts: seq<AttemptRecord>
    var dropped: nat

    constructor (maxAttempts: nat)
      ensures this.maxAttempts == maxAttempts && attempts == [] && dropped == 0
    {
      this.maxAttempts, attempts, dropped := maxAttempts, [], 0;
    }

    method Record(r: AttemptRecord)
      modifies this
      ensures if |old(attempts)| < maxAttempts
              then attempts == old(attempts) + [r] && dropped == old(dropped)
              else attempts == old(attempts) && dropped == old(dropped) + 1
    {
      if |attempts| >= maxAttempts {
        dropped := dropped + 1;
        return;
      }
      attempts := attempts + [r];
    }
  }

  /** The bounded decision buffer. */
  class DecisionBuffer {
    const limit: nat
    var records: seq<DecisionRecord>

    constructor (limit: nat)
      ensures this.limit == limit && records == []
    {
      this.limit, records := limit, [];
    }

    method RecordDecision(d: DecisionRecord)
      modifies this
      ensures records == if |old(records)| < limit then old(records) + [d] else old(records)
    {
      if |records| < limit { records := records + [d]; }
    }
  }

  /** `mapCandidateEvidence`: attempt i with decision i. */
  method MapCandidateEvidence(attempts: seq<AttemptRecord>, decisions: seq<DecisionRecord>) returns (out: seq<Evidence>)
    requires |attempts| <= |decisions|
    ensures |out| == |attempts| && forall i | 0 <= i < |out| :: out[i] == Pair(attempts[i], decisions[i])
  {
    out := [];
    for i := 0 to |attempts|
      invariant |out| == i && forall j | 0 <= j < i :: out[j] == Pair(attempts[j], decisions[j])
    {
      out := out + [Pair(attempts[i], decisions[i])];
    }
  }

  // ---- The two buffers against the visited attempts ---------------------------------------------

  function EndAt<T>(s: Script<T>, p: Position): End<T> {
    BoundedAttempt(s, p.candidate, p.attempt).0
  }

  predicate Decided<T>(end: End<T>) {
    !end.CallbackFailed? && !end.Raw?
  }

  /** The decision an attempt records for itself. */
  function DecisionAt<T>(s: Script<T>, p: Position): DecisionRecord {
    match EndAt(s, p)
    case Accepted(_) => DecisionRecord(p.candidate, AcceptedValue, None)
    case NotAccepted =>
      DecisionRecord(p.candidate, QualityRejected,
                     match s.accept(p.candidate, p.attempt) case Rejects(reason) => Some(reason) case _ => None)
    case Classified(d, _) => FailureRecord(p.candidate, d)
    case _ => DecisionRecord(p.candidate, AcceptedValue, None)
  }

  /** An attempt that ends with a decision records exactly that one, however often it was classified. */
  lemma DecidesOnce<T>(s: Script<T>, p: Position)
    ensures Decided(EndAt(s, p)) ==> BoundedAttempt(s, p.candidate, p.attempt).1 == [DecisionAt(s, p)]
    ensures !Decided(EndAt(s, p)) ==> BoundedAttempt(s, p.candidate, p.attempt).1 == []
    ensures EndAt(s, p).Raw? ==> EndAt(s, p).known.WasCancelled?
  {
  }

  function Bounded(n: nat, limit: nat): nat {
    if n <= limit then n else limit
  }

  /** Both buffers hold the first `limit` visited attempts, each its own entry; the rest are counted. */
  ghost predicate Aligned<T>(s: Script<T>, visited: seq<Position>, rec: AttemptRecorder, dec: DecisionBuffer)
    reads rec, dec
  {
    && rec.maxAttempts == dec.limit
    && |rec.attempts| == |dec.records| == Bounded(|visited|, rec.maxAttempts)
    && rec.dropped == |visited| - |rec.attempts|
    && forall i | 0 <= i < |rec.attempts| ::
         && rec.attempts[i] == RecordOf(EndAt(s, visited[i]), visited[i].attempt)
         && dec.records[i] == DecisionAt(s, visited[i])
  }

  /** One recorded attempt: the task body, its classification, and both records. */
  method RunAttempt<T>(s: Script<T>, p: Position, rec: AttemptRecorder, dec: DecisionBuffer,
      ghost visited: seq<Position>)
    returns (end: End<T>)
    requires Aligned(s, visited, rec, dec)
    modifies rec, dec
    ensures end == EndAt(s, p)
    ensures Decided(end) ==> Aligned(s, visited + [p], rec, dec)
  {
    var (taskEnd, records) := BoundedAttempt(s, p.candidate, p.attempt);
    end := taskEnd;
    DecidesOnce(s, p);
    for i := 0 to |records|
      invariant rec.attempts == old(rec.attempts) && rec.dropped == old(rec.dropped)
      invariant i == 0 ==> dec.records == old(dec.records)
      invariant i == 1 ==> dec.records == if |old(dec.records)| < dec.limit
          then old(dec.records) + [records[0]] else old(dec.records)
    {
      dec.RecordDecision(records[i]);
    }
    rec.Record(RecordOf(end, p.attempt));
  }

  /** How `run.retry` settles for one candidate. */
  datatype Settled<T> = Ends(end: End<T>) | Interrupted(error: Error)

  function Prepend<T>(front: seq<Position>, r: Searched<T>): Searched<T> {
    r.(visited := front + r.visited)
  }

  /** The search from p visits `made` and goes on from q. */
  ghost predicate Reaches<T>(s: Script<T>, n: nat, times: nat, p: Position, made: seq<Position>, q: Position)
    requires times >= 1
  {
    Search(s, n, times, p) == Prepend(made, Search(s, n, times, q))
  }

  /** The search from p visits `made`, one more attempt, and goes where that attempt leads. */
  lemma SearchStep<T>(s: Script<T>, n: nat, times: nat, p: Position, made: seq<Position>, q: Position)
    requires q.candidate < n && times >= 1 && Reaches(s, n, times, p, made, q)
    ensures if MoveAt(s, times, q).Finish?
        then Search(s, n, times, p) == Searched(MoveAt(s, times, q).found, made + [q])
            else Reaches(s, n, times, p, made + [q], MoveAt(s, times, q).to)
  {
    if MoveAt(s, times, q).Advance? {
      var rest := Search(s, n, times, MoveAt(s, times, q).to);
      assert made + ([q] + rest.visited) == (made + [q]) + rest.visited;
    }
  }

  /** The retry loop stops after the attempt at q, with the end it reports. */
  lemma RetryStops<T>(s: Script<T>, n: nat, times: nat, c: nat, made: seq<Position>, a: nat, r: Settled<T>)
    requires times >= 1 && c < n && Reaches(s, n, times, Position(c, 1), made, Position(c, a))
    requires var end := EndAt(s, Position(c, a));
             var again := end.Classified? && a < times && end.decision.disposition.RetrySame?;
             if again then s.interrupts(c, a).Some? && r == Interrupted(s.interrupts(c, a).value) else r == Ends(end)
    ensures Search(s, n, times, Position(c, 1)) ==
            AfterRetry(r, c, made + [Position(c, a)], Search(s, n, times, Position(c + 1, 1)))
  {
    SearchStep(s, n, times, Position(c, 1), made, Position(c, a));
  }

  /** What the search finds once the retry of candidate c has settled, `tail` being the search after c. */
  function AfterRetry<T>(r: Settled<T>, c: nat, made: seq<Position>, tail: Searched<T>): Searched<T> {
    if r.Interrupted? then Searched(Threw(r.error), made)
    else
      var found := FoundBy(r.end, c);
      if found.Some? then Searched(found.value, made) else Prepend(made, tail)
  }

  /** The result an attempt's end fixes, or None when the loop goes on to the next candidate. */
  function FoundBy<T>(end: End<T>, c: nat): Option<Found<T>> {
    match end
    case Accepted(v) => Some(Selected(c, v))
    case NotAccepted => None
    case CallbackFailed(e) => Some(Threw(e))
    case Raw(k) => Some(Threw(WorkIt(k)))
    case Classified(d, e) =>
      if d.disposition.Terminal? then Some(Terminated(d.reasonCode, e))
      else if d.disposition.RequiresInput? then Some(NeedsInput(d.reasonCode))
      else None
  }

  /** The retry loop of one candidate, owned by the classifier. */
  method RunRetry<T>(
    s: Script<T>, n: nat, times: nat, c: nat, rec: AttemptRecorder, dec: DecisionBuffer, ghost before: seq<Position>)
    returns (r: Settled<T>, ghost made: seq<Position>)
    requires times >= 1 && c < n && Aligned(s, before, rec, dec)
    modifies rec, dec
    ensures Search(s, n, times, Position(c, 1)) == AfterRetry(r, c, made, Search(s, n, times, Position(c + 1, 1)))
    ensures r.Ends? && Decided(r.end) ==> Aligned(s, before + made, rec, dec)
  {
    made := [];
    var attempt := 1;
    while true
      invariant 1 <= attempt <= times
      invariant Aligned(s, before + made, rec, dec)
      invariant Reaches(s, n, times, Position(c, 1), made, Position(c, attempt))
      decreases times - attempt
    {
      var p := Position(c, attempt);
      var end := RunAttempt(s, p, rec, dec, before + made);
      ghost var earlier := made;
      made := made + [p];
      assert before + earlier + [p] == before + made;
      var interrupt := s.interrupts(c, attempt);
      if !end.Classified? || attempt >= times || !end.decision.disposition.RetrySame? {
        RetryStops(s, n, times, c, earlier, attempt, Ends(end));
        return Ends(end), made;
      }
      if interrupt.Some? {
        RetryStops(s, n, times, c, earlier, attempt, Interrupted(interrupt.value));
        return Interrupted(interrupt.value), made;
      }
      SearchStep(s, n, times, Position(c, 1), earlier, p);
      attempt := attempt + 1;
    }
  }

  lemma PrependAfterRetry<T>(front: seq<Position>, r: Settled<T>, c: nat, made: seq<Position>, tail: Searched<T>)
    ensures Prepend(front, AfterRetry(r, c, made, tail)) == AfterRetry(r, c, front + made, tail)
  {
    assert front + (made + tail.visited) == (front + made) + tail.visited;
  }

  datatype RunResult<T> = RunResult(found: Found<T>, evidence: seq<Evidence>, dropped: nat)

  datatype ConfigError = RangeError

  predicate ValidConfig(n: nat, times: int, maxCandidates: int, limit: int) {
    && 1 <= maxCandidates <= MAX_CANDIDATES && n <= maxCandidates
    && 1 <= times <= MAX_RETRY_ATTEMPTS && n * times <= MAX_TOTAL_CANDIDATE_ATTEMPTS
    && limit >= 1
  }

  method ReadEvidence<T>(s: Script<T>, rec: AttemptRecorder, dec: DecisionBuffer, found: Found<T>,
      ghost visited: seq<Position>)
    returns (r: RunResult<T>)
    requires Aligned(s, visited, rec, dec)
    ensures r.found == found && EvidenceIs(s, visited, rec.maxAttempts, r)
  {
    var evidence := MapCandidateEvidence(rec.attempts, dec.records);
    return RunResult(found, evidence, rec.dropped);
  }

  /** Evidence i is the i-th visited attempt with its own decision; the rest are counted as dropped. */
  ghost predicate EvidenceIs<T>(s: Script<T>, visited: seq<Position>, limit: nat, r: RunResult<T>) {
    && |r.evidence| == Bounded(|visited|, limit)
    && r.dropped == |visited| - |r.evidence|
    && forall i | 0 <= i < |r.evidence| ::
         r.evidence[i] == Pair(RecordOf(EndAt(s, visited[i]), visited[i].attempt), DecisionAt(s, visited[i]))
  }

  /**
   * `firstAcceptable`: finds what the left-to-right search finds, and unless it throws
   * returns evidence aligned with the attempts it made.
   */
  method FirstAcceptable<T>(s: Script<T>, n: nat, times: int, maxCandidates: int, limit: int)
    returns (r: Result<RunResult<T>, ConfigError>)
    ensures r.Success? <==> ValidConfig(n, times, maxCandidates, limit)
    ensures r.Success? ==>
              var search := Search(s, n, times, Position(0, 1));
              && r.value.found == search.found
              && (!search.found.Threw? ==> EvidenceIs(s, search.visited, limit, r.value))
  {
    if !ValidConfig(n, times, maxCandidates, limit) { return Failure(RangeError); }
    var rec := new AttemptRecorder(limit);
    var dec := new DecisionBuffer(limit);
    ghost var visited: seq<Position> := [];
    var c := 0;
    while c < n
      invariant 0 <= c <= n
      invariant fresh(rec) && fresh(dec) && rec.maxAttempts == limit
      invariant Aligned(s, visited, rec, dec)
      invariant Search(s, n, times, Position(0, 1)) == Prepend(visited, Search(s, n, times, Position(c, 1)))
    {
      var settled; ghost var more;
      settled, more := RunRetry(s, n, times, c, rec, dec, visited);
      PrependAfterRetry(visited, settled, c, more, Search(s, n, times, Position(c + 1, 1)));
      visited := visited + more;
      if settled.Interrupted? { return Success(RunResult(Threw(settled.error), [], 0)); }
      match settled.end {
        case Accepted(v) =>
          var result := ReadEvidence(s, rec, dec, Selected(c, v), visited);
          return Success(result);
        case NotAccepted =>
        case CallbackFailed(e) => return Success(RunResult(Threw(e), [], 0));
        case Raw(k) => return Success(RunResult(Threw(WorkIt(k)), [], 0));
        case Classified(d, e) =>
          if d.disposition.Terminal? {
            var result := ReadEvidence(s, rec, dec, Terminated(d.reasonCode, e), visited);
            return Success(result);
          }
          if d.disposition.RequiresInput? {
            var result := ReadEvidence(s, rec, dec, NeedsInput(d.reasonCode), visited);
            return Success(result);
          }
      }
      c := c + 1;
    }
    var result := ReadEvidence(s, rec, dec, Exhausted, visited);
    assert Prepend(visited, Search(s, n, times, Position(n, 1))).visited == visited;
    return Success(result);
  }
}
