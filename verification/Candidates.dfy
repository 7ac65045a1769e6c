/**
 * Candidate selection (packages/core/src/candidates/index.ts, classification.ts and
 * evidence.ts, with the attempt recorder of packages/core/src/replay/index.ts), without a
 * deadline: sequential candidates, retries owned by the failure classifier, and evidence
 * zipped from two separately bounded buffers.
 */
module Candidates {
  import opened Wrappers

  /** Errors WorkIt classifies itself; the first two end the search, the last propagates. */
  datatype Known = BudgetExceeded | TimedOut | WasCancelled

  datatype Error = WorkIt(known: Known) | Other(id: int)

  datatype Disposition = RetrySame | TryNext | Terminal | RequiresInput

  datatype Decision = Decision(disposition: Disposition, reasonCode: string)

  // ---- What the caller's callbacks answer at attempt a of candidate c -----------------------

  datatype Execution<T> = Value(value: T) | Raised(error: Error)

  datatype Classification = Decides(decision: Decision) | ClassifierRaised(error: Error)

  datatype Acceptance = Accepts | Rejects(reasonCode: string) | AcceptRaised(error: Error)

  /** `interrupts` is the error raised between a failed attempt and its retry: a refused charge or an aborted sleep. */
  datatype Script<T> = Script(
    execute: (nat, nat) -> Execution<T>,
    classify: (nat, nat) -> Classification,
    accept: (nat, nat) -> Acceptance,
    interrupts: (nat, nat) -> Option<Error>)

  // ---- One attempt ---------------------------------------------------------------------------

  /** How the attempt task ends; the last three are thrown. */
  datatype End<T> =
    | Accepted(value: T)
    | NotAccepted
    | Classified(decision: Decision, original: Error)
    | CallbackFailed(original: Error)
    | Raw(known: Known)

  datatype AttemptDecision = FailedWith(disposition: Disposition) | QualityRejected | AcceptedValue

  /** An entry of the decision buffer. */
  datatype DecisionRecord = DecisionRecord(candidate: nat, decision: AttemptDecision, reasonCode: Option<string>)

  function BuiltIn(k: Known): Option<Decision> {
    match k
    case BudgetExceeded => Some(Decision(Terminal, "workit_budget_exhausted"))
    case TimedOut => Some(Decision(Terminal, "workit_timeout"))
    case WasCancelled => None
  }

  /** `classifyCandidateError`: built-in decisions first, cancellation rethrown, callback failures wrapped. */
  function ClassifyError<T>(error: Error, classification: Classification): End<T> {
    if error.WorkIt? then
      if error.known.WasCancelled? then Raw(WasCancelled) else Classified(BuiltIn(error.known).value, error)
    else match classification
         case Decides(d) => Classified(d, error)
         case ClassifierRaised(e) => if e.WorkIt? then Raw(e.known) else CallbackFailed(e)
  }

  function FailureRecord(c: nat, d: Decision): DecisionRecord {
    DecisionRecord(c, FailedWith(d.disposition), Some(d.reasonCode))
  }

  /** `createAttemptTask`: the end of the attempt and the decisions it records. */
  function AttemptTask<T>(s: Script<T>, c: nat, a: nat): (End<T>, seq<DecisionRecord>) {
    match s.execute(c, a)
    case Raised(error) =>
      var end := ClassifyError(error, s.classify(c, a));
      (end, if end.Classified? then [FailureRecord(c, end.decision)] else [])
    case Value(v) =>
      match s.accept(c, a)
      case Accepts => (Accepted(v), [DecisionRecord(c, AcceptedValue, None)])
      case Rejects(reason) => (NotAccepted, [DecisionRecord(c, QualityRejected, Some(reason))])
      case AcceptRaised(e) => (if e.WorkIt? then Raw(e.known) else CallbackFailed(e), [])
  }

  /** `classifyDeadlineFailure` around it: what is still raw is classified once more. */
  function BoundedAttempt<T>(s: Script<T>, c: nat, a: nat): (End<T>, seq<DecisionRecord>) {
    var (end, records) := AttemptTask(s, c, a);
    if !end.Raw? then (end, records)
    else
      var again := ClassifyError<T>(WorkIt(end.known), s.classify(c, a));
      (again, records + if again.Classified? then [FailureRecord(c, again.decision)] else [])
  }

  // ---- The search: a specification ------------------------------------------------------------

  datatype Found<T> =
    | Selected(candidate: nat, value: T)
    | Exhausted
    | Terminated(reasonCode: string, error: Error)
    | NeedsInput(reasonCode: string)
    | Threw(error: Error)

  /** A visited attempt. */
  datatype Position = Position(candidate: nat, attempt: nat)

  datatype Searched<T> = Searched(found: Found<T>, visited: seq<Position>)

  /** What one attempt's end means for the search. */
  datatype Move<T> = Finish(found: Found<T>) | Advance(to: Position)

  function MoveAfter<T>(end: End<T>, interrupt: Option<Error>, times: nat, p: Position): Move<T> {
    var nextCandidate := Advance(Position(p.candidate + 1, 1));
    match end
    case Accepted(v) => Finish(Selected(p.candidate, v))
    case NotAccepted => nextCandidate
    case CallbackFailed(e) => Finish(Threw(e))
    case Raw(k) => Finish(Threw(WorkIt(k)))
    case Classified(d, e) =>
      match d.disposition
      case TryNext => nextCandidate
      case Terminal => Finish(Terminated(d.reasonCode, e))
      case RequiresInput => Finish(NeedsInput(d.reasonCode))
      case RetrySame =>
        if p.attempt >= times then nextCandidate
        else if interrupt.Some? then Finish(Threw(interrupt.value))
        else Advance(Position(p.candidate, p.attempt + 1))
  }

  function MoveAt<T>(s: Script<T>, times: nat, p: Position): Move<T> {
    MoveAfter(BoundedAttempt(s, p.candidate, p.attempt).0, s.interrupts(p.candidate, p.attempt), times, p)
  }

  /** How many attempts there are from p on: what is left of its candidate, then whole candidates. */
  function Left(n: nat, times: nat, p: Position): nat {
    if p.candidate >= n then 0
    else
      var here := if p.attempt <= times then times - p.attempt + 1 else 1;
      Room(n - p.candidate - 1, times) + here
  }

  /** k candidates of `times` attempts. */
  function Room(k: nat, times: nat): nat {
    if k == 0 then 0 else times + Room(k - 1, times)
  }

  /** The left-to-right search for the first acceptable value, from position p. */
  function Search<T>(s: Script<T>, n: nat, times: nat, p: Position): Searched<T>
    requires times >= 1
    decreases Left(n, times, p)
  {
    if p.candidate >= n then Searched(Exhausted, [])
    else
      match MoveAt(s, times, p)
      case Finish(found) => Searched(found, [p])
      case Advance(to) =>
        var rest := Search(s, n, times, to);
        rest.(visited := [p] + rest.visited)
  }

  /** Earlier in the list, or an earlier attempt of the same candidate. */
  predicate Before(p: Position, q: Position) {
    p.candidate < q.candidate || (p.candidate == q.candidate && p.attempt < q.attempt)
  }

  /**
   * The search visits strictly increasing positions, at most candidates * times of them,
   * and goes on from every one but the last.
   */
  lemma {:induction false} SearchVisits<T>(s: Script<T>, n: nat, times: nat, p: Position)
    requires times >= 1 && 1 <= p.attempt <= times
    ensures var visited := Search(s, n, times, p).visited;
            && |visited| <= Left(n, times, p)
            && (forall i | 0 <= i < |visited| ::
                  && visited[i].candidate < n && 1 <= visited[i].attempt <= times
                  && (visited[i] == p || Before(p, visited[i]))
                  && (i < |visited| - 1 ==> MoveAt(s, times, visited[i]) == Advance(visited[i + 1])))
            && (forall i, j | 0 <= i < j < |visited| :: Before(visited[i], visited[j]))
            && (p.candidate < n ==> visited != [] && visited[0] == p)
    decreases Left(n, times, p)
  {
    if p.candidate < n && MoveAt(s, times, p).Advance? {
      SearchVisits(s, n, times, MoveAt(s, times, p).to);
    }
  }

  /** The search ends as its last visited attempt does; it is exhausted when that one moves past the list. */
  lemma {:induction false} SearchEnds<T>(s: Script<T>, n: nat, times: nat, p: Position)
    requires times >= 1 && 1 <= p.attempt <= times && p.candidate < n
    ensures var r := Search(s, n, times, p);
            && r.visited != []
            && match MoveAt(s, times, r.visited[|r.visited| - 1])
               case Finish(found) => r.found == found
               case Advance(to) => r.found == Exhausted && to.candidate >= n
    decreases Left(n, times, p)
  {
    if MoveAt(s, times, p).Advance? {
      var to := MoveAt(s, times, p).to;
      if to.candidate < n { SearchEnds(s, n, times, to); }
    }
  }

  /**
   * A value is selected exactly when some visited attempt is accepted, and then it is the
   * first attempt the search accepts: every other visited one came before and was passed over.
   */
  lemma {:induction false} SelectsFirstAcceptable<T>(s: Script<T>, n: nat, times: nat, w: nat, v: T)
    requires times >= 1
    ensures var r := Search(s, n, times, Position(0, 1));
            && (r.found == Selected(w, v) <==>
                  exists i :: && 0 <= i < |r.visited| && r.visited[i].candidate == w
                              && BoundedAttempt(s, w, r.visited[i].attempt).0 == Accepted(v))
            && (forall i | 0 <= i < |r.visited| - 1 ::
                  !BoundedAttempt(s, r.visited[i].candidate, r.visited[i].attempt).0.Accepted?)
            && |r.visited| <= n * times
  {
    var r := Search(s, n, times, Position(0, 1));
    SearchVisits(s, n, times, Position(0, 1));
    if n > 0 {
      SearchEnds(s, n, times, Position(0, 1));
      assert |r.visited| <= n * times by { LeftIsProduct(n, times); }
      forall i | 0 <= i < |r.visited| - 1
        ensures !BoundedAttempt(s, r.visited[i].candidate, r.visited[i].attempt).0.Accepted?
      {
        assert MoveAt(s, times, r.visited[i]) == Advance(r.visited[i + 1]);
      }
      var last := |r.visited| - 1;
      var end := BoundedAttempt(s, r.visited[last].candidate, r.visited[last].attempt).0;
      assert r.found == Selected(w, v) <==> r.visited[last].candidate == w && end == Accepted(v);
    }
  }

  lemma LeftIsProduct(n: nat, times: nat)
    requires n > 0 && times >= 1
    ensures Left(n, times, Position(0, 1)) == n * times
  {
    RoomIsProduct(n - 1, times);
    assert n * times == (n - 1) * times + times;
  }

  lemma {:induction false} RoomIsProduct(k: nat, times: nat)
    ensures Room(k, times) == k * times
  {
    if k > 0 {
      RoomIsProduct(k - 1, times);
      assert k * times == (k - 1) * times + times;
    }
  }
}
