/**
 * What the caller's callbacks make of an attempt, in their own terms: how each answer moves
 * the candidate search on, or ends it, and what it leaves in the evidence.
 */
module CandidateFates {
  import opened Wrappers
  import opened Candidates
  import opened CandidateSelection

  /** Who decides about an attempt. */
  datatype Fate<T> =
    | Taken(value: T)                            // accepted
    | TurnedDown(reasonCode: string)             // rejected for its quality
    | Judged(decision: Decision, error: Error)   // the caller's classifier
    | OutOfBudget
    | OutOfTime
    | CalledOff                                  // cancelled
    | Broken(error: Error)                       // accept or classifier threw an error of its own

  function FateOfKnown<T>(k: Known): Fate<T> {
    match k
    case BudgetExceeded => OutOfBudget
    case TimedOut => OutOfTime
    case WasCancelled => CalledOff
  }

  function FateOfThrown<T>(e: Error): Fate<T> {
    if e.WorkIt? then FateOfKnown(e.known) else Broken(e)
  }

  /** Errors of the runtime decide for themselves wherever they come from; any other the caller judges once. */
  function FateOf<T>(s: Script<T>, c: nat, a: nat): Fate<T> {
    match s.execute(c, a)
    case Value(v) =>
      (match s.accept(c, a)
       case Accepts => Taken(v)
       case Rejects(reason) => TurnedDown(reason)
       case AcceptRaised(e) => FateOfThrown(e))
    case Raised(error) =>
      if error.WorkIt? then FateOfKnown(error.known)
      else match s.classify(c, a)
           case Decides(d) => Judged(d, error)
           case ClassifierRaised(e) => FateOfThrown(e)
  }

  /** Where the search goes from attempt p with that fate. */
  function MoveBy<T>(fate: Fate<T>, interrupt: Option<Error>, times: nat, p: Position): Move<T> {
    var nextCandidate := Advance(Position(p.candidate + 1, 1));
    match fate
    case Taken(v) => Finish(Selected(p.candidate, v))
    case TurnedDown(_) => nextCandidate
    case OutOfBudget => Finish(Terminated("workit_budget_exhausted", WorkIt(BudgetExceeded)))
    case OutOfTime => Finish(Terminated("workit_timeout", WorkIt(TimedOut)))
    case CalledOff => Finish(Threw(WorkIt(WasCancelled)))
    case Broken(e) => Finish(Threw(e))
    case Judged(d, e) =>
      match d.disposition
      case TryNext => nextCandidate
      case Terminal => Finish(Terminated(d.reasonCode, e))
      case RequiresInput => Finish(NeedsInput(d.reasonCode))
      case RetrySame =>
        if p.attempt >= times then nextCandidate
        else if interrupt.Some? then Finish(Threw(interrupt.value))
        else Advance(Position(p.candidate, p.attempt + 1))
  }

  /** The two classifications of an attempt come to one decision, the one its fate asks for. */
  lemma FateDecides<T>(s: Script<T>, times: nat, p: Position)
    ensures MoveAt(s, times, p) ==
            MoveBy(FateOf(s, p.candidate, p.attempt), s.interrupts(p.candidate, p.attempt), times, p)
  {
  }

  /** The search for the first acceptable value, by fates alone. */
  function SearchByFates<T>(s: Script<T>, n: nat, times: nat, p: Position): Searched<T>
    requires times >= 1
    decreases Left(n, times, p)
  {
    if p.candidate >= n then Searched(Exhausted, [])
    else
      match MoveBy(FateOf(s, p.candidate, p.attempt), s.interrupts(p.candidate, p.attempt), times, p)
      case Finish(found) => Searched(found, [p])
      case Advance(to) =>
        var rest := SearchByFates(s, n, times, to);
        rest.(visited := [p] + rest.visited)
  }

  /** Whatever the callbacks answer, selection is the left-to-right search by fates. */
  lemma {:induction false} SearchIsByFates<T>(s: Script<T>, n: nat, times: nat, p: Position)
    requires times >= 1
    ensures Search(s, n, times, p) == SearchByFates(s, n, times, p)
    decreases Left(n, times, p)
  {
    if p.candidate < n {
      FateDecides(s, times, p);
      if MoveAt(s, times, p).Advance? { SearchIsByFates(s, n, times, MoveAt(s, times, p).to); }
    }
  }

  /** What the evidence of an attempt says: nothing of a called-off or broken one, which end the search by throwing. */
  function EvidenceBy<T>(fate: Fate<T>, c: nat, a: nat): Option<Evidence> {
    match fate
    case Taken(_) => Some(Evidence(c, a, Succeeded, AcceptedValue, None))
    case TurnedDown(reason) => Some(Evidence(c, a, Succeeded, QualityRejected, Some(reason)))
    case OutOfBudget => Some(Evidence(c, a, Failed, FailedWith(Terminal), Some("workit_budget_exhausted")))
    case OutOfTime => Some(Evidence(c, a, Failed, FailedWith(Terminal), Some("workit_timeout")))
    case Judged(d, _) => Some(Evidence(c, a, Failed, FailedWith(d.disposition), Some(d.reasonCode)))
    case CalledOff => None
    case Broken(_) => None
  }

  function EvidenceAt<T>(s: Script<T>, p: Position): Option<Evidence> {
    EvidenceBy(FateOf(s, p.candidate, p.attempt), p.candidate, p.attempt)
  }

  /** The attempt's own record, paired with its own decision, says how its fate was decided. */
  lemma EvidenceTellsFate<T>(s: Script<T>, p: Position)
    ensures var fate := FateOf(s, p.candidate, p.attempt);
            && (Decided(EndAt(s, p)) <==> EvidenceBy(fate, p.candidate, p.attempt).Some?)
            && (Decided(EndAt(s, p)) ==>
                  EvidenceBy(fate, p.candidate, p.attempt)
                  == Some(Pair(RecordOf(EndAt(s, p), p.attempt), DecisionAt(s, p))))
  {
    DecidesOnce(s, p);
  }

  /**
   * A selection that does not throw returns what the search by fates finds, and evidence i
   * tells the fate of the i-th attempt it visited, as far as the limit allows.
   */
  lemma {:induction false} EvidenceByFates<T>(s: Script<T>, n: nat, times: nat, limit: nat, r: RunResult<T>)
    requires times >= 1
    requires var search := Search(s, n, times, Position(0, 1));
             !search.found.Threw? && EvidenceIs(s, search.visited, limit, r)
    ensures var visited := SearchByFates(s, n, times, Position(0, 1)).visited;
            && |r.evidence| == Bounded(|visited|, limit) && r.dropped == |visited| - |r.evidence|
            && forall i | 0 <= i < |r.evidence| ::
                 Some(r.evidence[i]) == EvidenceAt(s, visited[i])
  {
    var visited := Search(s, n, times, Position(0, 1)).visited;
    SearchIsByFates(s, n, times, Position(0, 1));
    SearchVisits(s, n, times, Position(0, 1));
    forall i | 0 <= i < |r.evidence|
      ensures Some(r.evidence[i]) == EvidenceAt(s, visited[i])
    {
      EvidenceTellsFate(s, visited[i]);
      VisitedIsDecided(s, n, times, Position(0, 1), i);
    }
  }

  /** A search that does not throw decided every attempt it visited. */
  lemma {:induction false} VisitedIsDecided<T>(s: Script<T>, n: nat, times: nat, p: Position, i: nat)
    requires times >= 1 && i < |Search(s, n, times, p).visited| && !Search(s, n, times, p).found.Threw?
    ensures Decided(EndAt(s, Search(s, n, times, p).visited[i]))
    decreases Left(n, times, p)
  {
    if MoveAt(s, times, p).Advance? && i > 0 { VisitedIsDecided(s, n, times, MoveAt(s, times, p).to, i - 1); }
  }
}
