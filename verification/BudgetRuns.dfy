/**
 * Budget conservation: what any run of installs, overlays, scope openings and charges makes
 * of the shared cells.
 */
module BudgetRuns {
  import opened Wrappers
  import opened Contexts
  import opened Budgets

  datatype CellState = CellState(installed: int, spent: int, limit: int)

  /**
   * Scopes by number with their parents and contexts, every bag made so far, and the cells
   * by number. `charges` logs the charges that returned normally, `cancelled` the owners
   * cancelled by refused ones.
   */
  datatype System = System(
    parents: seq<Option<nat>>, contexts: seq<Bag<nat>>, bags: seq<Bag<nat>>, cells: seq<CellState>,
    charges: seq<(nat, int)>, cancelled: seq<nat>)

  const INITIAL := System([], [], [EmptyBag()], [], [], [])

  datatype Event =
    | Install(bag: nat, name: string, spent: int, limit: int)
    | Overlay(bag: nat, name: string, value: int)
    | Open(parent: Option<nat>, context: Option<nat>)
    | Charge(scope: nat, name: string, amount: int)

  /** Whatever cell a bag finds exists. */
  ghost predicate Refers(bag: Bag<nat>, n: nat) {
    forall name :: BudgetAt(bag, name).Some? ==> BudgetAt(bag, name).value < n
  }

  ghost predicate Shaped(y: System) {
    && |y.parents| == |y.contexts|
    && (forall i | 0 <= i < |y.bags| :: Refers(y.bags[i], |y.cells|))
    && (forall i | 0 <= i < |y.contexts| :: Refers(y.contexts[i], |y.cells|))
    && (forall c | 0 <= c < |y.parents| && y.parents[c].Some? :: y.parents[c].value < c)
  }

  /** The topmost scope of the unbroken chain of parents that see what s sees at `name`. */
  function Owner(y: System, s: nat, name: string): nat
    requires s < |y.parents| == |y.contexts|
    decreases s
  {
    var p := y.parents[s];
    if p.None? || p.value >= s || BudgetAt(y.contexts[p.value], name) != BudgetAt(y.contexts[s], name) then s
    else Owner(y, p.value, name)
  }

  function Seen(y: System, s: nat, name: string): Option<(int, int)>
    requires s < |y.contexts|
  {
    var cell := BudgetAt(y.contexts[s], name);
    if cell.Some? && cell.value < |y.cells| then Some((y.cells[cell.value].spent, y.cells[cell.value].limit)) else None
  }

  function ChargeStep(y: System, s: nat, name: string, amount: int): System
    requires s < |y.parents| == |y.contexts|
  {
    match Verdict(Seen(y, s, name), amount)
    case Accepted =>
      var cell := BudgetAt(y.contexts[s], name).value;
      y.(cells := y.cells[cell := y.cells[cell].(spent := y.cells[cell].spent + amount)],
         charges := y.charges + [(cell, amount)])
    case Exceeded(_, _) => y.(cancelled := y.cancelled + [Owner(y, s, name)])
    case _ => y
  }

  ghost function Step(y: System, e: Event): System
    requires Shaped(y)
  {
    match e
    case Install(b, name, spent, limit) =>
      if b >= |y.bags| || !(0 <= spent <= limit) then y
      else y.(cells := y.cells + [CellState(spent, spent, limit)],
              bags := y.bags + [With(y.bags[b], name, Cell(|y.cells|))])
    case Overlay(b, name, v) =>
      if b >= |y.bags| then y else y.(bags := y.bags + [With(y.bags[b], name, Raw(v))])
    case Open(p, b) =>
      if (p.Some? && p.value >= |y.parents|) || (b.Some? && b.value >= |y.bags|) then y
      else y.(parents := y.parents + [p],
              contexts := y.contexts + [if b.Some? then y.bags[b.value]
                                        else if p.Some? then y.contexts[p.value] else EmptyBag()])
    case Charge(s, name, amount) => if s >= |y.parents| then y else ChargeStep(y, s, name, amount)
  }

  lemma WithRefers(bag: Bag<nat>, name: string, value: Value<nat>, n: nat)
    requires Refers(bag, n) && (value.Cell? ==> value.cell < n)
    ensures Refers(With(bag, name, value), n)
  {
    forall k ensures BudgetAt(With(bag, name, value), k).Some? ==> BudgetAt(With(bag, name, value), k).value < n {
      WithShadows(bag, name, value, k);
      if k != name { assert BudgetAt(With(bag, name, value), k) == BudgetAt(bag, k); }
    }
  }

  lemma StepKeepsShape(y: System, e: Event)
    requires Shaped(y)
    ensures Shaped(Step(y, e))
  {
    if e.Install? && e.bag < |y.bags| {
      assert Refers(y.bags[e.bag], |y.cells| + 1);
      WithRefers(y.bags[e.bag], e.name, Cell(|y.cells|), |y.cells| + 1);
    } else if e.Overlay? && e.bag < |y.bags| {
      WithRefers(y.bags[e.bag], e.name, Raw(e.value), |y.cells|);
    }
  }

  ghost function Run(y: System, es: seq<Event>): (z: System)
    requires Shaped(y)
    ensures Shaped(z)
    decreases |es|
  {
    if es == [] then y
    else
      var x := Run(y, es[..|es| - 1]);
      StepKeepsShape(x, es[|es| - 1]);
      Step(x, es[|es| - 1])
  }

  /** The sum of the accepted charges of one cell. */
  function ChargedTo(charges: seq<(nat, int)>, cell: nat): int {
    if charges == [] then 0
    else
      var (at, amount) := charges[|charges| - 1];
      ChargedTo(charges[..|charges| - 1], cell) + (if at == cell then amount else 0)
  }

  ghost predicate Balanced(y: System) {
    && (forall i | 0 <= i < |y.charges| :: y.charges[i].0 < |y.cells| && y.charges[i].1 >= 0)
    && (forall i | 0 <= i < |y.cells| ::
          && y.cells[i].spent == y.cells[i].installed + ChargedTo(y.charges, i)
          && 0 <= y.cells[i].installed <= y.cells[i].spent <= y.cells[i].limit)
  }

  lemma {:induction false} NothingCharged(charges: seq<(nat, int)>, cell: nat)
    requires forall i | 0 <= i < |charges| :: charges[i].0 < cell
    ensures ChargedTo(charges, cell) == 0
  {
    if charges != [] { NothingCharged(charges[..|charges| - 1], cell); }
  }

  lemma AcceptedKeepsBalance(y: System, cell: nat, amount: int)
    requires Balanced(y) && cell < |y.cells| && 0 <= amount && y.cells[cell].spent + amount <= y.cells[cell].limit
    ensures Balanced(y.(cells := y.cells[cell := y.cells[cell].(spent := y.cells[cell].spent + amount)],
                        charges := y.charges + [(cell, amount)]))
  {
    assert (y.charges + [(cell, amount)])[..|y.charges|] == y.charges;
  }

  lemma StepKeepsBalance(y: System, e: Event)
    requires Shaped(y) && Balanced(y)
    ensures Balanced(Step(y, e))
  {
    match e
    case Install(_, _, _, _) => NothingCharged(y.charges, |y.cells|);
    case Charge(s, name, amount) =>
      if s < |y.parents| && Verdict(Seen(y, s, name), amount).Accepted? {
        AcceptedKeepsBalance(y, BudgetAt(y.contexts[s], name).value, amount);
      }
    case _ =>
  }

  /**
   * Over any run of charges from any scopes, a cell's `spent` is its installed value plus
   * the charges that returned normally, and never exceeds its limit.
   */
  lemma {:induction false} Conservation(es: seq<Event>)
    ensures Balanced(Run(INITIAL, es))
    decreases |es|
  {
    if es != [] {
      Conservation(es[..|es| - 1]);
      StepKeepsBalance(Run(INITIAL, es[..|es| - 1]), es[|es| - 1]);
    }
  }

  /** o is s or above it, and every scope from s up to o sees the cell s sees. */
  predicate SeesUpTo(y: System, s: nat, o: nat, name: string)
    requires s < |y.parents| == |y.contexts|
    decreases s
  {
    s == o || (var p := y.parents[s];
               && p.Some? && p.value < s && BudgetAt(y.contexts[p.value], name) == BudgetAt(y.contexts[s], name)
               && SeesUpTo(y, p.value, o, name))
  }

  /** The parent of o, if there is one, sees something else. */
  predicate ChainEnds(y: System, o: nat, name: string)
    requires Shaped(y) && o < |y.parents|
  {
    y.parents[o].Some? ==> BudgetAt(y.contexts[y.parents[o].value], name) != BudgetAt(y.contexts[o], name)
  }

  /** The owner is the one scope at which the unbroken chain of parents seeing the same cell ends. */
  lemma {:induction false} OwnerIsTopmost(y: System, s: nat, o: nat, name: string)
    requires Shaped(y) && s < |y.parents| && o < |y.parents|
    ensures o == Owner(y, s, name) <==> SeesUpTo(y, s, o, name) && ChainEnds(y, o, name)
    decreases s
  {
    if y.parents[s].Some? && BudgetAt(y.contexts[y.parents[s].value], name) == BudgetAt(y.contexts[s], name) {
      OwnerIsTopmost(y, y.parents[s].value, o, name);
    }
  }

  lemma {:induction false} OwnerIsScope(y: System, s: nat, name: string)
    requires Shaped(y) && s < |y.parents|
    ensures Owner(y, s, name) < |y.parents|
    decreases s
  {
    if y.parents[s].Some? && BudgetAt(y.contexts[y.parents[s].value], name) == BudgetAt(y.contexts[s], name) {
      OwnerIsScope(y, y.parents[s].value, name);
    }
  }

  lemma OwnerOfChain(y: System, s: nat, name: string)
    requires Shaped(y) && s < |y.parents|
    ensures var o := Owner(y, s, name); o < |y.parents| && SeesUpTo(y, s, o, name) && ChainEnds(y, o, name)
  {
    OwnerIsScope(y, s, name);
    OwnerIsTopmost(y, s, Owner(y, s, name), name);
  }

  /** The visible cell has room for the charge. */
  predicate HasRoom(y: System, s: nat, name: string, amount: int)
    requires s < |y.contexts|
  {
    var cell := BudgetAt(y.contexts[s], name);
    cell.Some? && cell.value < |y.cells| && y.cells[cell.value].spent + amount <= y.cells[cell.value].limit
  }

  /**
   * A charge is accepted exactly when it is not negative, a cell is visible, and what the
   * cell was installed with, all charges accepted since, and this one fit the limit; it
   * then adds to that cell and touches no other, shadowed or not.
   */
  lemma {:induction false} AcceptedExactly(es: seq<Event>, s: nat, name: string, amount: int)
    requires s < |Run(INITIAL, es).parents|
    ensures var y, z := Run(INITIAL, es), Step(Run(INITIAL, es), Charge(s, name, amount));
            var cell := BudgetAt(y.contexts[s], name);
            && (cell.Some? ==> cell.value < |y.cells|)
            && (z.charges != y.charges <==>
                  && amount >= 0 && cell.Some?
                  && y.cells[cell.value].installed + ChargedTo(y.charges, cell.value) + amount
                     <= y.cells[cell.value].limit)
            && (z.charges != y.charges ==>
                  && z.charges == y.charges + [(cell.value, amount)]
                  && z.cells == y.cells[cell.value := y.cells[cell.value].(spent := y.cells[cell.value].spent + amount)]
                  && z.cancelled == y.cancelled)
  {
    Conservation(es);
    assert Refers(Run(INITIAL, es).contexts[s], |Run(INITIAL, es).cells|);
  }

  /**
   * A charge the visible cell has no room for changes no cell and cancels the topmost scope
   * of the unbroken chain seeing that cell; any other refused charge changes nothing at all.
   */
  lemma {:induction false} RefusedExactly(es: seq<Event>, s: nat, name: string, amount: int)
    requires s < |Run(INITIAL, es).parents| && !(amount >= 0 && HasRoom(Run(INITIAL, es), s, name, amount))
    ensures var y, z := Run(INITIAL, es), Step(Run(INITIAL, es), Charge(s, name, amount));
            var cell := BudgetAt(y.contexts[s], name);
            && (amount < 0 || cell.None? ==> z == y)
            && (amount >= 0 && cell.Some? ==>
                  cell.value < |y.cells|
                  && exists o: nat | o < |y.parents| ::
                       z == y.(cancelled := y.cancelled + [o]) && SeesUpTo(y, s, o, name) && ChainEnds(y, o, name))
  {
    var y := Run(INITIAL, es);
    assert Refers(y.contexts[s], |y.cells|);
    OwnerOfChain(y, s, name);
    var z := ChargeStep(y, s, name, amount);
    assert z == y || z == y.(cancelled := y.cancelled + [Owner(y, s, name)]);
  }

  /** Cells never give room back: a charge once refused for lack of room is refused for good. */
  lemma {:induction false} RefusedStaysRefused(es: seq<Event>, later: seq<Event>, s: nat, name: string, amount: int)
    requires s < |Run(INITIAL, es).parents| && Verdict(Seen(Run(INITIAL, es), s, name), amount).Exceeded?
    ensures var z := Run(Run(INITIAL, es), later);
            && s < |z.parents| && z.contexts[s] == Run(INITIAL, es).contexts[s]
            && Verdict(Seen(z, s, name), amount).Exceeded?
    decreases |later|
  {
    if later != [] {
      RefusedStaysRefused(es, later[..|later| - 1], s, name, amount);
      StepSpends(Run(Run(INITIAL, es), later[..|later| - 1]), later[|later| - 1], s);
    }
  }

  lemma StepSpends(y: System, e: Event, s: nat)
    requires Shaped(y) && s < |y.contexts|
    ensures var z := Step(y, e);
            && s < |z.contexts| && z.contexts[s] == y.contexts[s]
            && |y.cells| <= |z.cells|
            && forall i | 0 <= i < |y.cells| ::
                y.cells[i].spent <= z.cells[i].spent && y.cells[i].limit == z.cells[i].limit
  {
  }

  /**
   * What the charging task is told: a negative amount before anything else, a missing cell
   * next, and otherwise, when the cell has no room, its limit and what it would have come to.
   */
  lemma {:induction false} VerdictExactly(es: seq<Event>, s: nat, name: string, amount: int)
    requires s < |Run(INITIAL, es).parents|
    ensures var y := Run(INITIAL, es);
            var cell, v := BudgetAt(y.contexts[s], name), Verdict(Seen(y, s, name), amount);
            && (v.NegativeAmount? <==> amount < 0)
            && (v.NotSet? <==> amount >= 0 && cell.None?)
            && (v.Accepted? || v.Exceeded? <==> amount >= 0 && cell.Some?)
            && (v.Exceeded? ==>
                  && cell.value < |y.cells| && v.limit == y.cells[cell.value].limit < v.spent
                  && v.spent == y.cells[cell.value].installed + ChargedTo(y.charges, cell.value) + amount)
  {
    Conservation(es);
    assert Refers(Run(INITIAL, es).contexts[s], |Run(INITIAL, es).cells|);
  }
}
