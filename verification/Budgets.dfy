/**
 * Cooperative budgets (packages/core/src/engine/scope.ts, lines 593-663): charges from any
 * scope against cells shared through overlay contexts, and the owner a refused charge cancels.
 */
module Budgets {
  import opened Wrappers
  import opened Contexts
  import opened ScopeTree

  datatype Charge = Accepted | NegativeAmount | NotSet | Exceeded(limit: int, spent: int)

  /** What a charge of `amount` against the visible cell comes to; `cell` is its spent and limit. */
  function Verdict(cell: Option<(int, int)>, amount: int): Charge {
    if amount < 0 then NegativeAmount
    else if cell.None? then NotSet
    else if cell.value.0 + amount > cell.value.1 then Exceeded(cell.value.1, cell.value.0 + amount)
    else Accepted
  }

  // ---- The objects ---------------------------------------------------------------------------

  /** Parents were opened before their children. */
  predicate Rooted(scope: ScopeImpl)
    decreases scope.id
  {
    scope.parent != null ==> scope.parent.id < scope.id && Rooted(scope.parent)
  }

  /** The topmost scope of the unbroken chain of parents that see what `scope` sees at `name`. */
  function OwnerObject(scope: ScopeImpl, name: string): ScopeImpl
    requires Rooted(scope)
    decreases scope.id
  {
    if scope.parent == null || BudgetAt(scope.parent.context, name) != BudgetAt(scope.context, name) then scope
    else OwnerObject(scope.parent, name)
  }

  method FindBudgetOwner(scope: ScopeImpl, name: string) returns (owner: ScopeImpl?)
    requires Rooted(scope) && BudgetAt(scope.context, name).Some?
    ensures owner == OwnerObject(scope, name) && !fresh(owner)
  {
    var visible := BudgetAt(scope.context, name);
    var cur: ScopeImpl? := scope;
    while cur != null
      invariant cur != null && !fresh(cur) && Rooted(cur) && BudgetAt(cur.context, name) == visible
      invariant OwnerObject(cur, name) == OwnerObject(scope, name)
      decreases if cur == null then 0 else cur.id
    {
      var above := if cur.parent == null then None else BudgetAt(cur.parent.context, name);
      var ownsVisible := Find(cur.context, name).Some? && BudgetAt(cur.context, name) == visible;
      if ownsVisible && above != visible { return cur; }
      cur := cur.parent;
    }
    return null;
  }

  function CellsAt(scope: ScopeImpl, name: string): set<BudgetCell> {
    var cell := BudgetAt(scope.context, name);
    if cell.Some? then {cell.value} else {}
  }

  ghost function CellSeen(scope: ScopeImpl, name: string): Option<(int, int)>
    reads CellsAt(scope, name)
  {
    var cell := BudgetAt(scope.context, name);
    if cell.Some? then Some((cell.value.spent, cell.value.limit)) else None
  }

  lemma {:induction false} OwnIsAllocated(entries: seq<Entry<BudgetCell>>, name: string)
    ensures Own(entries, name).Some? && Own(entries, name).value.Cell? ==> allocated(Own(entries, name).value.cell)
  {
    if entries != [] && entries[0].key != name { OwnIsAllocated(entries[1..], name); }
  }

  lemma {:induction false} CellIsAllocated(bag: Bag<BudgetCell>, name: string)
    ensures BudgetAt(bag, name).Some? ==> allocated(BudgetAt(bag, name).value)
  {
    OwnIsAllocated(bag.entries, name);
    if Own(bag.entries, name).None? && bag.parent.Some? { CellIsAllocated(bag.parent.value, name); }
  }

  /** `consumeBudget`: a refused charge leaves the cell alone and cancels the budget's owner. */
  method ConsumeBudget(scope: ScopeImpl, name: string, amount: int, reason: Reason) returns (r: Charge)
    requires Rooted(scope)
    modifies CellsAt(scope, name), OwnerObject(scope, name), OwnerObject(scope, name).own.dependents
    ensures r == Verdict(old(CellSeen(scope, name)), amount)
    ensures BudgetAt(scope.context, name).Some? ==>
              BudgetAt(scope.context, name).value.spent
              == old(BudgetAt(scope.context, name).value.spent) + if r.Accepted? then amount else 0
    ensures var owner := OwnerObject(scope, name);
            && owner.Now() == (if r.Exceeded? then CancelFields(old(owner.Now())) else old(owner.Now()))
            && owner.tasks == old(owner.tasks)
            && forall d | d in owner.own.dependents :: d.reason ==
                 if r.Exceeded? && old(owner.state).Running? then Aborted(old(d.reason), reason) else old(d.reason)
  {
    CellIsAllocated(scope.context, name);
    if amount < 0 { return NegativeAmount; }
    var cell := BudgetAt(scope.context, name);
    if cell.None? { return NotSet; }
    var nextSpent := cell.value.spent + amount;
    if nextSpent > cell.value.limit {
      var found := FindBudgetOwner(scope, name);
      var owner := if found == null then scope else found;
      owner.CancelWith(reason);
      return Exceeded(cell.value.limit, nextSpent);
    }
    cell.value.spent := nextSpent;
    return Accepted;
  }

  /** `with` for a budget: a checked copy in a cell of its own. */
  method InstallBudget(bag: Bag<BudgetCell>, name: string, spent: int, limit: int) returns (r: Option<Bag<BudgetCell>>)
    ensures r.Some? <==> 0 <= spent <= limit
    ensures r.Some? ==> exists cell: BudgetCell :: && fresh(cell) && cell.spent == spent && cell.limit == limit
                                       && r.value == With(bag, name, Cell(cell))
  {
    if spent < 0 || limit < 0 || spent > limit { return None; }
    var cell := new BudgetCell(spent, limit);
    return Some(With(bag, name, Cell(cell)));
  }
}
