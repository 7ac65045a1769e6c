/**
 * `ContextBagImpl` (packages/core/src/engine/context.ts): immutable overlays over a chain of
 * insertion-ordered maps, and the budget cells stored in them.
 */
module Contexts {
  import opened Wrappers

  /** A budget's mutable state; amounts are whole multiples of 10^-12. */
  class BudgetCell {
    const limit: int
    var spent: int

    constructor (spent: int, limit: int)
      ensures this.spent == spent && this.limit == limit
    {
      this.spent, this.limit := spent, limit;
    }
  }

  /** A stored value: a budget cell, identified by C, or anything else. */
  datatype Value<C> = Cell(cell: C) | Raw(id: int)

  datatype Entry<C> = Entry(key: string, value: Value<C>)

  datatype Bag<C> = Bag(entries: seq<Entry<C>>, parent: Option<Bag<C>>)

  function EmptyBag<C>(): Bag<C> {
    Bag([], None)
  }

  // ---- Lookup --------------------------------------------------------------------------------

  /** `Map.get` on one map. */
  function Own<C>(entries: seq<Entry<C>>, name: string): Option<Value<C>> {
    if entries == [] then None
    else if entries[0].key == name then Some(entries[0].value)
    else Own(entries[1..], name)
  }

  function Find<C>(bag: Bag<C>, name: string): Option<Value<C>> {
    if Own(bag.entries, name).Some? then Own(bag.entries, name)
    else if bag.parent.None? then None
    else Find(bag.parent.value, name)
  }

  function BudgetAt<C>(bag: Bag<C>, name: string): Option<C> {
    match Find(bag, name)
    case Some(Cell(c)) => Some(c)
    case _ => None
  }

  /** `find`: along the parent chain. */
  method FindValue<C>(bag: Bag<C>, name: string) returns (r: Option<Value<C>>)
    ensures r == Find(bag, name)
  {
    var at := Some(bag);
    while at.Some?
      invariant (if at.Some? then Find(at.value, name) else None) == Find(bag, name)
      decreases at
    {
      var own := Own(at.value.entries, name);
      if own.Some? { return own; }
      at := at.value.parent;
    }
    return None;
  }

  /** `with`: a new overlay; the old bag stays as it is. */
  function With<C>(bag: Bag<C>, name: string, value: Value<C>): Bag<C> {
    Bag([Entry(name, value)], Some(bag))
  }

  /** An overlay shadows one key and no other. */
  lemma WithShadows<C>(bag: Bag<C>, name: string, value: Value<C>, n: string)
    ensures Find(With(bag, name, value), n) == if n == name then Some(value) else Find(bag, n)
    ensures WellFormed(bag) ==> WellFormed(With(bag, name, value))
  {
    var entries := [Entry(name, value)];
    assert Own(entries, n) == if n == name then Some(value) else Own(entries[1..], n);
  }

  // ---- The flattened snapshot -------------------------------------------------------------------

  predicate DistinctKeys<C>(entries: seq<Entry<C>>) {
    forall i, j | 0 <= i < j < |entries| :: entries[i].key != entries[j].key
  }

  predicate WellFormed<C>(bag: Bag<C>) {
    DistinctKeys(bag.entries) && (bag.parent.Some? ==> WellFormed(bag.parent.value))
  }

  /** `Map.set`: an existing key keeps its place. */
  function Put<C>(m: seq<Entry<C>>, e: Entry<C>): seq<Entry<C>> {
    if m == [] then [e]
    else if m[0].key == e.key then [e] + m[1..]
    else [m[0]] + Put(m[1..], e)
  }

  lemma {:induction false} OwnPut<C>(m: seq<Entry<C>>, e: Entry<C>, name: string)
    ensures Own(Put(m, e), name) == if name == e.key then Some(e.value) else Own(m, name)
  {
    if m != [] && m[0].key != e.key { OwnPut(m[1..], e, name); }
  }

  lemma {:induction false} PutKeys<C>(m: seq<Entry<C>>, e: Entry<C>, name: string)
    ensures (exists i :: 0 <= i < |Put(m, e)| && Put(m, e)[i].key == name)
            ==> name == e.key || exists i :: 0 <= i < |m| && m[i].key == name
  {
    if m != [] && m[0].key != e.key {
      PutKeys(m[1..], e, name);
      if i :| 0 <= i < |Put(m, e)| && Put(m, e)[i].key == name {
        if i == 0 {
          assert m[0].key == name;
        } else {
          assert Put(m[1..], e)[i - 1].key == name;
          if name != e.key {
            var j :| 0 <= j < |m[1..]| && m[1..][j].key == name;
            assert m[j + 1].key == name;
          }
        }
      }
    } else if m != [] {
      if i :| 0 <= i < |Put(m, e)| && Put(m, e)[i].key == name { assert i > 0 ==> m[i].key == name; }
    }
  }

  lemma {:induction false} PutKeepsDistinct<C>(m: seq<Entry<C>>, e: Entry<C>)
    requires DistinctKeys(m)
    ensures DistinctKeys(Put(m, e))
  {
    if m != [] && m[0].key != e.key {
      PutKeepsDistinct(m[1..], e);
      PutKeys(m[1..], e, m[0].key);
    }
  }

  /** The last k bags of a lineage, nearest first: what they say of a name. */
  function FindIn<C>(lineage: seq<Bag<C>>, name: string): Option<Value<C>> {
    if lineage == [] then None
    else if Own(lineage[0].entries, name).Some? then Own(lineage[0].entries, name)
    else FindIn(lineage[1..], name)
  }

  lemma {:induction false} FindInAppended<C>(front: seq<Bag<C>>, bag: Bag<C>, name: string)
    ensures FindIn(front + [bag], name) ==
            if FindIn(front, name).Some? then FindIn(front, name) else Own(bag.entries, name)
  {
    if front == [] {
      assert front + [bag] == [bag];
    } else {
      assert (front + [bag])[1..] == front[1..] + [bag];
      FindInAppended(front[1..], bag, name);
    }
  }

  method Lineage<C>(bag: Bag<C>) returns (lineage: seq<Bag<C>>)
    requires WellFormed(bag)
    ensures forall name :: FindIn(lineage, name) == Find(bag, name)
    ensures forall i | 0 <= i < |lineage| :: DistinctKeys(lineage[i].entries)
  {
    lineage := [];
    var at := Some(bag);
    while at.Some?
      invariant at.Some? ==> WellFormed(at.value)
      invariant forall i | 0 <= i < |lineage| :: DistinctKeys(lineage[i].entries)
      invariant forall name :: (if FindIn(lineage, name).Some? then FindIn(lineage, name)
                                else if at.Some? then Find(at.value, name) else None) == Find(bag, name)
      decreases at
    {
      forall name ensures FindIn(lineage + [at.value], name) ==
                          if FindIn(lineage, name).Some? then FindIn(lineage, name) else Own(at.value.entries, name)
      {
        FindInAppended(lineage, at.value, name);
      }
      lineage := lineage + [at.value];
      at := at.value.parent;
    }
  }

  /** One bag's entries over what is already flattened. */
  method SetAll<C>(flat: seq<Entry<C>>, entries: seq<Entry<C>>) returns (r: seq<Entry<C>>)
    requires DistinctKeys(flat) && DistinctKeys(entries)
    ensures DistinctKeys(r)
    ensures forall name :: Own(r, name) == if Own(entries, name).Some? then Own(entries, name) else Own(flat, name)
  {
    r := flat;
    for i := 0 to |entries|
      invariant DistinctKeys(r)
      invariant forall name :: Own(r, name) ==
                  if Own(entries[..i], name).Some? then Own(entries[..i], name) else Own(flat, name)
    {
      forall name ensures Own(Put(r, entries[i]), name) ==
                          if Own(entries[..i + 1], name).Some? then Own(entries[..i + 1], name) else Own(flat, name)
      {
        OwnPut(r, entries[i], name);
        OwnPrefix(entries, i, name);
        assert Own(r, name) == if Own(entries[..i], name).Some? then Own(entries[..i], name) else Own(flat, name);
        if name == entries[i].key { assert Own(entries[..i + 1], name) == Some(entries[i].value); }
      }
      PutKeepsDistinct(r, entries[i]);
      r := Put(r, entries[i]);
    }
    assert entries[..|entries|] == entries;
  }

  lemma {:induction false} OwnPrefix<C>(entries: seq<Entry<C>>, i: nat, name: string)
    requires DistinctKeys(entries) && i < |entries|
    ensures Own(entries[..i + 1], name) ==
            if name == entries[i].key then Some(entries[i].value) else Own(entries[..i], name)
  {
    if i > 0 {
      assert entries[..i + 1][1..] == entries[1..][..i] && entries[..i][1..] == entries[1..][..i - 1];
      OwnPrefix(entries[1..], i - 1, name);
    }
  }

  /** `entriesSnapshot`: each key once, with the value that `find` gives it. */
  method EntriesSnapshot<C>(bag: Bag<C>) returns (flat: seq<Entry<C>>)
    requires WellFormed(bag)
    ensures DistinctKeys(flat)
    ensures forall name :: Own(flat, name) == Find(bag, name)
  {
    var lineage := Lineage(bag);
    flat := [];
    var i := |lineage|;
    while i > 0
      invariant 0 <= i <= |lineage|
      invariant DistinctKeys(flat)
      invariant forall name :: Own(flat, name) == FindIn(lineage[i..], name)
    {
      i := i - 1;
      assert lineage[i..][1..] == lineage[i + 1..];
      flat := SetAll(flat, lineage[i].entries);
    }
    assert lineage[0..] == lineage;
  }
}
