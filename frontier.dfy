/**
 * The search frontier: a min-priority queue of (priority, state) entries.
 * Entries are ordered as tuples are: by priority, then by the state's
 * fields left to right, the position tag compared as text. The queue's
 * internal heap layout is not modelled; only the entries it holds are.
 */
module Frontier {
  import opened Wrappers
  import opened Warehouse

  datatype Entry = Entry(priority: real, item: State)

  // ---------------------------------------------------------------------
  // The order on entries
  // ---------------------------------------------------------------------

  /** Text order: character by character, a proper prefix first. */
  predicate TextBelow(a: string, b: string) {
    if a == [] then b != []
    else if b == [] then false
    else if a[0] != b[0] then a[0] < b[0]
    else TextBelow(a[1..], b[1..])
  }

  predicate StateBelow(x: State, y: State) {
    || x.small < y.small
    || (x.small == y.small && x.large < y.large)
    || (x.small == y.small && x.large == y.large && x.mediumA < y.mediumA)
    || (x.small == y.small && x.large == y.large && x.mediumA == y.mediumA && x.mediumB < y.mediumB)
    || (x.small == y.small && x.large == y.large && x.mediumA == y.mediumA && x.mediumB == y.mediumB
        && TextBelow(x.position, y.position))
  }

  predicate EntryBelow(x: Entry, y: Entry) {
    x.priority < y.priority || (x.priority == y.priority && StateBelow(x.item, y.item))
  }

  predicate EntryAtMost(x: Entry, y: Entry) {
    x == y || EntryBelow(x, y)
  }

  /** `e` is held in `es` and no held entry is below it. */
  predicate IsLeast(e: Entry, es: seq<Entry>) {
    e in es && forall f :: f in es ==> EntryAtMost(e, f)
  }

  lemma {:induction false} TextBelowIrreflexive(a: string)
    ensures !TextBelow(a, a)
  {
    if a != [] {
      TextBelowIrreflexive(a[1..]);
    }
  }

  lemma {:induction false} TextBelowTransitive(a: string, b: string, c: string)
    requires TextBelow(a, b) && TextBelow(b, c)
    ensures TextBelow(a, c)
  {
    if a != [] && b != [] && c != [] && a[0] == b[0] && b[0] == c[0] {
      TextBelowTransitive(a[1..], b[1..], c[1..]);
    }
  }

  lemma {:induction false} TextBelowTotal(a: string, b: string)
    ensures a == b || TextBelow(a, b) || TextBelow(b, a)
    ensures !(TextBelow(a, b) && TextBelow(b, a))
  {
    if a != [] && b != [] && a[0] == b[0] {
      TextBelowTotal(a[1..], b[1..]);
      if a[1..] == b[1..] {
        assert a == [a[0]] + a[1..] && b == [b[0]] + b[1..];
      }
    }
  }

  /** The order on entries is a strict total order, as tuple comparison is. */
  lemma EntryOrder(x: Entry, y: Entry, z: Entry)
    ensures !EntryBelow(x, x)
    ensures EntryBelow(x, y) && EntryBelow(y, z) ==> EntryBelow(x, z)
    ensures x == y || EntryBelow(x, y) || EntryBelow(y, x)
    ensures !(EntryBelow(x, y) && EntryBelow(y, x))
  {
    TextBelowIrreflexive(x.item.position);
    TextBelowTotal(x.item.position, y.item.position);
    if TextBelow(x.item.position, y.item.position) && TextBelow(y.item.position, z.item.position) {
      TextBelowTransitive(x.item.position, y.item.position, z.item.position);
    }
  }

  /** At most one entry of a queue is least: the entry a pop takes is fully determined. */
  lemma LeastIsUnique(e: Entry, f: Entry, es: seq<Entry>)
    requires IsLeast(e, es) && IsLeast(f, es)
    ensures e == f
  {
    EntryOrder(e, f, e);
  }

  /** The least entry has the lowest priority of all entries. */
  lemma LeastHasLowestPriority(e: Entry, es: seq<Entry>)
    requires IsLeast(e, es)
    ensures forall f :: f in es ==> e.priority <= f.priority
  {
  }

  // ---------------------------------------------------------------------
  // The queue
  // ---------------------------------------------------------------------

  /** Finds the position of the least entry of a non-empty sequence. */
  method LeastIndex(es: seq<Entry>) returns (k: nat)
    requires es != []
    ensures k < |es| && IsLeast(es[k], es)
  {
    k := 0;
    var i := 1;
    while i < |es|
      invariant k < i <= |es|
      invariant forall j :: 0 <= j < i ==> EntryAtMost(es[k], es[j])
    {
      EntryOrder(es[i], es[k], es[i]);
      if EntryBelow(es[i], es[k]) {
        forall j | 0 <= j < i
          ensures EntryAtMost(es[i], es[j])
        {
          EntryOrder(es[i], es[k], es[j]);
        }
        k := i;
      }
      i := i + 1;
    }
  }

  lemma RemoveAt(es: seq<Entry>, k: nat)
    requires k < |es|
    ensures multiset(es[..k] + es[k + 1..]) == multiset(es) - multiset{es[k]}
  {
    assert es == es[..k] + [es[k]] + es[k + 1..];
  }

  class PriorityQueue {
    var elements: seq<Entry>

    constructor ()
      ensures elements == []
    {
      elements := [];
    }

    method Empty() returns (b: bool)
      ensures b <==> elements == []
    {
      b := |elements| == 0;
    }

    /** Adds exactly one entry; nothing is deduplicated. */
    method Put(item: State, priority: real)
      modifies this
      ensures elements == old(elements) + [Entry(priority, item)]
      ensures multiset(elements) == multiset(old(elements)) + multiset{Entry(priority, item)}
    {
      elements := elements + [Entry(priority, item)];
    }

    /**
     * Removes the least entry and returns its state; on an empty queue
     * returns `None` (the underlying pop fails there) and changes nothing.
     */
    method Get() returns (r: Option<State>)
      modifies this
      ensures old(elements) == [] ==> r == None && elements == old(elements)
      ensures old(elements) != [] ==> r.Some? && exists e :: IsLeast(e, old(elements)) && e.item == r.value
                                                        && multiset(elements) == multiset(old(elements)) - multiset{e}
    {
      if |elements| == 0 {
        return None;
      }
      var k := LeastIndex(elements);
      var e := elements[k];
      r := Some(e.item);
      RemoveAt(elements, k);
      elements := elements[..k] + elements[k + 1..];
    }
  }
}
