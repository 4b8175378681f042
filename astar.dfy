/**
 * A* search over the warehouse graph, and the reconstruction of a path from
 * the predecessor map it produces.
 */
module AStar {
  import opened Wrappers
  import opened Warehouse
  import opened Frontier

  /** The neighbours of a state at an unknown position cannot be listed, so the search stops there. */
  datatype SearchError = NoTransitions(state: State)

  /** The two maps a search hands back: predecessors and best known costs. */
  datatype Searched = Searched(cameFrom: map<State, Option<State>>, costSoFar: map<State, nat>)

  /** A lookup of a state that the predecessor map does not hold. */
  datatype ReconstructError = MissingKey(key: State)

  // ---------------------------------------------------------------------
  // What the search's two maps record
  // ---------------------------------------------------------------------

  /**
   * The maps describe a search from `start`: the start costs 0 and has no
   * predecessor, both maps have the same keys, and every other key was
   * reached over an edge from its recorded predecessor, at a recorded cost
   * no lower than the predecessor's plus that edge's.
   */
  ghost predicate SearchRecord(start: State, cameFrom: map<State, Option<State>>, costSoFar: map<State, nat>) {
    && start in costSoFar && costSoFar[start] == 0
    && start in cameFrom && cameFrom[start] == None
    && cameFrom.Keys == costSoFar.Keys
    && forall k {:trigger Reached(cameFrom, costSoFar, k)} :: k in cameFrom && k != start ==> Reached(cameFrom, costSoFar, k)
  }

  ghost predicate Reached(cameFrom: map<State, Option<State>>, costSoFar: map<State, nat>, k: State)
    requires k in cameFrom && cameFrom.Keys == costSoFar.Keys
  {
    && cameFrom[k].Some?
    && var p := cameFrom[k].value;
       && p in costSoFar
       && Step(p, k)
       && Cost(p, k).Some?
       && costSoFar[k] >= costSoFar[p] + Cost(p, k).value
  }

  /**
   * Every predecessor chain ends at `start`: `rank` strictly decreases from a
   * key to its predecessor, and only `start` has none.
   */
  ghost predicate RankedChains(start: State, cameFrom: map<State, Option<State>>, rank: map<State, nat>) {
    && start in cameFrom && cameFrom[start] == None
    && cameFrom.Keys <= rank.Keys
    && forall k {:trigger Ranked(cameFrom, rank, k)} :: k in cameFrom && k != start ==> Ranked(cameFrom, rank, k)
  }

  ghost predicate Ranked(cameFrom: map<State, Option<State>>, rank: map<State, nat>, k: State)
    requires k in cameFrom && cameFrom.Keys <= rank.Keys
  {
    cameFrom[k].Some? && cameFrom[k].value in cameFrom && rank[cameFrom[k].value] < rank[k]
  }

  /** `k`'s neighbours are all listed and all recorded. */
  ghost predicate Expanded(k: State, costSoFar: map<State, nat>) {
    Neighbors(k).Some? && forall t :: t in Neighbors(k).value ==> t in costSoFar
  }

  /** Every recorded state has been expanded. */
  ghost predicate Closed(costSoFar: map<State, nat>) {
    forall k {:trigger Expanded(k, costSoFar)} :: k in costSoFar ==> Expanded(k, costSoFar)
  }

  /** `k` is still queued, or it is not the goal and has been expanded. */
  ghost predicate Settled(k: State, queued: set<State>, goal: State, costSoFar: map<State, nat>) {
    k in queued || (k != goal && Expanded(k, costSoFar))
  }

  ghost function Items(es: seq<Entry>): set<State> {
    set e | e in es :: e.item
  }

  /** A sequence of states each of which is a neighbour of the one before. */
  ghost predicate IsWalk(p: seq<State>) {
    forall i :: 0 <= i < |p| - 1 ==> Step(p[i], p[i + 1])
  }

  ghost predicate Reaches(s: State, t: State) {
    exists p :: |p| > 0 && p[0] == s && p[|p| - 1] == t && IsWalk(p)
  }

  /** The summed edge costs of a walk. */
  ghost function WalkCost(p: seq<State>): nat
    requires IsWalk(p)
  {
    if |p| <= 1 then 0
    else
      NeighborCost(p[|p| - 2], p[|p| - 1]);
      WalkCost(p[..|p| - 1]) + Cost(p[|p| - 2], p[|p| - 1]).value
  }

  // ---------------------------------------------------------------------
  // Sums of recorded costs (the termination measure of the search)
  // ---------------------------------------------------------------------

  ghost function SumOver(m: map<State, nat>, keys: set<State>): nat
    requires keys <= m.Keys
    decreases keys
  {
    if keys == {} then 0 else var k :| k in keys; m[k] + SumOver(m, keys - {k})
  }

  ghost function CostSum(m: map<State, nat>): nat {
    SumOver(m, m.Keys)
  }

  lemma {:induction false} SumOverRemove(m: map<State, nat>, keys: set<State>, k: State)
    requires keys <= m.Keys && k in keys
    ensures SumOver(m, keys) == m[k] + SumOver(m, keys - {k})
    decreases keys
  {
    var j :| j in keys && SumOver(m, keys) == m[j] + SumOver(m, keys - {j});
    if j != k {
      SumOverRemove(m, keys - {j}, k);
      SumOverRemove(m, keys - {k}, j);
      assert keys - {j} - {k} == keys - {k} - {j};
    }
  }

  /** Lowering some entries (and raising none) lowers the sum. */
  lemma {:induction false} SumOverPointwise(m1: map<State, nat>, m2: map<State, nat>, keys: set<State>, w: State)
    requires keys <= m1.Keys && keys <= m2.Keys
    requires forall k :: k in keys ==> m1[k] <= m2[k]
    requires w in keys && m1[w] < m2[w]
    ensures SumOver(m1, keys) < SumOver(m2, keys)
    decreases keys
  {
    SumOverRemove(m1, keys, w);
    SumOverRemove(m2, keys, w);
    SumOverAtMost(m1, m2, keys - {w});
  }

  lemma {:induction false} SumOverAtMost(m1: map<State, nat>, m2: map<State, nat>, keys: set<State>)
    requires keys <= m1.Keys && keys <= m2.Keys
    requires forall k :: k in keys ==> m1[k] <= m2[k]
    ensures SumOver(m1, keys) <= SumOver(m2, keys)
    decreases keys
  {
    if keys != {} {
      var k :| k in keys;
      SumOverRemove(m1, keys, k);
      SumOverRemove(m2, keys, k);
      SumOverAtMost(m1, m2, keys - {k});
    }
  }

  // ---------------------------------------------------------------------
  // Consequences of the record
  // ---------------------------------------------------------------------

  /** Edges cost at least 1, so recorded costs rank the predecessor chains: they have no cycles. */
  lemma RecordRanksChains(start: State, cameFrom: map<State, Option<State>>, costSoFar: map<State, nat>)
    requires SearchRecord(start, cameFrom, costSoFar)
    ensures RankedChains(start, cameFrom, costSoFar)
  {
    forall k | k in cameFrom && k != start
      ensures Ranked(cameFrom, costSoFar, k)
    {
      assert Reached(cameFrom, costSoFar, k);
      NeighborCost(cameFrom[k].value, k);
    }
  }

  /** Only the start can be recorded at an unknown position. */
  lemma RecordedPosition(start: State, cameFrom: map<State, Option<State>>, costSoFar: map<State, nat>, k: State)
    requires SearchRecord(start, cameFrom, costSoFar) && k in costSoFar
    ensures k == start || IsLocation(k.position)
  {
    if k != start {
      assert Reached(cameFrom, costSoFar, k);
    }
  }

  /** Every recorded state is reachable from the start, along its predecessor chain. */
  lemma {:induction false} RecordedIsReachable(start: State, cameFrom: map<State, Option<State>>, costSoFar: map<State, nat>, k: State)
    returns (p: seq<State>)
    requires SearchRecord(start, cameFrom, costSoFar) && k in costSoFar
    ensures |p| > 0 && p[0] == start && p[|p| - 1] == k && IsWalk(p)
    ensures Reaches(start, k)
    decreases costSoFar[k]
  {
    if k == start {
      p := [start];
    } else {
      assert Reached(cameFrom, costSoFar, k);
      var q := cameFrom[k].value;
      NeighborCost(q, k);
      var r := RecordedIsReachable(start, cameFrom, costSoFar, q);
      p := r + [k];
      forall i | 0 <= i < |p| - 1 ensures Step(p[i], p[i + 1]) {
        if i < |r| - 1 {
          assert p[i] == r[i] && p[i + 1] == r[i + 1];
        }
      }
    }
  }

  /** A set of states that holds the start and all neighbours of its members holds every walk from the start. */
  lemma {:induction false} ClosedHoldsWalks(costSoFar: map<State, nat>, p: seq<State>)
    requires Closed(costSoFar)
    requires |p| > 0 && p[0] in costSoFar && IsWalk(p)
    ensures forall i :: 0 <= i < |p| ==> p[i] in costSoFar
  {
    if |p| > 1 {
      ClosedHoldsWalks(costSoFar, p[..|p| - 1]);
      assert p[|p| - 2] == p[..|p| - 1][|p| - 2];
      assert Expanded(p[|p| - 2], costSoFar);
      assert Step(p[|p| - 2], p[|p| - 1]);
      forall i | 0 <= i < |p| ensures p[i] in costSoFar {
        if i < |p| - 1 {
          assert p[i] == p[..|p| - 1][i];
        }
      }
    }
  }

  /**
   * When the search stops, either on the goal or with nothing left queued
   * and every recorded state settled, the goal is recorded exactly when it
   * can be reached from the start.
   */
  lemma StoppedSearch(start: State, goal: State, cameFrom: map<State, Option<State>>,
                      costSoFar: map<State, nat>, queued: set<State>)
    requires SearchRecord(start, cameFrom, costSoFar)
    requires goal in costSoFar ||
             (queued == {} && forall k {:trigger Settled(k, queued, goal, costSoFar)} ::
                                k in costSoFar ==> Settled(k, queued, goal, costSoFar))
    ensures goal in costSoFar <==> Reaches(start, goal)
  {
    if goal in costSoFar {
      var _ := RecordedIsReachable(start, cameFrom, costSoFar, goal);
    } else {
      assert Closed(costSoFar) by {
        forall k | k in costSoFar ensures Expanded(k, costSoFar) {
          assert Settled(k, queued, goal, costSoFar);
        }
      }
      if Reaches(start, goal) {
        var p :| |p| > 0 && p[0] == start && p[|p| - 1] == goal && IsWalk(p);
        ClosedHoldsWalks(costSoFar, p);
      }
    }
  }

  /** After a pop, every other state still queued stays queued, and nothing new is. */
  lemma ItemsAfterPop(was: seq<Entry>, now: seq<Entry>, e: Entry)
    requires e in was && multiset(now) == multiset(was) - multiset{e}
    ensures Items(now) <= Items(was)
    ensures forall k :: k in Items(was) && k != e.item ==> k in Items(now)
    ensures |now| == |was| - 1
  {
    assert multiset(was) == multiset(now) + multiset{e};
    forall k | k in Items(now) ensures k in Items(was) {
      var f :| f in now && f.item == k;
      assert multiset(now)[f] > 0;
    }
    forall k | k in Items(was) && k != e.item ensures k in Items(now) {
      var f :| f in was && f.item == k;
      assert f != e;
      assert multiset(was)[f] > 0;
      assert multiset(now)[f] == multiset(was)[f];
    }
  }

  lemma ItemsAfterPut(es: seq<Entry>, e: Entry)
    ensures Items(es + [e]) == Items(es) + {e.item}
  {
    assert forall f :: f in es + [e] <==> f in es || f == e;
  }

  /**
   * Recording a strictly cheaper (or first) way to reach `next` over the edge
   * from a recorded `current` keeps the record a record of a search from `start`.
   */
  lemma RelaxKeepsRecord(start: State, cameFrom: map<State, Option<State>>, costSoFar: map<State, nat>,
                         current: State, next: State, newCost: nat)
    requires SearchRecord(start, cameFrom, costSoFar)
    requires current in costSoFar && Step(current, next)
    requires Cost(current, next).Some? && newCost == costSoFar[current] + Cost(current, next).value
    requires next !in costSoFar || newCost < costSoFar[next]
    ensures next != start
    ensures SearchRecord(start, cameFrom[next := Some(current)], costSoFar[next := newCost])
  {
    NeighborCost(current, next);
    var cameFrom', costSoFar' := cameFrom[next := Some(current)], costSoFar[next := newCost];
    assert current != next;
    forall k | k in cameFrom' && k != start ensures Reached(cameFrom', costSoFar', k) {
      if k != next {
        assert Reached(cameFrom, costSoFar, k);
      }
    }
  }

  /** No key added and no recorded cost changed. */
  ghost predicate Unchanged(before: map<State, nat>, after: map<State, nat>) {
    after.Keys <= before.Keys && forall k :: k in before && k in after ==> after[k] == before[k]
  }

  lemma {:induction false} SubsetNoLarger(a: set<State>, b: set<State>)
    requires a <= b
    ensures |a| <= |b|
    decreases a
  {
    if a != {} {
      var x :| x in a;
      SubsetNoLarger(a - {x}, b - {x});
    }
  }

  /**
   * One round of the search makes progress: it records a new state of the
   * finite universe, or lowers some recorded cost (and raises none), or
   * leaves the records alone and shortens the frontier.
   */
  lemma Progress(universe: set<State>, cost0: map<State, nat>, cost1: map<State, nat>, len0: nat, len1: nat)
    requires cost0.Keys <= cost1.Keys <= universe
    requires forall k :: k in cost0 ==> cost1[k] <= cost0[k]
    requires Unchanged(cost0, cost1) ==> len1 < len0
    ensures || |universe - cost1.Keys| < |universe - cost0.Keys|
            || (|universe - cost1.Keys| == |universe - cost0.Keys| && CostSum(cost1) < CostSum(cost0))
            || (|universe - cost1.Keys| == |universe - cost0.Keys| && CostSum(cost1) == CostSum(cost0) && len1 < len0)
  {
    if cost1.Keys != cost0.Keys {
      assert !(cost1.Keys <= cost0.Keys);
      var x :| x in cost1.Keys && x !in cost0.Keys;
      var smaller, larger := universe - cost1.Keys, universe - cost0.Keys;
      SubsetNoLarger(smaller, larger - {x});
    } else if !Unchanged(cost0, cost1) {
      var w :| w in cost0 && cost1[w] != cost0[w];
      SumOverPointwise(cost1, cost0, cost0.Keys, w);
    } else {
      assert cost1 == cost0;
    }
  }

  /**
   * After `current` is taken off the frontier and expanded, every recorded
   * state is still queued or expanded.
   */
  lemma SettledAfterExpand(goal: State, current: State, cost0: map<State, nat>, cost1: map<State, nat>,
                           queued: set<State>, rest: set<State>, now: set<State>)
    requires forall k {:trigger Settled(k, queued, goal, cost0)} :: k in cost0 ==> Settled(k, queued, goal, cost0)
    requires queued <= rest + {current} && rest <= now
    requires cost0.Keys <= cost1.Keys
    requires forall k :: k in cost1 && k !in cost0 ==> k in now
    requires current != goal && Expanded(current, cost1)
    ensures forall k {:trigger Settled(k, now, goal, cost1)} :: k in cost1 ==> Settled(k, now, goal, cost1)
  {
    forall k | k in cost1
      ensures Settled(k, now, goal, cost1)
    {
      if k in cost0 && k != current && k !in now {
        assert Settled(k, queued, goal, cost0);
        assert Expanded(k, cost0);
      }
    }
  }

  // ---------------------------------------------------------------------
  // The search
  // ---------------------------------------------------------------------

  /**
   * Best-first search from `start` until `goal` is taken off the frontier or
   * the frontier runs dry. Entries are queued at the new cost plus
   * `heuristic(start, next)`. The result records a search from `start`, and
   * holds `goal` exactly when `goal` can be reached from `start`. The search
   * fails only when it has to list the neighbours of a start at an unknown
   * position.
   */
  method AStarSearch(start: State, goal: State, heuristic: (State, State) -> real)
    returns (res: Result<Searched, SearchError>)
    ensures res.Failure? <==> !IsLocation(start.position) && start != goal
    ensures res.Failure? ==> res.error == NoTransitions(start)
    ensures res.Success? ==> SearchRecord(start, res.value.cameFrom, res.value.costSoFar)
    ensures res.Success? ==> (goal in res.value.costSoFar <==> Reaches(start, goal))
  {
    var frontier := new PriorityQueue();
    frontier.Put(start, 0.0);
    var cameFrom: map<State, Option<State>> := map[start := None];
    var costSoFar: map<State, nat> := map[start := 0];
    ghost var universe := Universe(start);
    ItemsAfterPut([], Entry(0.0, start));

    var empty := frontier.Empty();
    while !empty
      invariant empty <==> frontier.elements == []
      invariant SearchRecord(start, cameFrom, costSoFar)
      invariant costSoFar.Keys <= universe
      invariant Items(frontier.elements) <= costSoFar.Keys
      invariant forall k {:trigger Settled(k, Items(frontier.elements), goal, costSoFar)} ::
                  k in costSoFar ==> Settled(k, Items(frontier.elements), goal, costSoFar)
      invariant !IsLocation(start.position) && start != goal ==> frontier.elements == [Entry(0.0, start)]
      decreases |universe - costSoFar.Keys|, CostSum(costSoFar), |frontier.elements|
    {
      ghost var queued := frontier.elements;
      var popped := frontier.Get();
      ghost var e :| IsLeast(e, queued) && e.item == popped.value
                     && multiset(frontier.elements) == multiset(queued) - multiset{e};
      var current := popped.value;
      ItemsAfterPop(queued, frontier.elements, e);
      assert current in Items(queued);
      RecordedPosition(start, cameFrom, costSoFar, current);
      assert !IsLocation(start.position) && start != goal ==> current == start;

      if current == goal {
        break;
      }

      var neighbors := Neighbors(current);
      if neighbors.None? {
        return Failure(NoTransitions(current));
      }
      assert IsLocation(current.position);

      ghost var cost0 := costSoFar;
      ghost var rest := frontier.elements;
      cameFrom, costSoFar := Expand(start, heuristic, frontier, current, neighbors.value, cameFrom, costSoFar);

      SettledAfterExpand(goal, current, cost0, costSoFar, Items(queued), Items(rest), Items(frontier.elements));
      Progress(universe, cost0, costSoFar, |queued|, |frontier.elements|);
      empty := frontier.Empty();
    }

    if goal !in costSoFar {
      assert Items(frontier.elements) == {};
    }
    StoppedSearch(start, goal, cameFrom, costSoFar, Items(frontier.elements));
    return Success(Searched(cameFrom, costSoFar));
  }

  /**
   * `e` queues its state at the state's recorded cost plus `heuristic(start, .)`,
   * where that cost is new or lower than in `cost0` and is reached from `current`.
   */
  ghost predicate QueuedBy(e: Entry, start: State, heuristic: (State, State) -> real, current: State,
                           cameFrom: map<State, Option<State>>, cost0: map<State, nat>, cost1: map<State, nat>) {
    && e.item in cost1 && e.item in cameFrom && cameFrom[e.item] == Some(current)
    && (e.item !in cost0 || cost1[e.item] < cost0[e.item])
    && e.priority == cost1[e.item] as real + heuristic(start, e.item)
  }

  /** `k` has an entry among those appended to `e0`. */
  ghost predicate Appended(k: State, e0: seq<Entry>, elements: seq<Entry>) {
    exists n :: |e0| <= n < |elements| && elements[n].item == k
  }

  /** The entries appended to `e0` are for pairwise different states. */
  ghost predicate AppendedOnce(e0: seq<Entry>, elements: seq<Entry>) {
    forall n, m :: |e0| <= n < m < |elements| ==> elements[n].item != elements[m].item
  }

  /**
   * What holds after the first `i` neighbours of `current` were relaxed,
   * starting from the maps `cameFrom`, `costSoFar` and the entries `e0`.
   */
  ghost predicate Expanding(start: State, heuristic: (State, State) -> real, current: State, neighbors: seq<State>, i: nat,
                            cameFrom: map<State, Option<State>>, costSoFar: map<State, nat>, e0: seq<Entry>,
                            cameFrom': map<State, Option<State>>, costSoFar': map<State, nat>, elements: seq<Entry>)
  {
    && ExpandingCosts(start, current, neighbors, i, cameFrom, costSoFar, cameFrom', costSoFar')
    && ExpandingQueue(start, heuristic, current, neighbors, i, costSoFar, e0, cameFrom', costSoFar', elements)
  }

  /**
   * The maps part of `Expanding`: still a search record inside the universe,
   * no cost raised, `current`'s cost and every unchanged state's predecessor
   * kept, and each of the first `i` neighbours at most `current`'s cost plus
   * the edge's.
   */
  ghost predicate ExpandingCosts(start: State, current: State, neighbors: seq<State>, i: nat,
                                 cameFrom: map<State, Option<State>>, costSoFar: map<State, nat>,
                                 cameFrom': map<State, Option<State>>, costSoFar': map<State, nat>)
  {
    && i <= |neighbors|
    && GrownRecord(start, costSoFar, cameFrom', costSoFar')
    && current in costSoFar && costSoFar'[current] == costSoFar[current]
    && (forall k :: k in costSoFar ==> costSoFar'[k] <= costSoFar[k])
    && (forall k :: k in costSoFar && k in cameFrom && costSoFar'[k] == costSoFar[k] ==> cameFrom'[k] == cameFrom[k])
    && (forall j :: 0 <= j < i ==>
          neighbors[j] in costSoFar' && Cost(current, neighbors[j]).Some?
          && costSoFar'[neighbors[j]] <= costSoFar[current] + Cost(current, neighbors[j]).value)
  }

  /** `cameFrom'`, `costSoFar'` record a search from `start` inside its universe, and keep every key of `costSoFar`. */
  ghost predicate GrownRecord(start: State, costSoFar: map<State, nat>,
                              cameFrom': map<State, Option<State>>, costSoFar': map<State, nat>)
  {
    && SearchRecord(start, cameFrom', costSoFar')
    && costSoFar'.Keys <= Universe(start)
    && costSoFar.Keys <= costSoFar'.Keys
  }

  /**
   * The queue part of `Expanding`: `e0` is kept in front, every state whose
   * cost changed has `current` as predecessor and an appended entry, and the
   * appended entries are for different states among the first `i` neighbours.
   */
  ghost predicate ExpandingQueue(start: State, heuristic: (State, State) -> real, current: State, neighbors: seq<State>, i: nat,
                                 costSoFar: map<State, nat>, e0: seq<Entry>,
                                 cameFrom': map<State, Option<State>>, costSoFar': map<State, nat>, elements: seq<Entry>)
  {
    && i <= |neighbors|
    && (forall k :: k in costSoFar' && (k !in costSoFar || costSoFar'[k] != costSoFar[k]) ==>
          k in cameFrom' && cameFrom'[k] == Some(current) && Appended(k, e0, elements))
    && |e0| <= |elements| && elements[..|e0|] == e0
    && (forall n :: |e0| <= n < |elements| ==>
          elements[n].item in neighbors[..i]
          && QueuedBy(elements[n], start, heuristic, current, cameFrom', costSoFar, costSoFar'))
    && AppendedOnce(e0, elements)
  }

  /**
   * Entries appended to `e0`, each queued for a lowered or new cost: they add
   * only recorded states, and there are none when no cost changed.
   */
  lemma QueuedTail(start: State, heuristic: (State, State) -> real, current: State,
                   cameFrom': map<State, Option<State>>, costSoFar: map<State, nat>, costSoFar': map<State, nat>,
                   e0: seq<Entry>, elements: seq<Entry>)
    requires |e0| <= |elements| && elements[..|e0|] == e0
    requires forall n :: |e0| <= n < |elements| ==> QueuedBy(elements[n], start, heuristic, current, cameFrom', costSoFar, costSoFar')
    ensures Items(e0) <= Items(elements) <= Items(e0) + costSoFar'.Keys
    ensures Unchanged(costSoFar, costSoFar') ==> elements == e0
    ensures forall k :: Appended(k, e0, elements) ==> k in Items(elements)
  {
    forall k | Appended(k, e0, elements) ensures k in Items(elements) {
      var n :| |e0| <= n < |elements| && elements[n].item == k;
      assert elements[n] in elements;
    }
    forall k | k in Items(e0) ensures k in Items(elements) {
      var e :| e in e0 && e.item == k;
      var n :| 0 <= n < |e0| && e0[n] == e;
      assert elements[n] == e;
    }
    forall k | k in Items(elements) ensures k in Items(e0) + costSoFar'.Keys {
      var e :| e in elements && e.item == k;
      var n :| 0 <= n < |elements| && elements[n] == e;
      if n < |e0| {
        assert e0[n] == e;
      } else {
        assert QueuedBy(elements[n], start, heuristic, current, cameFrom', costSoFar, costSoFar');
      }
    }
    if |e0| < |elements| {
      assert QueuedBy(elements[|e0|], start, heuristic, current, cameFrom', costSoFar, costSoFar');
    } else {
      assert elements == elements[..|e0|];
    }
  }

  /** Relaxing neighbour `i` when it is new or strictly cheaper through `current`. */
  lemma ExpandUpdated(start: State, heuristic: (State, State) -> real, current: State, neighbors: seq<State>, i: nat, next: State,
                      cameFrom: map<State, Option<State>>, costSoFar: map<State, nat>, e0: seq<Entry>,
                      cameFrom': map<State, Option<State>>, costSoFar': map<State, nat>, elements: seq<Entry>,
                      came1: map<State, Option<State>>, cost1: map<State, nat>, elements1: seq<Entry>)
    requires Expanding(start, heuristic, current, neighbors, i, cameFrom, costSoFar, e0, cameFrom', costSoFar', elements)
    requires i < |neighbors| && next == neighbors[i] && next !in neighbors[..i] && Step(current, next)
    requires Cost(current, next).Some?
    requires next !in costSoFar' || costSoFar'[current] + Cost(current, next).value < costSoFar'[next]
    requires came1 == cameFrom'[next := Some(current)]
    requires cost1 == costSoFar'[next := costSoFar'[current] + Cost(current, next).value]
    requires elements1 == elements + [Entry((costSoFar'[current] + Cost(current, next).value) as real + heuristic(start, next), next)]
    ensures Expanding(start, heuristic, current, neighbors, i + 1, cameFrom, costSoFar, e0, came1, cost1, elements1)
  {
    CostsUpdated(start, current, neighbors, i, next, cameFrom, costSoFar, cameFrom', costSoFar', came1, cost1);
    QueueUpdated(start, heuristic, current, neighbors, i, next, costSoFar, e0, cameFrom', costSoFar', elements,
                 came1, cost1, elements1);
  }

  /** The maps part of relaxing neighbour `i` when it is new or strictly cheaper. */
  lemma CostsUpdated(start: State, current: State, neighbors: seq<State>, i: nat, next: State,
                     cameFrom: map<State, Option<State>>, costSoFar: map<State, nat>,
                     cameFrom': map<State, Option<State>>, costSoFar': map<State, nat>,
                     came1: map<State, Option<State>>, cost1: map<State, nat>)
    requires ExpandingCosts(start, current, neighbors, i, cameFrom, costSoFar, cameFrom', costSoFar')
    requires i < |neighbors| && next == neighbors[i] && Step(current, next)
    requires Cost(current, next).Some?
    requires next !in costSoFar' || costSoFar'[current] + Cost(current, next).value < costSoFar'[next]
    requires came1 == cameFrom'[next := Some(current)]
    requires cost1 == costSoFar'[next := costSoFar'[current] + Cost(current, next).value]
    ensures ExpandingCosts(start, current, neighbors, i + 1, cameFrom, costSoFar, came1, cost1)
  {
    var newCost := costSoFar'[current] + Cost(current, next).value;
    RecordGrows(start, current, next, costSoFar, cameFrom', costSoFar', newCost, came1, cost1);
    assert next != current;
    assert next in costSoFar ==> newCost < costSoFar[next];
  }

  /** Recording a first or strictly cheaper way to reach `next` keeps `GrownRecord`. */
  lemma RecordGrows(start: State, current: State, next: State, costSoFar: map<State, nat>,
                    cameFrom': map<State, Option<State>>, costSoFar': map<State, nat>, newCost: nat,
                    came1: map<State, Option<State>>, cost1: map<State, nat>)
    requires GrownRecord(start, costSoFar, cameFrom', costSoFar')
    requires current in costSoFar' && Step(current, next)
    requires Cost(current, next).Some? && newCost == costSoFar'[current] + Cost(current, next).value
    requires next !in costSoFar' || newCost < costSoFar'[next]
    requires came1 == cameFrom'[next := Some(current)] && cost1 == costSoFar'[next := newCost]
    ensures GrownRecord(start, costSoFar, came1, cost1)
  {
    RelaxKeepsRecord(start, cameFrom', costSoFar', current, next, newCost);
    StepStaysInUniverse(start, current, next);
  }

  /** The queue part of relaxing neighbour `i` when it is new or strictly cheaper. */
  lemma QueueUpdated(start: State, heuristic: (State, State) -> real, current: State, neighbors: seq<State>, i: nat, next: State,
                     costSoFar: map<State, nat>, e0: seq<Entry>,
                     cameFrom': map<State, Option<State>>, costSoFar': map<State, nat>, elements: seq<Entry>,
                     came1: map<State, Option<State>>, cost1: map<State, nat>, elements1: seq<Entry>)
    requires ExpandingQueue(start, heuristic, current, neighbors, i, costSoFar, e0, cameFrom', costSoFar', elements)
    requires i < |neighbors| && next == neighbors[i] && next !in neighbors[..i]
    requires current in costSoFar' && Cost(current, next).Some?
    requires next in costSoFar ==> costSoFar'[current] + Cost(current, next).value < costSoFar[next]
    requires came1 == cameFrom'[next := Some(current)]
    requires cost1 == costSoFar'[next := costSoFar'[current] + Cost(current, next).value]
    requires elements1 == elements + [Entry((costSoFar'[current] + Cost(current, next).value) as real + heuristic(start, next), next)]
    ensures ExpandingQueue(start, heuristic, current, neighbors, i + 1, costSoFar, e0, came1, cost1, elements1)
  {
    QueuedAfterPut(start, heuristic, current, neighbors, i, next, costSoFar, e0, cameFrom', costSoFar', elements,
                   came1, cost1, elements1);
    assert elements1[..|e0|] == elements[..|e0|];
  }

  /** The entries queued while expanding stay correct when neighbour `i` is queued at its cost through `current`. */
  lemma QueuedAfterPut(start: State, heuristic: (State, State) -> real, current: State, neighbors: seq<State>, i: nat, next: State,
                       costSoFar: map<State, nat>, e0: seq<Entry>,
                       cameFrom': map<State, Option<State>>, costSoFar': map<State, nat>, elements: seq<Entry>,
                       came1: map<State, Option<State>>, cost1: map<State, nat>, elements1: seq<Entry>)
    requires i < |neighbors| && next == neighbors[i] && next !in neighbors[..i]
    requires current in costSoFar' && Cost(current, next).Some?
    requires next in costSoFar ==> costSoFar'[current] + Cost(current, next).value < costSoFar[next]
    requires |e0| <= |elements|
    requires forall n :: |e0| <= n < |elements| ==>
               elements[n].item in neighbors[..i]
               && QueuedBy(elements[n], start, heuristic, current, cameFrom', costSoFar, costSoFar')
    requires AppendedOnce(e0, elements)
    requires came1 == cameFrom'[next := Some(current)]
    requires cost1 == costSoFar'[next := costSoFar'[current] + Cost(current, next).value]
    requires elements1 == elements + [Entry((costSoFar'[current] + Cost(current, next).value) as real + heuristic(start, next), next)]
    ensures forall n :: |e0| <= n < |elements1| ==>
              elements1[n].item in neighbors[..i + 1]
              && QueuedBy(elements1[n], start, heuristic, current, came1, costSoFar, cost1)
    ensures AppendedOnce(e0, elements1)
    ensures Appended(next, e0, elements1)
    ensures forall k :: Appended(k, e0, elements) ==> Appended(k, e0, elements1)
  {
    assert elements1[|elements|].item == next;
    forall k | Appended(k, e0, elements) ensures Appended(k, e0, elements1) {
      var n :| |e0| <= n < |elements| && elements[n].item == k;
      assert elements1[n] == elements[n];
    }
    forall n, m | |e0| <= n < m < |elements1| ensures elements1[n].item != elements1[m].item {
      assert elements1[n] == elements[n];
      if m == |elements| {
        assert elements[n].item in neighbors[..i];
      } else {
        assert elements1[m] == elements[m];
      }
    }
    assert neighbors[..i + 1] == neighbors[..i] + [next];
    forall n | |e0| <= n < |elements1|
      ensures elements1[n].item in neighbors[..i + 1]
      ensures QueuedBy(elements1[n], start, heuristic, current, came1, costSoFar, cost1)
    {
      if n < |elements| {
        assert elements1[n] == elements[n];
        assert QueuedBy(elements[n], start, heuristic, current, cameFrom', costSoFar, costSoFar');
      }
    }
  }

  /** Relaxing neighbour `i` when it is no cheaper through `current`: nothing changes. */
  lemma ExpandKept(start: State, heuristic: (State, State) -> real, current: State, neighbors: seq<State>, i: nat, next: State,
                   cameFrom: map<State, Option<State>>, costSoFar: map<State, nat>, e0: seq<Entry>,
                   cameFrom': map<State, Option<State>>, costSoFar': map<State, nat>, elements: seq<Entry>,
                   came1: map<State, Option<State>>, cost1: map<State, nat>, elements1: seq<Entry>)
    requires Expanding(start, heuristic, current, neighbors, i, cameFrom, costSoFar, e0, cameFrom', costSoFar', elements)
    requires i < |neighbors| && next == neighbors[i] && Cost(current, next).Some?
    requires next in costSoFar' && costSoFar'[next] <= costSoFar'[current] + Cost(current, next).value
    requires came1 == cameFrom' && cost1 == costSoFar' && elements1 == elements
    ensures Expanding(start, heuristic, current, neighbors, i + 1, cameFrom, costSoFar, e0, came1, cost1, elements1)
  {
    assert neighbors[..i + 1] == neighbors[..i] + [next];
  }

  /** One round of the inner loop keeps `Expanding`, whichever way `Relax` went. */
  lemma ExpandStep(start: State, heuristic: (State, State) -> real, current: State, neighbors: seq<State>, i: nat, next: State,
                   cameFrom: map<State, Option<State>>, costSoFar: map<State, nat>, e0: seq<Entry>,
                   cameFrom': map<State, Option<State>>, costSoFar': map<State, nat>, elements: seq<Entry>,
                   came1: map<State, Option<State>>, cost1: map<State, nat>, elements1: seq<Entry>)
    requires Expanding(start, heuristic, current, neighbors, i, cameFrom, costSoFar, e0, cameFrom', costSoFar', elements)
    requires i < |neighbors| && next == neighbors[i] && next !in neighbors[..i] && Step(current, next)
    requires Cost(current, next).Some?
    requires next !in costSoFar' || costSoFar'[current] + Cost(current, next).value < costSoFar'[next] ==>
               && came1 == cameFrom'[next := Some(current)]
               && cost1 == costSoFar'[next := costSoFar'[current] + Cost(current, next).value]
               && elements1 == elements + [Entry((costSoFar'[current] + Cost(current, next).value) as real + heuristic(start, next), next)]
    requires next in costSoFar' && costSoFar'[next] <= costSoFar'[current] + Cost(current, next).value ==>
               came1 == cameFrom' && cost1 == costSoFar' && elements1 == elements
    ensures Expanding(start, heuristic, current, neighbors, i + 1, cameFrom, costSoFar, e0, came1, cost1, elements1)
  {
    if next !in costSoFar' || costSoFar'[current] + Cost(current, next).value < costSoFar'[next] {
      ExpandUpdated(start, heuristic, current, neighbors, i, next, cameFrom, costSoFar, e0, cameFrom', costSoFar', elements,
                    came1, cost1, elements1);
    } else {
      ExpandKept(start, heuristic, current, neighbors, i, next, cameFrom, costSoFar, e0, cameFrom', costSoFar', elements,
                 came1, cost1, elements1);
    }
  }

  /**
   * The inner loop of the search: for each neighbour of `current`, record
   * and queue it when it is new or now strictly cheaper to reach.
   */
  method Expand(start: State, heuristic: (State, State) -> real, frontier: PriorityQueue,
                current: State, neighbors: seq<State>,
                cameFrom: map<State, Option<State>>, costSoFar: map<State, nat>)
    returns (cameFrom': map<State, Option<State>>, costSoFar': map<State, nat>)
    modifies frontier
    requires SearchRecord(start, cameFrom, costSoFar)
    requires costSoFar.Keys <= Universe(start)
    requires current in costSoFar && Neighbors(current) == Some(neighbors)
    ensures SearchRecord(start, cameFrom', costSoFar')
    ensures costSoFar'.Keys <= Universe(start)
    ensures costSoFar.Keys <= costSoFar'.Keys
    ensures Expanded(current, costSoFar')
    // every neighbour now costs at most `current`'s cost plus the edge's, and `current`'s own cost is kept
    ensures costSoFar'[current] == costSoFar[current]
    ensures forall t :: t in neighbors ==>
              t in costSoFar' && Cost(current, t).Some? && costSoFar'[t] <= costSoFar[current] + Cost(current, t).value
    // a recorded cost only ever goes down, and then through `current`, and the state is queued again
    ensures forall k :: k in costSoFar ==> costSoFar'[k] <= costSoFar[k]
    ensures forall k :: k in costSoFar' && (k !in costSoFar || costSoFar'[k] != costSoFar[k]) ==>
              cameFrom'[k] == Some(current) && Appended(k, old(frontier.elements), frontier.elements)
              && k in Items(frontier.elements)
    // a state whose cost did not change keeps its predecessor
    ensures forall k :: k in costSoFar && costSoFar'[k] == costSoFar[k] ==> cameFrom'[k] == cameFrom[k]
    // entries are only appended, each at its state's new cost plus the heuristic from the start
    ensures |old(frontier.elements)| <= |frontier.elements|
    ensures frontier.elements[..|old(frontier.elements)|] == old(frontier.elements)
    ensures forall n :: |old(frontier.elements)| <= n < |frontier.elements| ==>
              QueuedBy(frontier.elements[n], start, heuristic, current, cameFrom', costSoFar, costSoFar')
    ensures AppendedOnce(old(frontier.elements), frontier.elements)
    ensures Items(old(frontier.elements)) <= Items(frontier.elements) <= Items(old(frontier.elements)) + costSoFar'.Keys
    ensures Unchanged(costSoFar, costSoFar') ==> frontier.elements == old(frontier.elements)
  {
    cameFrom', costSoFar' := cameFrom, costSoFar;
    assert |neighbors| == 2 && neighbors[0] != neighbors[1];
    for i := 0 to |neighbors|
      invariant Expanding(start, heuristic, current, neighbors, i, cameFrom, costSoFar, old(frontier.elements),
                          cameFrom', costSoFar', frontier.elements)
    {
      var next := neighbors[i];
      assert next !in neighbors[..i];
      NeighborCost(current, next);
      ghost var came, before, queued := cameFrom', costSoFar', frontier.elements;
      cameFrom', costSoFar' := Relax(start, heuristic, frontier, current, next, cameFrom', costSoFar');
      ExpandStep(start, heuristic, current, neighbors, i, next, cameFrom, costSoFar, old(frontier.elements), came, before, queued,
                 cameFrom', costSoFar', frontier.elements);
    }
    forall t | t in neighbors
      ensures t in costSoFar' && Cost(current, t).Some? && costSoFar'[t] <= costSoFar[current] + Cost(current, t).value
    {
      var j :| 0 <= j < |neighbors| && neighbors[j] == t;
    }
    QueuedTail(start, heuristic, current, cameFrom', costSoFar, costSoFar', old(frontier.elements), frontier.elements);
  }

  /**
   * One step of the inner loop: `next` costs `current`'s recorded cost plus
   * the edge's; when it is new or that is strictly cheaper, record the cost
   * and `current` as its predecessor and queue it at that cost plus
   * `heuristic(start, next)`; otherwise change nothing.
   */
  method Relax(start: State, heuristic: (State, State) -> real, frontier: PriorityQueue,
               current: State, next: State,
               cameFrom: map<State, Option<State>>, costSoFar: map<State, nat>)
    returns (cameFrom': map<State, Option<State>>, costSoFar': map<State, nat>)
    modifies frontier
    requires current in costSoFar && Step(current, next)
    ensures Cost(current, next).Some?
    ensures next !in costSoFar || costSoFar[current] + Cost(current, next).value < costSoFar[next] ==>
              && cameFrom' == cameFrom[next := Some(current)]
              && costSoFar' == costSoFar[next := costSoFar[current] + Cost(current, next).value]
              && frontier.elements == old(frontier.elements)
                                      + [Entry((costSoFar[current] + Cost(current, next).value) as real + heuristic(start, next), next)]
    ensures next in costSoFar && costSoFar[next] <= costSoFar[current] + Cost(current, next).value ==>
              cameFrom' == cameFrom && costSoFar' == costSoFar && frontier.elements == old(frontier.elements)
  {
    NeighborCost(current, next);
    cameFrom', costSoFar' := cameFrom, costSoFar;
    var newCost := costSoFar[current] + Cost(current, next).value;
    if next !in costSoFar || newCost < costSoFar[next] {
      costSoFar' := costSoFar[next := newCost];
      var priority := newCost as real + heuristic(start, next);
      frontier.Put(next, priority);
      cameFrom' := cameFrom[next := Some(current)];
    }
  }

  // ---------------------------------------------------------------------
  // Path reconstruction
  // ---------------------------------------------------------------------

  /** The sequence read back to front. */
  function Reversed<T>(s: seq<T>): (r: seq<T>)
    ensures |r| == |s|
    ensures forall i :: 0 <= i < |s| ==> r[i] == s[|s| - 1 - i]
  {
    if s == [] then [] else Reversed(s[1..]) + [s[0]]
  }

  /**
   * `path` runs from `start`, and each state after the first has the one
   * before it as its recorded predecessor.
   */
  ghost predicate PathBack(start: State, cameFrom: map<State, Option<State>>, path: seq<State>) {
    && |path| > 0 && path[0] == start
    && forall i :: 0 < i < |path| ==> path[i] in cameFrom && cameFrom[path[i]] == Some(path[i - 1])
  }

  /** `b` is the recorded predecessor of `a`, and of lower rank. */
  ghost predicate LinkBack(cameFrom: map<State, Option<State>>, rank: map<State, nat>, a: State, b: State) {
    a in cameFrom && cameFrom[a] == Some(b) && b in cameFrom && a in rank && b in rank && rank[b] < rank[a]
  }

  /** Each state of `walk` after the first is the recorded predecessor of the one before it, of lower rank. */
  ghost predicate WalkBack(cameFrom: map<State, Option<State>>, rank: map<State, nat>, walk: seq<State>) {
    forall i, j {:trigger walk[i], walk[j]} :: 0 <= i && j == i + 1 && j < |walk| ==>
      LinkBack(cameFrom, rank, walk[i], walk[j])
  }

  /**
   * Walks back from `goal` through the predecessor map until `start`, then
   * reverses what it collected. Fails on a goal the map does not hold.
   * Every chain must end at `start` (as in any map a search produced), or
   * the walk would not end.
   */
  method ReconstructPath(cameFrom: map<State, Option<State>>, start: State, goal: State, ghost rank: map<State, nat>)
    returns (res: Result<seq<State>, ReconstructError>)
    requires RankedChains(start, cameFrom, rank)
    ensures res.Failure? <==> goal !in cameFrom
    ensures res.Failure? ==> res.error == MissingKey(goal)
    ensures res.Success? ==> PathBack(start, cameFrom, res.value) && res.value[|res.value| - 1] == goal
    ensures res.Success? ==> forall i :: 0 <= i < |res.value| ==> res.value[i] in cameFrom
    ensures res.Success? ==> forall i :: 0 < i < |res.value| ==> rank[res.value[i - 1]] < rank[res.value[i]]
  {
    var current := goal;
    var path := [current];
    while current != start
      invariant current in cameFrom || path == [goal]
      invariant goal in cameFrom || path == [goal]
      invariant |path| > 0 && path[0] == goal && path[|path| - 1] == current
      invariant WalkBack(cameFrom, rank, path)
      decreases if current in cameFrom then rank[current] else 0
    {
      if current !in cameFrom {
        return Failure(MissingKey(current));
      }
      assert Ranked(cameFrom, rank, current);
      WalkBackExtend(cameFrom, rank, path, cameFrom[current].value);
      current := cameFrom[current].value;
      path := path + [current];
    }
    ReversedWalk(start, cameFrom, rank, path);
    path := Reversed(path);
    return Success(path);
  }

  lemma WalkBackExtend(cameFrom: map<State, Option<State>>, rank: map<State, nat>, walk: seq<State>, x: State)
    requires WalkBack(cameFrom, rank, walk) && |walk| > 0 && cameFrom.Keys <= rank.Keys
    requires walk[|walk| - 1] in cameFrom && cameFrom[walk[|walk| - 1]] == Some(x)
    requires x in cameFrom && rank[x] < rank[walk[|walk| - 1]]
    ensures WalkBack(cameFrom, rank, walk + [x])
  {
    var w := walk + [x];
    forall i, j {:trigger w[i], w[j]} | 0 <= i && j == i + 1 && j < |w|
      ensures LinkBack(cameFrom, rank, w[i], w[j])
    {
      if j < |walk| {
        assert w[i] == walk[i] && w[j] == walk[j];
      } else {
        assert w[i] == walk[|walk| - 1] && w[j] == x;
      }
    }
  }

  /** Read front to back, a walk back to `start` is a path from `start`. */
  lemma ReversedWalk(start: State, cameFrom: map<State, Option<State>>, rank: map<State, nat>, walk: seq<State>)
    requires |walk| > 0 && walk[0] in cameFrom && walk[|walk| - 1] == start
    requires cameFrom.Keys <= rank.Keys
    requires WalkBack(cameFrom, rank, walk)
    ensures PathBack(start, cameFrom, Reversed(walk))
    ensures forall i :: 0 <= i < |walk| ==> Reversed(walk)[i] in cameFrom
    ensures forall i :: 0 < i < |walk| ==> rank[Reversed(walk)[i - 1]] < rank[Reversed(walk)[i]]
  {
    var path := Reversed(walk);
    forall i | 0 < i < |path|
      ensures path[i] in cameFrom && cameFrom[path[i]] == Some(path[i - 1])
      ensures rank[path[i - 1]] < rank[path[i]]
    {
      var j := |walk| - i;
      assert path[i] == walk[j - 1] && path[i - 1] == walk[j];
      assert walk[j - 1] in cameFrom && cameFrom[walk[j - 1]] == Some(walk[j]);
    }
    forall i | 0 <= i < |path| ensures path[i] in cameFrom {
      if i < |path| - 1 {
        assert path[i + 1] in cameFrom;
      }
    }
  }

  /**
   * The path rebuilt from a search's record is a walk through the graph,
   * and its edges cost no more in total than the cost recorded for its end.
   */
  lemma {:induction false} PathFromRecord(start: State, cameFrom: map<State, Option<State>>, costSoFar: map<State, nat>, path: seq<State>)
    requires SearchRecord(start, cameFrom, costSoFar)
    requires PathBack(start, cameFrom, path)
    ensures IsWalk(path)
    ensures path[|path| - 1] in costSoFar && WalkCost(path) <= costSoFar[path[|path| - 1]]
  {
    if |path| > 1 {
      var front := path[..|path| - 1];
      assert PathBack(start, cameFrom, front) by {
        forall i | 0 < i < |front|
          ensures front[i] in cameFrom && cameFrom[front[i]] == Some(front[i - 1])
        {
          assert front[i] == path[i] && front[i - 1] == path[i - 1];
        }
      }
      PathFromRecord(start, cameFrom, costSoFar, front);
      var p, k := path[|path| - 2], path[|path| - 1];
      assert cameFrom[k] == Some(p);
      assert k != start;
      assert Reached(cameFrom, costSoFar, k);
      forall i | 0 <= i < |path| - 1 ensures Step(path[i], path[i + 1]) {
        if i < |path| - 2 {
          assert path[i] == front[i] && path[i + 1] == front[i + 1];
        }
      }
      assert path[..|path| - 1] == front;
    }
  }

  // ---------------------------------------------------------------------
  // Searching and reading the path off the record
  // ---------------------------------------------------------------------

  /** From a start at an unknown position, no walk leaves the start. */
  lemma StuckAtStart(start: State, goal: State)
    requires !IsLocation(start.position) && start != goal
    ensures !Reaches(start, goal)
  {
    forall p: seq<State> | |p| > 1 && p[0] == start
      ensures !Step(p[0], p[1])
    {
    }
  }

  /**
   * A search followed by path reconstruction, as the program's driver runs
   * them: a path from the start to the goal exists exactly when the goal is
   * reachable, and then it is a walk through the graph.
   */
  method FindPath(start: State, goal: State, heuristic: (State, State) -> real) returns (path: Option<seq<State>>)
    ensures path.Some? <==> Reaches(start, goal)
    ensures path.Some? ==> var p := path.value; |p| > 0 && p[0] == start && p[|p| - 1] == goal && IsWalk(p)
  {
    var searched := AStarSearch(start, goal, heuristic);
    if searched.Failure? {
      StuckAtStart(start, goal);
      return None;
    }
    var cameFrom, costSoFar := searched.value.cameFrom, searched.value.costSoFar;
    RecordRanksChains(start, cameFrom, costSoFar);
    var found := ReconstructPath(cameFrom, start, goal, costSoFar);
    if found.Failure? {
      return None;
    }
    PathFromRecord(start, cameFrom, costSoFar, found.value);
    return Some(found.value);
  }
}
