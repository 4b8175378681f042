/**
 * The warehouse-sorting state space: states, the clamping step, the two
 * transitions out of every location, the table of move costs, the graph
 * adapter the search consumes, and the two heuristics.
 */
module Warehouse {
  import opened Wrappers

  /** The location tags, spelled as the program spells them. */
  const Truck: string := "Truck"
  const A: string := "A"
  const B: string := "B"

  predicate IsLocation(p: string) {
    p == Truck || p == A || p == B
  }

  /**
   * A state: the unsorted boxes of each kind still at their source, and the
   * agent's position. The counters are plain integers (the program never
   * checks them on entry) and the position is a plain tag.
   */
  datatype State = State(small: int, large: int, mediumA: int, mediumB: int, position: string)

  /** The four counters of a state, named so that properties can range over them. */
  datatype Counter = Small | Large | MediumA | MediumB

  function Count(s: State, c: Counter): int {
    match c
    case Small => s.small
    case Large => s.large
    case MediumA => s.mediumA
    case MediumB => s.mediumB
  }

  /** All unsorted boxes of a state. */
  function Total(s: State): int {
    s.small + s.large + s.mediumA + s.mediumB
  }

  predicate Nonnegative(s: State) {
    s.small >= 0 && s.large >= 0 && s.mediumA >= 0 && s.mediumB >= 0
  }

  /** `r` is `x` floored at 0. */
  predicate Clamps(r: int, x: int) {
    0 <= r && (0 <= x ==> r == x) && (x < 0 ==> r == 0)
  }

  // ---------------------------------------------------------------------
  // Clamping and transitions
  // ---------------------------------------------------------------------

  /** A counter floored at 0. */
  function Cap(x: int): (r: nat)
    ensures Clamps(r, x)
  {
    if x < 0 then 0 else x
  }

  /** Builds a state from five components, flooring every counter at 0. */
  function Filter(small: int, large: int, mediumA: int, mediumB: int, position: string): (r: State)
    ensures Nonnegative(r)
    ensures Clamps(r.small, small) && Clamps(r.large, large)
    ensures Clamps(r.mediumA, mediumA) && Clamps(r.mediumB, mediumB)
    ensures r.position == position
  {
    State(Cap(small), Cap(large), Cap(mediumA), Cap(mediumB), position)
  }

  /**
   * The two states one action away. From the truck the agent goes to A
   * (one small box fewer) or to B (one large box fewer); from A to the truck
   * (one medium box of A fewer) or to B; from B to the truck (one medium box
   * of B fewer) or to A. A counter already at 0 stays at 0. An unknown
   * position has no transitions.
   */
  function GetTransitions(small: int, large: int, mediumA: int, mediumB: int, position: string): (r: Option<seq<State>>)
    ensures r.Some? <==> IsLocation(position)
    ensures r.Some? ==> |r.value| == 2
    ensures r.Some? ==> forall t :: t in r.value ==> Nonnegative(t) && IsLocation(t.position) && t.position != position
    ensures position == Truck ==> r.value[0].position == A && r.value[1].position == B
    ensures position == A ==> r.value[0].position == Truck && r.value[1].position == B
    ensures position == B ==> r.value[0].position == Truck && r.value[1].position == A
  {
    if position == Truck then
      Some([Filter(small - 1, large, mediumA, mediumB, A), Filter(small, large - 1, mediumA, mediumB, B)])
    else if position == A then
      Some([Filter(small, large, mediumA - 1, mediumB, Truck), Filter(small, large, mediumA, mediumB, B)])
    else if position == B then
      Some([Filter(small, large, mediumA, mediumB - 1, Truck), Filter(small, large, mediumA, mediumB, A)])
    else
      None
  }

  /**
   * Independent description of a move: the counter that a move from one
   * location to another works on. Moving between A and B works on none.
   */
  function Drains(from: string, to: string): Option<Counter> {
    if from == Truck && to == A then Some(Small)
    else if from == Truck && to == B then Some(Large)
    else if from == A && to == Truck then Some(MediumA)
    else if from == B && to == Truck then Some(MediumB)
    else None
  }

  /**
   * `t` is the result of moving from `s` to `t.position`: the drained counter
   * goes down by one, and every counter is floored at 0.
   */
  predicate Move(s: State, t: State) {
    && IsLocation(s.position) && IsLocation(t.position) && s.position != t.position
    && Clamps(t.small, s.small - Taken(s, t, Small))
    && Clamps(t.large, s.large - Taken(s, t, Large))
    && Clamps(t.mediumA, s.mediumA - Taken(s, t, MediumA))
    && Clamps(t.mediumB, s.mediumB - Taken(s, t, MediumB))
  }

  /** How many boxes of kind `c` the move from `s` to `t` takes away: 1 or 0. */
  function Taken(s: State, t: State, c: Counter): int {
    if Drains(s.position, t.position) == Some(c) then 1 else 0
  }

  // ---------------------------------------------------------------------
  // The static cost table
  // ---------------------------------------------------------------------

  /**
   * The cost of moving between two locations; `None` where the table has no
   * entry (the program's lookup fails there).
   */
  function CostOfMoving(from: string, to: string): (r: Option<nat>)
    ensures r.Some? <==> IsLocation(from) && IsLocation(to) && from != to
    ensures r == Some(2) <==> (from == A && to == B) || (from == B && to == A)
    ensures r == Some(1) <==> r.Some? && (from == Truck || to == Truck)
  {
    if from == Truck && to == A then Some(1)
    else if from == Truck && to == B then Some(1)
    else if from == A && to == Truck then Some(1)
    else if from == B && to == Truck then Some(1)
    else if from == A && to == B then Some(2)
    else if from == B && to == A then Some(2)
    else None
  }

  // ---------------------------------------------------------------------
  // The weighted graph the search runs on
  // ---------------------------------------------------------------------

  /** The cost of the edge between two states: a lookup on their positions alone. */
  function Cost(from: State, to: State): (r: Option<nat>)
    ensures r.Some? <==> IsLocation(from.position) && IsLocation(to.position) && from.position != to.position
    ensures r.Some? ==> 1 <= r.value <= 2
  {
    CostOfMoving(from.position, to.position)
  }

  /** The states next to `s`: its two transitions, or none at an unknown position. */
  function Neighbors(s: State): (r: Option<seq<State>>)
    ensures r.Some? <==> IsLocation(s.position)
    ensures r.Some? ==> |r.value| == 2 && r.value[0].position != r.value[1].position
    ensures r.Some? ==> forall t :: t in r.value ==> Nonnegative(t) && IsLocation(t.position) && t.position != s.position
  {
    GetTransitions(s.small, s.large, s.mediumA, s.mediumB, s.position)
  }

  /** `t` is one of the states the graph lists next to `s`. */
  predicate Step(s: State, t: State) {
    Neighbors(s).Some? && t in Neighbors(s).value
  }

  // ---------------------------------------------------------------------
  // Heuristics
  // ---------------------------------------------------------------------

  /** Boxes sorted on the way from `x` to `y`: `x`'s unsorted total minus `y`'s. */
  function Heuristic1(x: State, y: State): (r: int)
    ensures Nonnegative(x) && Nonnegative(y) ==> -Total(y) <= r <= Total(x)
  {
    (x.small + x.large + x.mediumA + x.mediumB) - (y.small + y.large + y.mediumA + y.mediumB)
  }

  /**
   * Sorted boxes over unsorted ones; when `y` has nothing left unsorted, the
   * number of sorted boxes itself. The quotient is exact here.
   */
  function Heuristic2(x: State, y: State): (r: real)
    ensures Nonnegative(x) && Nonnegative(y) && Total(y) > 0 ==> r >= -1.0
    ensures Nonnegative(y) && Total(y) <= Total(x) ==> r >= 0.0
  {
    var sorted := (x.small + x.large + x.mediumA + x.mediumB) - (y.small + y.large + y.mediumA + y.mediumB);
    var unsorted := y.small + y.large + y.mediumA + y.mediumB;
    if unsorted == 0 then sorted as real else sorted as real / unsorted as real
  }

  // ---------------------------------------------------------------------
  // Properties of the model
  // ---------------------------------------------------------------------

  /** The graph's neighbours are exactly the moves out of a state. */
  lemma StepIsMove(s: State, t: State)
    ensures Step(s, t) <==> Move(s, t)
  {
    if IsLocation(s.position) {
      var ts := Neighbors(s).value;
      MovesOut(s, 0);
      MovesOut(s, 1);
      if Move(s, t) {
        var i := if t.position == ts[0].position then 0 else 1;
        assert t.position == ts[i].position;
        MoveDetermined(s, t, ts[i]);
      }
    }
  }

  /** Each of the two transitions out of a known location is a move. */
  lemma MovesOut(s: State, i: int)
    requires IsLocation(s.position) && 0 <= i < 2
    ensures Move(s, Neighbors(s).value[i])
  {
    var t := Neighbors(s).value[i];
    assert Truck != A && Truck != B && A != B by {
      assert |Truck| != |A| && |Truck| != |B| && A[0] != B[0];
    }
    if s.position == Truck {
      assert Drains(s.position, t.position) == if i == 0 then Some(Small) else Some(Large);
    } else if s.position == A {
      assert Drains(s.position, t.position) == if i == 0 then Some(MediumA) else None;
    } else {
      assert Drains(s.position, t.position) == if i == 0 then Some(MediumB) else None;
    }
  }

  /** A move is determined by its source and its target position. */
  lemma MoveDetermined(s: State, t: State, u: State)
    requires Move(s, t) && Move(s, u) && t.position == u.position
    ensures t == u
  {
  }

  /**
   * On a state without negative counters a move changes at most the one
   * counter it drains, and that by one: no counter ever increases, moves
   * between A and B change nothing, and the total goes down by at most one.
   */
  lemma MoveEffect(s: State, t: State)
    requires Nonnegative(s) && Step(s, t)
    ensures Nonnegative(t)
    ensures forall c :: Count(t, c) == Count(s, c) || (Drains(s.position, t.position) == Some(c) && Count(t, c) == Count(s, c) - 1)
    ensures Drains(s.position, t.position) == None <==> (s.position == A && t.position == B) || (s.position == B && t.position == A)
    ensures Drains(s.position, t.position) == None ==> t.small == s.small && t.large == s.large && t.mediumA == s.mediumA && t.mediumB == s.mediumB
    ensures Total(s) - 1 <= Total(t) <= Total(s)
  {
    StepIsMove(s, t);
    assert Move(s, t);
    forall c
      ensures Count(t, c) == Count(s, c) || (Drains(s.position, t.position) == Some(c) && Count(t, c) == Count(s, c) - 1)
    {
      assert Clamps(Count(t, c), Count(s, c) - Taken(s, t, c));
    }
  }

  /** Every edge the graph lists has a cost in the table: 1 to or from the truck, 2 between A and B. */
  lemma NeighborCost(s: State, t: State)
    requires Step(s, t)
    ensures Cost(s, t).Some?
    ensures 1 <= Cost(s, t).value <= 2
    ensures Cost(s, t).value == 2 <==> s.position != Truck && t.position != Truck
  {
  }

  /** The cost of an edge depends only on the two positions. */
  lemma CostIgnoresCounters(s: State, t: State, s': State, t': State)
    requires s.position == s'.position && t.position == t'.position
    ensures Cost(s, t) == Cost(s', t')
  {
  }

  /**
   * Along an edge out of a state without negative counters, the first
   * heuristic grows by 0 or 1, whatever state it is measured from.
   */
  lemma Heuristic1AlongStep(x: State, s: State, t: State)
    requires Nonnegative(s) && Step(s, t)
    ensures 0 <= Heuristic1(x, t) - Heuristic1(x, s) <= 1
  {
    MoveEffect(s, t);
  }

  /**
   * The first heuristic ignores positions, is 0 between equal totals, adds up
   * along a chain of states, and changes sign when its arguments are swapped.
   */
  lemma Heuristic1Totals(x: State, y: State, z: State, p: string, q: string)
    ensures Heuristic1(x.(position := p), y.(position := q)) == Heuristic1(x, y)
    ensures Heuristic1(x, y) == 0 <==> Total(x) == Total(y)
    ensures Heuristic1(x, z) == Heuristic1(x, y) + Heuristic1(y, z)
    ensures Heuristic1(x, y) == -Heuristic1(y, x)
  {
  }

  /**
   * The second heuristic is the first one when nothing is left unsorted,
   * and the first one divided by the unsorted total otherwise.
   */
  lemma Heuristic2FromHeuristic1(x: State, y: State)
    ensures Total(y) == 0 ==> Heuristic2(x, y) == Heuristic1(x, y) as real
    ensures Total(y) != 0 ==> Heuristic2(x, y) * Total(y) as real == Heuristic1(x, y) as real
  {
  }

  // ---------------------------------------------------------------------
  // The states reachable from a given one lie in a finite box
  // ---------------------------------------------------------------------

  /**
   * The states at a known location whose counters lie between 0 and the
   * (floored) counters of `s`, together with `s` itself.
   */
  ghost function Universe(s: State): set<State> {
    {s} + set sm: int, l: int, ma: int, mb: int, p: string
            | 0 <= sm <= Cap(s.small) && 0 <= l <= Cap(s.large) && 0 <= ma <= Cap(s.mediumA)
              && 0 <= mb <= Cap(s.mediumB) && p in {Truck, A, B}
            :: State(sm, l, ma, mb, p)
  }

  /** An edge never leaves the universe of a state. */
  lemma StepStaysInUniverse(s: State, u: State, t: State)
    requires u in Universe(s) && Step(u, t)
    ensures t in Universe(s)
  {
    StepIsMove(u, t);
    assert Move(u, t);
    assert t.small <= Cap(u.small) <= Cap(s.small);
    assert t.large <= Cap(u.large) <= Cap(s.large);
    assert t.mediumA <= Cap(u.mediumA) <= Cap(s.mediumA);
    assert t.mediumB <= Cap(u.mediumB) <= Cap(s.mediumB);
    assert t.position in {Truck, A, B};
    assert t == State(t.small, t.large, t.mediumA, t.mediumB, t.position);
  }
}
