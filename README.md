# Warehouse sorting as A* search, in Dafny

A model of `Warehouse_Search_Problem.py`. The program sorts boxes between a
truck and two warehouse locations, A and B, using A* search.

A state holds four counters and the agent's position:
- the small and large boxes still on the truck;
- the medium boxes still at A;
- the medium boxes still at B;
- the position: `Truck`, `A` or `B`.

Every location has exactly two transitions. After each transition a clamping
step (`filter`) floors every counter at 0. So an action whose counter is
already 0 still fires and leaves that counter alone. A fixed table gives each
move a cost: 1 to or from the truck, 2 between A and B.

The search itself:
- keeps a min-priority queue of `(priority, state)` pairs;
- records, for each state it has seen, a predecessor and the best known cost;
- queues a state at its new cost plus `heuristic(start, next)`, measured from the start and not towards the goal, as the program does;
- is followed by `reconstruct_path`, which walks the predecessor map back from the goal.

The project has four modules:

- `Wrappers` (`wrappers.dfy`): `Option` and `Result`.
- `Warehouse` (`warehouse.dfy`) holds the state space:
  - `Filter`, `GetTransitions`, `CostOfMoving`;
  - the graph adapter `Cost`/`Neighbors`;
  - the two heuristics;
  - an independent description of a move (`Move`), proved equal to the graph's edges;
  - a finite set that holds every state reachable from a start (`Universe`).
- `Frontier` (`frontier.dfy`) holds the priority queue. It is a class whose `elements` field the methods update in place. Entries are ordered as the program's tuples are: by priority, then by the state's fields left to right, the position compared as text. `Get` removes the least entry, which is the one the heap pops. The heap's array layout is not modelled.
- `AStar` (`astar.dfy`) holds the search, as a method with a `while` loop and loop invariants. It also holds path reconstruction and the lemmas that connect the two.

Modelling choices:
- Positions are strings. An unknown position has no transitions (`None`). When the search has to expand such a state, it returns `Failure(NoTransitions(..))`. In the program, iterating over `None` raises a `TypeError` there.
- Priorities are reals. The heuristic is a parameter of type `(State, State) -> real`. A caller passes `Heuristic2` as it is, or `Heuristic1` converted to a real, for example `FindPath(start, goal, (x, y) => Heuristic1(x, y) as real)`.
- `FindPath` runs the search and then `reconstruct_path`, as the driver at the end of the program does.
- The search's termination is proved, with no fuel bound. Each round either:
  - records a new state from the finite universe of the start;
  - lowers some recorded cost and raises none;
  - or changes no record and shortens the frontier.

## Model

| member | source | states |
|---|---|---|
| Warehouse.Filter | Warehouse_Search_Problem.py:34-43 | the result has no negative counter; each counter is its argument floored at 0, so a non-negative argument is kept unchanged; the position is passed through |
| Warehouse.GetTransitions | Warehouse_Search_Problem.py:25-31 | there are transitions exactly at `Truck`, `A` and `B`, and there are two of them; every successor has no negative counter, is at a known location and is at a different position; the successor positions are (A, B) from Truck, (Truck, B) from A, and (Truck, A) from B |
| Warehouse.CostOfMoving | Warehouse_Search_Problem.py:15-22 | the table has an entry exactly for two different known locations; the entry is 2 exactly for A↔B, and 1 exactly when one end is the truck |
| Warehouse.Cost | Warehouse_Search_Problem.py:49-52 | an edge cost exists exactly between two different known positions, and it is 1 or 2; `NeighborCost` and `CostIgnoresCounters` state the rest |
| Warehouse.Neighbors | Warehouse_Search_Problem.py:54-56 | a state has neighbours exactly at a known position: two of them, at two different positions, none with a negative counter, all at known positions other than its own; `StepIsMove` states what they are |
| Warehouse.StepIsMove | Warehouse_Search_Problem.py:54-56 | the graph's neighbours of a state are exactly the moves out of it: the drained counter goes down by one, every counter is floored at 0, and the target is another known location |
| Warehouse.MovesOut | Warehouse_Search_Problem.py:25-31 | each of the two listed transitions is such a move: small for Truck→A, large for Truck→B, A's medium for A→Truck, B's medium for B→Truck, and nothing for A↔B |
| Warehouse.MoveDetermined | Warehouse_Search_Problem.py:25-31 | a move is determined by its source and its target location |
| Warehouse.MoveEffect | Warehouse_Search_Problem.py:25-43 | from a state without negative counters, a transition keeps all counters non-negative; each counter is unchanged or is the one drained and drops by exactly 1, so none increases; A↔B moves change no counter; the total drops by 0 or 1 |
| Warehouse.NeighborCost | Warehouse_Search_Problem.py:49-56 | the cost lookup is defined for every state and each of its neighbours; the cost is 1 or 2, and 2 exactly when neither end is the truck |
| Warehouse.CostIgnoresCounters | Warehouse_Search_Problem.py:49-52 | the edge cost depends on the two positions only |
| Warehouse.Heuristic1 | Warehouse_Search_Problem.py:72-75 | between states without negative counters, `heuristic_1(x, y)` lies between minus y's total and x's total |
| Warehouse.Heuristic1Totals | Warehouse_Search_Problem.py:72-75 | `heuristic_1` ignores positions; it is 0 exactly between equal totals; it adds up along a chain `x`, `y`, `z`; swapping the arguments negates it |
| Warehouse.Heuristic1AlongStep | Warehouse_Search_Problem.py:72-75 | along an edge out of a state without negative counters, `heuristic_1` measured from any fixed state grows by 0 or 1 |
| Warehouse.Heuristic2 | Warehouse_Search_Problem.py:78-86 | between states without negative counters, with boxes left at `y`, `heuristic_2(x, y)` is at least -1; it is non-negative whenever y has no more boxes left than x |
| Warehouse.Heuristic2FromHeuristic1 | Warehouse_Search_Problem.py:78-86 | `heuristic_2` equals `heuristic_1` when y's counters sum to 0; otherwise it times y's total equals `heuristic_1` (exact division) |
| Warehouse.StepStaysInUniverse | Warehouse_Search_Problem.py:25-31 | no transition leaves the finite set made of the start itself (which may be at an unknown position or have negative counters) and every state at a known location whose counters lie between 0 and the start's counters floored at 0; so the search space is finite |
| Frontier.EntryOrder | Warehouse_Search_Problem.py:65-69 | the order on `(priority, state)` entries is a strict total order, as the tuple comparison the heap uses is |
| Frontier.LeastIsUnique | Warehouse_Search_Problem.py:68-69 | a queue has at most one least entry, so which entry a pop takes is fully determined |
| Frontier.LeastHasLowestPriority | Warehouse_Search_Problem.py:68-69 | the least entry's priority is ≤ every held entry's priority |
| Frontier.LeastIndex | Warehouse_Search_Problem.py:68-69 | a non-empty sequence of entries has an index holding its least entry |
| Frontier.PriorityQueue.constructor | Warehouse_Search_Problem.py:59-60 | a new queue holds no entries |
| Frontier.PriorityQueue.Empty | Warehouse_Search_Problem.py:62-63 | true exactly when the queue holds no entries |
| Frontier.PriorityQueue.Put | Warehouse_Search_Problem.py:65-66 | adds exactly one `(priority, item)` entry and keeps all others |
| Frontier.PriorityQueue.Get | Warehouse_Search_Problem.py:68-69 | on a non-empty queue, removes exactly one least entry (lowest priority, ties broken by the state) and returns its state; every other entry stays; an empty queue is left unchanged |
| AStar.AStarSearch | Warehouse_Search_Problem.py:88-111 | fails exactly when the start is at an unknown position and is not the goal; otherwise the maps record a search from the start (start at cost 0 with no predecessor, equal key sets, each other key reached over an edge from its predecessor at no less than the predecessor's cost plus the edge's), and the goal is recorded exactly when it is reachable from the start |
| AStar.Expand | Warehouse_Search_Problem.py:102-109 | after expanding `current`, its own cost is kept and every neighbour is recorded at no more than `current`'s cost plus the edge's; a recorded cost only goes down; a state whose cost did not change keeps its predecessor; a state whose cost changed now has `current` as predecessor and has an appended entry; entries are only appended, for pairwise different states, each for a state whose cost is new or lower, at that cost plus `heuristic(start, state)`; the record stays a search record; nothing is queued unless some cost changed |
| AStar.Relax | Warehouse_Search_Problem.py:103-109 | the edge has a cost; when the neighbour is new or `current`'s cost plus the edge's is strictly lower than its recorded cost, that sum becomes its cost, `current` its predecessor, and one entry is appended at that sum plus `heuristic(start, next)`; otherwise maps and queue are unchanged |
| AStar.ExpandStep | Warehouse_Search_Problem.py:102-109 | relaxing the next neighbour keeps what has been shown about the neighbours relaxed so far, whichever branch the comparison takes |
| AStar.ExpandUpdated | Warehouse_Search_Problem.py:104-109 | the branch that records a new or cheaper cost keeps both parts of what has been shown about the expansion |
| AStar.CostsUpdated | Warehouse_Search_Problem.py:104-106 | in that branch the maps stay a search record, no cost rises, `current`'s cost and every unchanged state's predecessor are kept, and the neighbour's cost is bounded by `current`'s plus the edge's |
| AStar.RecordGrows | Warehouse_Search_Problem.py:104-109 | recording a first or strictly cheaper way to reach a neighbour keeps the maps a search record inside the start's universe, and keeps every key |
| AStar.QueueUpdated | Warehouse_Search_Problem.py:104-109 | in that branch the old entries stay in front, every changed state has an appended entry, and the appended entries stay correct and for different states |
| AStar.ExpandKept | Warehouse_Search_Problem.py:104-105 | the branch that records nothing keeps everything shown so far and adds the neighbour's bound |
| AStar.QueuedAfterPut | Warehouse_Search_Problem.py:106-108 | entries queued earlier in an expansion stay correct after another neighbour is recorded and queued; the new neighbour then has an entry, and the appended entries stay for pairwise different states |
| AStar.QueuedTail | Warehouse_Search_Problem.py:102-109 | the entries an expansion appends are for recorded states only, there are none when no cost changed, and a state with an appended entry is queued |
| AStar.RelaxKeepsRecord | Warehouse_Search_Problem.py:103-109 | recording a first or strictly cheaper way to reach a neighbour keeps the maps a record of a search from the start, and never touches the start |
| AStar.RecordRanksChains | Warehouse_Search_Problem.py:102-109 | edges cost at least 1, so in a search record the cost strictly decreases from a key to its predecessor: predecessor chains have no cycles and end at the start |
| AStar.RecordedPosition | Warehouse_Search_Problem.py:102-109 | every recorded state other than the start is at a known location |
| AStar.RecordedIsReachable | Warehouse_Search_Problem.py:102-109 | every recorded state is reachable from the start along its predecessor chain |
| AStar.ClosedHoldsWalks | Warehouse_Search_Problem.py:96-109 | a recorded set in which every state has been expanded holds every walk that starts in it |
| AStar.StoppedSearch | Warehouse_Search_Problem.py:96-111 | when the search stops, on the goal or with an empty frontier and every recorded state expanded, the goal is recorded exactly when it is reachable |
| AStar.SettledAfterExpand | Warehouse_Search_Problem.py:96-109 | after a pop and an expansion, every recorded state is still queued or has been expanded |
| AStar.Progress | Warehouse_Search_Problem.py:96-109 | each round records a new state, or lowers the sum of recorded costs, or shortens the frontier: the loop terminates |
| AStar.Reversed | Warehouse_Search_Problem.py:119 | the reversed list has the same length and holds element `i` of the input at position `|s| - 1 - i` |
| AStar.ReconstructPath | Warehouse_Search_Problem.py:113-120 | fails exactly when the goal is not a key, with that key as the error; otherwise the path starts at the start and ends at the goal, every element is a key, each element after the first has the one before it as its recorded predecessor, and the rank strictly increases along the path |
| AStar.StuckAtStart | Warehouse_Search_Problem.py:54-56 | from a start at an unknown position no walk leads to any other state |
| AStar.FindPath | Warehouse_Search_Problem.py:124-128 | searching and then reconstructing finds a path exactly when the goal is reachable from the start; the path starts at the start, ends at the goal and is a walk through the graph |
| AStar.PathFromRecord | Warehouse_Search_Problem.py:113-120 | on a search's record, such a path is a walk through the graph, and its edge costs sum to no more than the cost recorded for its last state |

## Left out

- Frontier.PriorityQueue.Get: an empty queue returns `None` and is left unchanged. The program's `heappop` raises `IndexError` there. The search never calls `get` on an empty queue.
- Frontier: the heap's array layout and its sift operations are not modelled. The queue is the sequence of its entries, and `Get` scans for the least one. That is the entry `heappop` returns, so the popped state is the same.
- Warehouse.Heuristic2FromHeuristic1: the ratio branch of `heuristic_2` is exact real division. Floating-point rounding of `sorted/unsorted` is not modelled, and neither is mixing integer and float priorities in the heap.
- The `print` calls (lines 107, 127-129 and 133-134) are console output. The driver's fixed start and goal states (lines 124-125 and 130-131) are demo inputs; `FindPath` takes the start, the goal and the heuristic as parameters.
- AStar.FindPath: where the goal is unreachable the program's `reconstruct_path` raises `KeyError`, and where the start is at an unknown position and is not the goal the search raises `TypeError`. `FindPath` returns `None` in both cases. A start that is the goal is popped and returned before its neighbours are asked for, so `FindPath` then returns the one-state path, as the program does.
- The unused `edges` field of `WeightedGraph` (line 47) has no behaviour. The duplicated `l1` name in the unpacking (line 51) is harmless, because the cost reads only the positions.
- AStar.AStarSearch: optimality of the returned costs is not stated. The heuristic is measured from the start, and the model assumes nothing about it. The contract states a sound record and reachability of the goal.
- AStar.ReconstructPath: the caller must supply a ranking under which every predecessor chain ends at the start. `AStar.RecordRanksChains` gives such a ranking (the recorded costs) for any map a search produced. On other maps the program's loop can run forever on a cycle, or raise `KeyError` after stepping to `None`. Neither case is modelled.
- The in-place `path.reverse()` is modelled as the function `Reversed` on the collected sequence.
