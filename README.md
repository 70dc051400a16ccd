# Water-sort solver: a verified model of the search engine

This project models the engine of a water-sort puzzle solver, `Solver.cpp`.
A board is a row of bottles. Each bottle has four slots, with the bottom at index 0. A slot holds a
colour character or the empty marker `.`. A move pours the top run of one
colour from one bottle into another bottle. It may pour only into a bottle
that is empty, or whose top unit has that same colour, and only as far as
the free slots allow. The solver runs a best-first search. Each frontier
node's priority is its path length g plus a colour-boundary heuristic h. A
seen table records the best g found so far for every board. The search
returns the move list of the first solved board it takes off the frontier.

Modules, one per layer of the program:

- `Bottles` (`bottles.dfy`): the slot queries `top`, `isFull`, `isEmpty`,
  `emptySlots` and `countTopSameColors`.
  - `isFull` and `isEmpty` are single comparisons in the source. Each is a
    predicate whose contract relates it to the top index.
  - `top`, `emptySlots` and `countTopSameColors` are loops. Each is a
    specification function plus a method with the source's loop, proved
    equal to it.
- `Boards` (`boards.dfy`): `isSolved`, `matrixToStr` (the seen-table key)
  and `heuristic`, plus the number of units on a board.
- `Moves` (`moves.dfy`): move generation (`getPossibleMoves`) and the pour
  transition (`applyMove`). The pour is the function `Pour`.
  - `ApplyMove` copies the two bottles into local `char` arrays and
    overwrites them slot by slot. Like the source, it recomputes the
    destination's top on each iteration.
  - `ApplyMove` is proved equal to `Pour`. Pour's properties are proved as
    lemmas: units are conserved, well-formedness is kept, and only the two
    bottles change.
- `Search` (`search.dfy`): `solve`. The frontier is a sequence. A node of
  least cost is popped from it, and no tie order is specified. The seen
  table is a `map<string, int>`.
  - The loop keeps every frontier node tracked: its path is legal move by
    move, its board is the replay of that path, its cost is g + h, and the
    seen table holds its key with a g no larger.
  - A ghost history records every value the seen table takes, table by
    table. `PushIfBetter` states its exact outcome (`Pushed`). When the
    successor is pushed, the table records that successor's new g. The
    history gains that table exactly when a push happens (`Logged`).
    Otherwise nothing changes.
  - So each step of the history records one g, for a key the table lacked
    or strictly below the g it held (`Steps`). Keys are never removed, and
    recorded values never increase (`Shrinking`).
  - The tie between the history and the real table lives in the helpers:
    `PushIfBetter`'s `Pushed` and `Logged`, and `PushSuccessors`, which
    carries them through the inner loop. `Solve`'s own contract states only
    the shape of the history it returns, and that its last table holds the
    result's key.
  - A ghost set of expanded keys proves what an empty result means. An
    expanded board is unsolved, and every board one legal move away has its
    key in the table (`Expanded`). Every key in the table is expanded or
    belongs to a frontier node at the recorded g (`Covered`). Once the
    frontier is empty, every reachable board is expanded, so none is solved.

`WellFormed` is the input precondition on a bottle: no empty slot lies below
a unit, and no slot holds `'\0'`, the sentinel that `top` returns for "no
unit". The solver's results do not assume it. Only the lemmas that need it
do (`LegalMeaning`, `PourKeepsWellFormed`, `HeuristicZeroWhenSolved`, …).

Two points where the model keeps the code's behaviour over a tidier one:

- `heuristic` updates its previous colour on every slot, the empty marker
  included (`Solver.cpp:138`). A variant would update it only on slots
  holding a unit. The model keeps the scan as written.
  `AsWrittenMatchesUnitsOnly` proves the two agree on every contiguous
  bottle, so the difference never shows on a well-formed board.
- Ties in the frontier are not broken by insertion order.
  `std::priority_queue` promises no tie order, so the model promises only
  "some node of least cost".

## Model

| member | source | states |
|---|---|---|
| Bottles.HighestFilled | Solver.cpp:20-25 | the downward scan from slot `i` lands on the highest non-empty slot at or below `i`, or -1, with every slot above it empty |
| Bottles.TopIndex | Solver.cpp:19-26 | the top index is in -1..3; the slot at it holds a unit; every slot above it is empty |
| Bottles.Top | Solver.cpp:19-26 | `top` returns the colour and index of the highest non-`.` slot, or (`'\0'`, -1) when all four slots are `.`; the index is in -1..3 |
| Bottles.IsFull | Solver.cpp:28-30 | `isFull` holds exactly when `top`'s index is 3, i.e. exactly when no slot is free |
| Bottles.IsEmpty | Solver.cpp:32-34 | on a contiguous bottle `isEmpty` holds exactly when `top`'s index is -1, i.e. exactly when the bottle holds no unit |
| Bottles.EmptySlots | Solver.cpp:36-46 | `emptySlots` counts exactly the `.` slots above the top unit, i.e. 3 minus `top`'s index, on every bottle; on a contiguous bottle it is 4 minus the number of units |
| Bottles.FilledOnContiguous | Solver.cpp:36-46 | on a contiguous bottle the units fill exactly slots 0..top index |
| Bottles.RunDown | Solver.cpp:55-61 | the counted run has only the given colour, and the slot just below it (if any) holds a different one |
| Bottles.CountTopSameColors | Solver.cpp:48-63 | 0 exactly for a bottle whose lowest slot is empty; otherwise between 1 and top index + 1, every counted slot has the top colour, and the slot below the run does not |
| Boards.IsSolved | Solver.cpp:65-82 | true exactly when every bottle is empty or full with all four slots equal to slot 0; when false, some bottle is neither |
| Boards.SortedBottleMeaning | Solver.cpp:65-82 | on a well-formed bottle, the solved test means no unit at all, or four units of one colour |
| Boards.Key | Solver.cpp:144-152 | the key of a board of N bottles has length 4·N |
| Boards.MatrixToStr | Solver.cpp:144-152 | the nested loop yields the key: the slots of all bottles, bottle after bottle |
| Boards.KeyInjective | Solver.cpp:144-152 | boards with equal keys are equal, so the seen table never confuses two boards |
| Boards.BottleBoundariesUnfold | Solver.cpp:132-139 | the scan of one bottle counts the boundaries between slots 0/1, 1/2 and 2/3 only, since it starts with no previous colour |
| Boards.Heuristic | Solver.cpp:129-142 | `heuristic` computes the boundary count of the scan as written, and it lies in 0..3·N |
| Boards.HeuristicBound | Solver.cpp:129-142 | every bottle contributes at most three boundaries |
| Boards.HeuristicZeroWhenSolved | Solver.cpp:129-142 | a well-formed solved board has heuristic 0 |
| Boards.AsWrittenMatchesUnitsOnly | Solver.cpp:132-139 | on a contiguous bottle, updating the previous colour on `.` slots as well counts the same boundaries as the variant that updates it only on units |
| Boards.UnitsUpdate | Solver.cpp:112-126 | replacing one bottle changes the board's unit count by exactly the difference of the two bottles' counts |
| Moves.LegalMeaning | Solver.cpp:88-104 | on a well-formed board, the source's checks accept a pair exactly when src ≠ dest are below N, the source has a unit, the destination has room, and the destination is empty or shows the same top colour |
| Moves.GetPossibleMoves | Solver.cpp:84-109 | every generated pair is legal; every legal pair is generated; they come in strictly ascending (src, dest) order, so each only once; the list is empty exactly when no move is legal |
| Moves.Pour | Solver.cpp:111-127 | a pour keeps the number of bottles and leaves every bottle other than src and dest unchanged |
| Moves.ClearedStep | Solver.cpp:124 | emptying the next slot down extends the cleared stretch by one |
| Moves.RaisedStep | Solver.cpp:122-123 | writing the colour just above the raised stretch extends it by one |
| Moves.RaisedTop | Solver.cpp:122 | after k units are raised onto the destination, its top is k above the old top, so `top(destination).second + 1` is the next free slot |
| Moves.PourBounds | Solver.cpp:115-120 | the amount computed before the loop keeps both write indices inside slots 0..3, and a non-zero amount pours a real unit |
| Moves.PourUnits | Solver.cpp:121-125 | the copy loop empties the `pourAmount` slots from the source's top down and fills as many slots above the destination's top with the poured colour, touching only slots 0..3 |
| Moves.ApplyMove | Solver.cpp:111-127 | `applyMove` yields exactly the pour of min(top run, free slots) units from src to dest |
| Moves.LegalPourMovesSomething | Solver.cpp:111-127 | a legal move pours at least one unit and changes the board |
| Moves.ClearedRun | Solver.cpp:124 | the emptied slots all held the top colour, and the source loses exactly that many units |
| Moves.RaisedFree | Solver.cpp:122-123 | the filled slots were all empty, and the destination gains exactly that many units |
| Moves.PourMovesTopUnits | Solver.cpp:115-125 | the pour moves min(top run, free slots) units, all of the source's top colour, from the source's top onto the destination's top |
| Moves.PourConserves | Solver.cpp:111-127 | a pour keeps the number of units on the board |
| Moves.ClearedWellFormed | Solver.cpp:124 | emptying part of the top run keeps the source contiguous and well formed |
| Moves.RaisedWellFormed | Solver.cpp:122-123 | filling free slots with a unit keeps the destination contiguous and well formed |
| Moves.PourKeepsWellFormed | Solver.cpp:111-127 | a pour keeps every bottle of a well-formed board well formed |
| Search.Replay | Solver.cpp:176-183 | replaying a path keeps the number of bottles |
| Search.ReplayStep | Solver.cpp:176-183 | pushing a legal move onto a valid path gives a valid path whose board is the pour of the old one |
| Search.ReplayKeepsInvariants | Solver.cpp:174-186 | every board reached along a valid path from a well-formed start is well formed and holds the start's units |
| Search.ShrinkingExtend | Solver.cpp:179-186 | appending a seen table no worse than the last keeps the history monotone |
| Search.MinCostIndex | Solver.cpp:164 | the index chosen holds a node of least cost |
| Search.PopMin | Solver.cpp:164-165 | `top` then `pop` takes off a node of least cost and keeps every other node (as a multiset) |
| Search.RecordImprovement | Solver.cpp:179-186 | recording a strictly better g for a pushed node keeps every frontier node tracked and extends the seen history monotonically |
| Search.StepsExtend | Solver.cpp:179-186 | appending a table that records one strictly better g keeps every step of the history such a recording |
| Search.RecordIsStep | Solver.cpp:179-186 | storing a g for a key the table lacks, or below the g it holds, records exactly one strictly better g and makes the table no worse |
| Search.PushIfBetter | Solver.cpp:176-187 | exactly the outcome of one inner pass (`Pushed`): if the poured board's key is unseen or its g is now strictly smaller, the node (poured board, path + move, g + h) is pushed and the table gets that key at the new g; otherwise frontier and table are unchanged; the history gains the new table exactly when a node was pushed (`Logged`) |
| Search.PushKeepsInvariants | Solver.cpp:176-187 | that outcome keeps every frontier node tracked and the seen history monotone |
| Search.PushExtends | Solver.cpp:176-187 | that outcome adds at most one node and at most one table, the new table is no worse than the old one, and the history step records one strictly better g; either way the poured board's key is in the new table at a g no larger than the current g + 1 |
| Search.RecordedStep | Solver.cpp:176-187 | recording move i's board, in a table no worse than the one that held moves 0..i-1, extends the recorded prefix to 0..i |
| Search.PushSuccessors | Solver.cpp:175-188 | the inner loop only adds nodes, at most one per move; it keeps all nodes tracked; every generated move's poured board ends up in the table at a g no larger than the current g + 1; a covered frontier stays covered; the history returned extends the one given, step by step by single recordings, and the final table is no worse than the first |
| Search.PopCovers | Solver.cpp:164-170 | popping a node keeps every table key covered, with the popped node's key counted as expanded unless the node is stale |
| Search.PushCovers | Solver.cpp:176-187 | one inner pass keeps every table key covered: a newly recorded g is witnessed by the node just pushed |
| Search.ExpandedGrows | Solver.cpp:179-186 | a table that only gains keys keeps every expanded board's successors in it |
| Search.ExpandOne | Solver.cpp:166-188 | an unsolved board whose every legal move was generated and recorded can join the expanded boards |
| Search.ReachableExpanded | Solver.cpp:154-191 | with an empty frontier, every board on a valid path from the start has an expanded key |
| Search.ExhaustedMeansNoSolution | Solver.cpp:154-191 | with an empty frontier, no board reachable from the start is solved |
| Search.Solve | Solver.cpp:154-191 | the returned path is legal move by move; a non-empty path replays to a solved board; an empty path returned before the fuel runs out, from an unsolved start, means no reachable board is solved; the seen table's history starts at {start: 0}, each later table records one strictly better g, so keys are never lost and values never raised, and the last holds the result's key at its length; a solved or dead-end start returns the empty path after one pop |

## Left out

- `main` (console input, parsing of bottle strings, printing) and the
  `chrono` timing are input/output and wall-clock time. They are not part of
  this model. `N` is a parameter with `N` ≤ the number of bottles, as `main`
  always passes.
- Solve: the loop stops after `fuel` pops. The source loops until the
  frontier is empty. When fuel runs out, the model also returns the empty
  path. Termination of the unbounded search is not proved: the state space
  is finite, but no bound is derived.
- Solve: the returned path is not proved optimal. The heuristic is not shown
  admissible, and the source does not promise shortest paths.
- Solve: `closedList[matrixToStr(currentState.board)]` at `Solver.cpp:168`
  would insert 0 for a missing key. The model reads the map directly,
  because the key is proved always present (every frontier node is tracked).
- PopMin: the internals of `std::priority_queue` are not modelled. Among
  nodes of equal cost, which one is popped is left open.
- `stateChecked` is kept as a counter. The model proves only its bounds.
- Integers are unbounded. The model does not cover overflow of the `int`
  path lengths and costs, or of the `long long` counter. No wrap-around is
  modelled.
- ApplyMove: the source copies the whole board and updates the copies of
  the two involved bottles in place. The model copies only those two
  bottles into arrays and writes them back into the board value. The other
  bottles are shared values.
- Colours are arbitrary characters. The model does not restrict the
  alphabet beyond excluding `.` and the `'\0'` sentinel in `WellFormed`.
