/** Best-first search over boards with a seen table of best path lengths. */
module Search {
  import opened Bottles
  import opened Boards
  import opened Moves

  /** A search node: a board, the moves that led to it, and its priority
      (path length plus heuristic). */
  datatype State = State(board: Board, path: seq<Move>, cost: int)

  // ------------------------------------------------------------ replaying

  /** The board reached by playing `path` from `init`; a move that cannot be
      poured (never the case on a valid path) leaves the board as it is. */
  ghost function Replay(init: Board, path: seq<Move>): (b: Board)
    ensures |b| == |init|
  {
    if path == [] then init
    else
      var before := Replay(init, path[..|path| - 1]);
      var m := path[|path| - 1];
      if m.src < |before| && m.dest < |before| && m.src != m.dest then Pour(before, m) else before
  }

  /** Every move of `path` is legal on the board it is played on. */
  ghost predicate ValidPath(init: Board, n: nat, path: seq<Move>) {
    path == [] ||
    (ValidPath(init, n, path[..|path| - 1]) && Legal(Replay(init, path[..|path| - 1]), n, path[|path| - 1]))
  }

  /** Extending a valid path by a move legal at its end. */
  lemma ReplayStep(init: Board, n: nat, path: seq<Move>, m: Move)
    requires ValidPath(init, n, path) && Legal(Replay(init, path), n, m)
    ensures ValidPath(init, n, path + [m])
    ensures Replay(init, path + [m]) == Pour(Replay(init, path), m)
  {
    assert (path + [m])[..|path|] == path;
  }

  /** Along a valid path from a well-formed board every board is well formed
      and holds the same number of units. */
  lemma {:induction false} ReplayKeepsInvariants(init: Board, n: nat, path: seq<Move>)
    requires ValidPath(init, n, path)
    ensures WellFormed(init) ==> WellFormed(Replay(init, path))
    ensures Units(Replay(init, path)) == Units(init)
  {
    if path != [] {
      var prefix := path[..|path| - 1];
      ReplayKeepsInvariants(init, n, prefix);
      var before := Replay(init, prefix);
      var m := path[|path| - 1];
      if WellFormed(init) {
        PourKeepsWellFormed(before, m);
      }
      PourConserves(before, m);
    }
  }

  // ------------------------------------------------------------ seen table

  /** `newer` keeps every key of `older` with a value no larger. */
  ghost predicate NoWorse(older: map<string, int>, newer: map<string, int>) {
    older.Keys <= newer.Keys && forall key :: key in older ==> newer[key] <= older[key]
  }

  /** A history of the seen table in which keys are never removed and
      recorded values never increase. */
  ghost predicate Shrinking(history: seq<map<string, int>>) {
    forall i, j :: 0 <= i <= j < |history| ==> NoWorse(history[i], history[j])
  }

  lemma ShrinkingExtend(history: seq<map<string, int>>, m: map<string, int>)
    requires |history| > 0 && Shrinking(history) && NoWorse(history[|history| - 1], m)
    ensures Shrinking(history + [m])
  {
    var h := history + [m];
    forall i, j | 0 <= i <= j < |h| ensures NoWorse(h[i], h[j]) {
      if j == |history| && i < j {
        assert NoWorse(history[i], history[|history| - 1]);
      }
    }
  }

  /** `newer` is `older` with one g recorded: for a key `older` lacks, or
      strictly below the g `older` holds for it. */
  ghost predicate RecordsOne(older: map<string, int>, newer: map<string, int>) {
    exists key :: key in newer && newer == older[key := newer[key]] && (key !in older || newer[key] < older[key])
  }

  /** Every entry of the history comes from the one before it by recording
      one strictly better g. */
  ghost predicate Steps(history: seq<map<string, int>>) {
    forall i :: 0 < i < |history| ==> RecordsOne(history[i - 1], history[i])
  }

  lemma StepsExtend(history: seq<map<string, int>>, m: map<string, int>)
    requires |history| > 0 && Steps(history) && RecordsOne(history[|history| - 1], m)
    ensures Steps(history + [m])
  {
    var h := history + [m];
    forall i | 0 < i < |h| ensures RecordsOne(h[i - 1], h[i]) {
      if i < |history| {
        assert h[i - 1] == history[i - 1] && h[i] == history[i];
      }
    }
  }

  /** Recording a g for a key `closed` lacks, or below the g it holds, is
      one step of the history that never gets worse. */
  lemma RecordIsStep(closed: map<string, int>, key: string, g: int)
    requires key !in closed || g < closed[key]
    ensures RecordsOne(closed, closed[key := g]) && NoWorse(closed, closed[key := g])
  {
    var updated := closed[key := g];
    assert key in updated && updated == closed[key := updated[key]];
  }

  /** What the search keeps true of every node in the frontier. */
  ghost predicate Tracked(init: Board, n: nat, closed: map<string, int>, s: State) {
    && ValidPath(init, n, s.path)
    && s.board == Replay(init, s.path)
    && s.cost == |s.path| + HeuristicValue(s.board)
    && Key(s.board) in closed && closed[Key(s.board)] <= |s.path|
  }

  /** No legal move exists on `board`. */
  ghost predicate DeadEnd(board: Board, n: nat) {
    forall m :: !Legal(board, n, m)
  }

  // ------------------------------------------------------------- frontier

  /** The position of a frontier node of least cost (which one among equal
      costs is left open, as with the priority queue). */
  method MinCostIndex(open: seq<State>) returns (k: nat)
    requires |open| > 0
    ensures k < |open|
    ensures forall j :: 0 <= j < |open| ==> open[k].cost <= open[j].cost
  {
    k := 0;
    for i := 1 to |open|
      invariant k < i
      invariant forall j :: 0 <= j < i ==> open[k].cost <= open[j].cost
    {
      if open[i].cost < open[k].cost {
        k := i;
      }
    }
  }

  /** `openList.top()` followed by `openList.pop()`: take a node of least
      cost off the frontier, keeping all the others. */
  method PopMin(open: seq<State>) returns (best: State, rest: seq<State>)
    requires |open| > 0
    ensures best in open && forall s :: s in open ==> best.cost <= s.cost
    ensures multiset(open) == multiset(rest) + multiset{best}
    ensures forall s :: s in rest ==> s in open
  {
    var k := MinCostIndex(open);
    best := open[k];
    rest := open[..k] + open[k + 1..];
    assert open == open[..k] + [best] + open[k + 1..];
    assert forall s :: s in rest ==> s in open[..k] || s in open[k + 1..];
  }

  /** The seen table `closed` is the last entry of its history `seen`, which
      started from the start board at g = 0 and never got worse; the start
      board keeps g = 0. */
  ghost predicate SeenHistory(init: Board, seen: seq<map<string, int>>, closed: map<string, int>) {
    && |seen| > 0 && seen[0] == map[Key(init) := 0] && Shrinking(seen)
    && seen[|seen| - 1] == closed
    && Key(init) in closed && closed[Key(init)] == 0
  }

  /** Recording a strictly better g for a pushed node's board keeps every
      frontier node tracked and extends the seen history. */
  lemma RecordImprovement(init: Board, n: nat, open: seq<State>, closed: map<string, int>,
                          seen: seq<map<string, int>>, next: State)
    requires forall s :: s in open ==> Tracked(init, n, closed, s)
    requires SeenHistory(init, seen, closed)
    requires ValidPath(init, n, next.path) && next.board == Replay(init, next.path)
    requires next.cost == |next.path| + HeuristicValue(next.board) && |next.path| > 0
    requires Key(next.board) !in closed || |next.path| < closed[Key(next.board)]
    ensures var updated := closed[Key(next.board) := |next.path|];
      && (forall s :: s in open + [next] ==> Tracked(init, n, updated, s))
      && SeenHistory(init, seen + [updated], updated)
  {
    var updated := closed[Key(next.board) := |next.path|];
    assert NoWorse(closed, updated);
    ShrinkingExtend(seen, updated);
    forall s | s in open + [next] ensures Tracked(init, n, updated, s) {
      if s != next {
        assert Tracked(init, n, closed, s);
      }
    }
    assert (seen + [updated])[|seen|] == updated;
  }

  // --------------------------------------------------------------- search

  /** What one pass of the inner loop of `solve` does with `move`: when the
      poured board is unseen, or now reached by a path shorter than its
      recorded g, it pushes the successor node and records the new g;
      otherwise nothing changes. */
  ghost predicate Pushed(current: State, move: Move, frontier: seq<State>, closed: map<string, int>,
                         openList: seq<State>, closedList: map<string, int>)
    requires move.src < |current.board| && move.dest < |current.board| && move.src != move.dest
  {
    var next, g := Pour(current.board, move), |current.path| + 1;
    if Key(next) !in closed || g < closed[Key(next)] then
      && openList == frontier + [State(next, current.path + [move], g + HeuristicValue(next))]
      && closedList == closed[Key(next) := g]
    else
      openList == frontier && closedList == closed
  }

  /** The history gains the new table exactly when a node was pushed. */
  ghost predicate Logged(frontier: seq<State>, history: seq<map<string, int>>, openList: seq<State>,
                         closedList: map<string, int>, seen: seq<map<string, int>>) {
    seen == if openList == frontier then history else history + [closedList]
  }

  /** One pass of the inner loop of `solve`: pour `move`, and push the
      successor when its board is unseen or now reached by a shorter path,
      recording the new g in the seen table. */
  method PushIfBetter(currentState: State, move: Move, frontier: seq<State>, closed: map<string, int>,
                      ghost history: seq<map<string, int>>)
    returns (openList: seq<State>, closedList: map<string, int>, ghost seen: seq<map<string, int>>)
    requires move.src < |currentState.board| && move.dest < |currentState.board| && move.src != move.dest
    ensures Pushed(currentState, move, frontier, closed, openList, closedList)
    ensures Logged(frontier, history, openList, closedList, seen)
  {
    openList, closedList, seen := frontier, closed, history;
    var currentG := |currentState.path|;
    var nextBoard := ApplyMove(currentState.board, move.src, move.dest);
    var nextBoardString := MatrixToStr(nextBoard);
    var nextG := currentG + 1;
    if nextBoardString !in closedList || nextG < closedList[nextBoardString] {
      var hNext := Heuristic(nextBoard);
      var nextState := State(nextBoard, currentState.path + [move], nextG + hNext);
      openList := openList + [nextState];
      closedList := closedList[nextBoardString := nextG];
      seen := seen + [closedList];
    }
  }

  /** A pass of the inner loop keeps every frontier node tracked and the
      seen history monotone. */
  lemma PushKeepsInvariants(init: Board, n: nat, current: State, move: Move,
                            frontier: seq<State>, closed: map<string, int>, history: seq<map<string, int>>,
                            openList: seq<State>, closedList: map<string, int>, seen: seq<map<string, int>>)
    requires ValidPath(init, n, current.path) && current.board == Replay(init, current.path)
    requires Legal(current.board, n, move)
    requires forall s :: s in frontier ==> Tracked(init, n, closed, s)
    requires SeenHistory(init, history, closed)
    requires Pushed(current, move, frontier, closed, openList, closedList)
    requires Logged(frontier, history, openList, closedList, seen)
    ensures forall s :: s in openList ==> Tracked(init, n, closedList, s)
    ensures SeenHistory(init, seen, closedList)
  {
    var next, g := Pour(current.board, move), |current.path| + 1;
    if Key(next) !in closed || g < closed[Key(next)] {
      var nextState := State(next, current.path + [move], g + HeuristicValue(next));
      assert ValidPath(init, n, nextState.path) && nextState.board == Replay(init, nextState.path) by {
        ReplayStep(init, n, current.path, move);
      }
      RecordImprovement(init, n, frontier, closed, history, nextState);
    }
  }

  /** A pass of the inner loop only adds a node, and extends the seen
      history by at most one table, which records one strictly better g. */
  lemma PushExtends(current: State, move: Move, frontier: seq<State>, closed: map<string, int>,
                    history: seq<map<string, int>>, openList: seq<State>,
                    closedList: map<string, int>, seen: seq<map<string, int>>)
    requires move.src < |current.board| && move.dest < |current.board| && move.src != move.dest
    requires |history| > 0 && history[|history| - 1] == closed
    requires Pushed(current, move, frontier, closed, openList, closedList)
    requires Logged(frontier, history, openList, closedList, seen)
    ensures frontier <= openList && |openList| <= |frontier| + 1
    ensures history <= seen && |seen| <= |history| + 1 && NoWorse(closed, closedList)
    ensures Steps(history) ==> Steps(seen)
    ensures var key := Key(Pour(current.board, move));
      key in closedList && closedList[key] <= |current.path| + 1
  {
    var next, g := Pour(current.board, move), |current.path| + 1;
    if Key(next) !in closed || g < closed[Key(next)] {
      RecordIsStep(closed, Key(next), g);
      if Steps(history) {
        StepsExtend(history, closedList);
      }
    } else {
      assert NoWorse(closed, closed);
    }
  }

  /** The moves `moves[..k]` are all recorded in `closed`: each one's
      poured board has its key in the table at a g no larger than `g`. */
  ghost predicate SuccessorsRecorded(b: Board, moves: seq<Move>, k: nat, closed: map<string, int>, g: int) {
    forall j :: 0 <= j < k && j < |moves| ==>
      var m := moves[j];
      m.src < |b| && m.dest < |b| && m.src != m.dest &&
      Key(Pour(b, m)) in closed && closed[Key(Pour(b, m))] <= g
  }

  lemma RecordedStep(b: Board, moves: seq<Move>, i: nat, c1: map<string, int>, c2: map<string, int>, g: int)
    requires i < |moves| && SuccessorsRecorded(b, moves, i, c1, g) && NoWorse(c1, c2)
    requires var m := moves[i];
      m.src < |b| && m.dest < |b| && m.src != m.dest &&
      Key(Pour(b, m)) in c2 && c2[Key(Pour(b, m))] <= g
    ensures SuccessorsRecorded(b, moves, i + 1, c2, g)
  {
    forall j | 0 <= j < i + 1 && j < |moves|
      ensures var m := moves[j];
        m.src < |b| && m.dest < |b| && m.src != m.dest &&
        Key(Pour(b, m)) in c2 && c2[Key(Pour(b, m))] <= g
    {
      if j < i {
        var key := Key(Pour(b, moves[j]));
        assert key in c1 && c1[key] <= g;
      }
    }
  }

  /** Some frontier node has board key `k` at exactly the g recorded for it. */
  ghost predicate Witnessed(open: seq<State>, closed: map<string, int>, k: string)
    requires k in closed
  {
    exists s :: s in open && Key(s.board) == k && |s.path| == closed[k]
  }

  /** Every key in the seen table belongs to an expanded board or to a
      frontier node at the recorded g. */
  ghost predicate Covered(open: seq<State>, closed: map<string, int>, expanded: set<string>) {
    forall k :: k in closed ==> k in expanded || Witnessed(open, closed, k)
  }

  /** Every board whose key was expanded is unsolved, and the key of every
      board one legal move away is in the seen table. */
  ghost predicate Expanded(n: nat, closed: map<string, int>, expanded: set<string>) {
    forall b: Board :: Key(b) in expanded ==>
      !Solved(b) && forall m :: Legal(b, n, m) ==> Key(Pour(b, m)) in closed
  }

  /** No board reachable from `init` by legal moves is solved. */
  ghost predicate NoSolution(init: Board, n: nat) {
    forall p :: ValidPath(init, n, p) ==> !Solved(Replay(init, p))
  }

  /** Popping a node keeps the table covered; a node that is not stale
      counts as expanded from now on. */
  lemma PopCovers(open: seq<State>, best: State, rest: seq<State>, closed: map<string, int>, expanded: set<string>)
    requires Covered(open, closed, expanded)
    requires multiset(open) == multiset(rest) + multiset{best}
    requires Key(best.board) in closed
    ensures var k := Key(best.board);
      Covered(rest, closed, if |best.path| > closed[k] then expanded else expanded + {k})
  {
    var k := Key(best.board);
    var e := if |best.path| > closed[k] then expanded else expanded + {k};
    forall k' | k' in closed ensures k' in e || Witnessed(rest, closed, k') {
      if k' !in expanded {
        var s :| s in open && Key(s.board) == k' && |s.path| == closed[k'];
        if s != best {
          assert s in multiset(open);
          assert s in multiset(rest) + multiset{best};
          assert s in multiset(rest);
        }
      }
    }
  }

  /** A pass of the inner loop keeps the table covered: a recorded g has
      the node just pushed as its witness. */
  lemma PushCovers(current: State, move: Move, frontier: seq<State>, closed: map<string, int>,
                   openList: seq<State>, closedList: map<string, int>, expanded: set<string>)
    requires move.src < |current.board| && move.dest < |current.board| && move.src != move.dest
    requires Covered(frontier, closed, expanded)
    requires Pushed(current, move, frontier, closed, openList, closedList)
    ensures Covered(openList, closedList, expanded)
  {
    var next, g := Pour(current.board, move), |current.path| + 1;
    if Key(next) !in closed || g < closed[Key(next)] {
      var nextState := State(next, current.path + [move], g + HeuristicValue(next));
      forall k | k in closedList ensures k in expanded || Witnessed(openList, closedList, k) {
        if k == Key(next) {
          assert nextState in openList;
        } else if k !in expanded {
          var s :| s in frontier && Key(s.board) == k && |s.path| == closed[k];
          assert s in openList;
        }
      }
    }
  }

  /** A table that only gains keys keeps the expanded boards closed. */
  lemma ExpandedGrows(n: nat, c1: map<string, int>, c2: map<string, int>, expanded: set<string>)
    requires Expanded(n, c1, expanded) && c1.Keys <= c2.Keys
    ensures Expanded(n, c2, expanded)
  {
  }

  /** Expanding an unsolved board whose every legal move was generated and
      recorded adds its key to the expanded ones. */
  lemma ExpandOne(n: nat, b: Board, moves: seq<Move>, closed: map<string, int>, expanded: set<string>, g: int)
    requires Expanded(n, closed, expanded) && !Solved(b)
    requires forall m :: Legal(b, n, m) ==> m in moves
    requires SuccessorsRecorded(b, moves, |moves|, closed, g)
    ensures Expanded(n, closed, expanded + {Key(b)})
  {
    forall b': Board | Key(b') in expanded + {Key(b)}
      ensures !Solved(b') && forall m :: Legal(b', n, m) ==> Key(Pour(b', m)) in closed
    {
      if Key(b') !in expanded {
        KeyInjective(b', b);
        forall m | Legal(b, n, m) ensures Key(Pour(b, m)) in closed {
          var j :| 0 <= j < |moves| && moves[j] == m;
        }
      }
    }
  }

  /** Every board on a valid path has an expanded key, once the frontier is
      empty and the start board's key is in the table. */
  lemma {:induction false} ReachableExpanded(init: Board, n: nat, closed: map<string, int>,
                                             expanded: set<string>, p: seq<Move>)
    requires Expanded(n, closed, expanded) && Covered([], closed, expanded) && Key(init) in closed
    requires ValidPath(init, n, p)
    ensures Key(Replay(init, p)) in expanded
  {
    if p != [] {
      var q, m := p[..|p| - 1], p[|p| - 1];
      ReachableExpanded(init, n, closed, expanded, q);
      var b := Replay(init, q);
      assert Legal(b, n, m);
      assert Key(Pour(b, m)) in closed;
    }
  }

  /** An exhausted frontier means no solved board is reachable. */
  lemma ExhaustedMeansNoSolution(init: Board, n: nat, closed: map<string, int>, expanded: set<string>)
    requires Expanded(n, closed, expanded) && Covered([], closed, expanded) && Key(init) in closed
    ensures NoSolution(init, n)
  {
    forall p | ValidPath(init, n, p) ensures !Solved(Replay(init, p)) {
      ReachableExpanded(init, n, closed, expanded, p);
    }
  }

  /** The inner loop of `solve`: every generated move, in order. */
  method PushSuccessors(initialBoard: Board, n: nat, currentState: State, possibleMoves: seq<Move>,
                        frontier: seq<State>, closed: map<string, int>, ghost history: seq<map<string, int>>,
                        ghost expanded: set<string>)
    returns (openList: seq<State>, closedList: map<string, int>, ghost seen: seq<map<string, int>>)
    requires ValidPath(initialBoard, n, currentState.path)
    requires currentState.board == Replay(initialBoard, currentState.path)
    requires forall i :: 0 <= i < |possibleMoves| ==> Legal(currentState.board, n, possibleMoves[i])
    requires forall s :: s in frontier ==> Tracked(initialBoard, n, closed, s)
    requires SeenHistory(initialBoard, history, closed)
    ensures forall s :: s in openList ==> Tracked(initialBoard, n, closedList, s)
    ensures SeenHistory(initialBoard, seen, closedList)
    ensures frontier <= openList && |openList| <= |frontier| + |possibleMoves|
    ensures history <= seen && NoWorse(closed, closedList)
    ensures Steps(history) ==> Steps(seen)
    ensures SuccessorsRecorded(currentState.board, possibleMoves, |possibleMoves|, closedList, |currentState.path| + 1)
    ensures Covered(frontier, closed, expanded) ==> Covered(openList, closedList, expanded)
  {
    openList, closedList, seen := frontier, closed, history;
    for i := 0 to |possibleMoves|
      invariant forall s :: s in openList ==> Tracked(initialBoard, n, closedList, s)
      invariant SeenHistory(initialBoard, seen, closedList)
      invariant frontier <= openList && |openList| <= |frontier| + i
      invariant history <= seen
      invariant Steps(history) ==> Steps(seen)
      invariant SuccessorsRecorded(currentState.board, possibleMoves, i, closedList, |currentState.path| + 1)
      invariant Covered(frontier, closed, expanded) ==> Covered(openList, closedList, expanded)
    {
      ghost var before, beforeSeen := openList, seen;
      ghost var beforeClosed := closedList;
      openList, closedList, seen := PushIfBetter(currentState, possibleMoves[i], openList, closedList, seen);
      PushKeepsInvariants(initialBoard, n, currentState, possibleMoves[i],
                          before, beforeClosed, beforeSeen, openList, closedList, seen);
      PushExtends(currentState, possibleMoves[i], before, beforeClosed, beforeSeen, openList, closedList, seen);
      RecordedStep(currentState.board, possibleMoves, i, beforeClosed, closedList, |currentState.path| + 1);
      if Covered(frontier, closed, expanded) {
        PushCovers(currentState, possibleMoves[i], before, beforeClosed, openList, closedList, expanded);
      }
      assert frontier <= before <= openList;
      assert history <= beforeSeen <= seen;
    }
    assert NoWorse(seen[|history| - 1], seen[|seen| - 1]);
  }

  /** Source `solve`.  The loop stops once the frontier is empty, or after
      `fuel` nodes have been taken off it.  An empty path comes back both
      when the start board is solved and when no solution was found.
      `seen` is the history of the seen table. */
  method Solve(initialBoard: Board, n: nat, fuel: nat)
    returns (path: seq<Move>, stateChecked: nat, ghost seen: seq<map<string, int>>)
    requires n <= |initialBoard|
    ensures ValidPath(initialBoard, n, path)
    ensures path != [] ==> Solved(Replay(initialBoard, path))
    ensures |seen| > 0 && seen[0] == map[Key(initialBoard) := 0] && Shrinking(seen) && Steps(seen)
    ensures Key(Replay(initialBoard, path)) in seen[|seen| - 1]
    ensures seen[|seen| - 1][Key(Replay(initialBoard, path))] == |path|
    ensures stateChecked <= fuel && (fuel > 0 ==> stateChecked >= 1)
    ensures fuel > 0 && Solved(initialBoard) ==> path == [] && stateChecked == 1
    ensures fuel > 0 && DeadEnd(initialBoard, n) ==> path == [] && stateChecked == 1
    ensures path == [] && stateChecked < fuel && !Solved(initialBoard) ==> NoSolution(initialBoard, n)
  {
    var h0 := Heuristic(initialBoard);
    var startState := State(initialBoard, [], h0);
    var openList := [startState];
    var startKey := MatrixToStr(initialBoard);
    var closedList := map[startKey := 0];
    seen := [closedList];
    stateChecked := 0;
    ghost var expanded: set<string> := {};
    assert Witnessed(openList, closedList, startKey);
    while openList != [] && stateChecked < fuel
      invariant stateChecked <= fuel
      invariant forall s :: s in openList ==> Tracked(initialBoard, n, closedList, s)
      invariant SeenHistory(initialBoard, seen, closedList) && Steps(seen)
      invariant stateChecked == 0 ==> openList == [startState] && closedList == map[Key(initialBoard) := 0]
      invariant Solved(initialBoard) ==> stateChecked == 0
      invariant DeadEnd(initialBoard, n) ==> stateChecked <= 1
      invariant DeadEnd(initialBoard, n) && stateChecked == 1 ==> openList == []
      invariant Covered(openList, closedList, expanded) && Expanded(n, closedList, expanded)
      decreases fuel - stateChecked
    {
      var currentState;
      ghost var frontier := openList;
      currentState, openList := PopMin(openList);
      assert Tracked(initialBoard, n, closedList, currentState);
      stateChecked := stateChecked + 1;
      var currentG := |currentState.path|;
      var currentKey := MatrixToStr(currentState.board);
      if currentG > closedList[currentKey] {
        assert Covered(openList, closedList, expanded) by {
          PopCovers(frontier, currentState, openList, closedList, expanded);
        }
        continue;
      }
      assert Covered(openList, closedList, expanded + {currentKey}) by {
        PopCovers(frontier, currentState, openList, closedList, expanded);
      }
      var solved := IsSolved(currentState.board);
      if solved {
        path := currentState.path;
        return;
      }
      var possibleMoves := GetPossibleMoves(currentState.board, n);
      ghost var closedBefore := closedList;
      openList, closedList, seen :=
        PushSuccessors(initialBoard, n, currentState, possibleMoves, openList, closedList, seen,
                       expanded + {currentKey});
      assert Expanded(n, closedList, expanded + {currentKey}) by {
        ExpandedGrows(n, closedBefore, closedList, expanded);
        ExpandOne(n, currentState.board, possibleMoves, closedList, expanded, currentG + 1);
      }
      expanded := expanded + {currentKey};
    }
    path := [];
    if stateChecked < fuel {
      assert NoSolution(initialBoard, n) by {
        ExhaustedMeansNoSolution(initialBoard, n, closedList, expanded);
      }
    }
  }
}
