/** Move generation and the pour transition. */
module Moves {
  import opened Bottles
  import opened Boards

  /** Pour from bottle `src` into bottle `dest`. */
  datatype Move = Move(src: nat, dest: nat)

  /** The test `getPossibleMoves` applies to the pair (src, dest) among the
      first `n` bottles, check by check as the source makes it. */
  predicate Legal(board: Board, n: nat, m: Move) {
    && m.src < n <= |board| && m.dest < n
    && m.src != m.dest
    && !IsEmpty(board[m.src])
    && !IsFull(board[m.dest])
    && (TopColor(board[m.dest]) == NoColor || TopColor(board[m.src]) == TopColor(board[m.dest]))
    && FreeSlots(board[m.dest]) > 0
  }

  /** Lexicographic order on (src, dest). */
  predicate Before(a: Move, b: Move) {
    a.src < b.src || (a.src == b.src && a.dest < b.dest)
  }

  /** On a well-formed board a move is legal exactly when the source holds
      a unit, the destination has room, and the destination is empty or
      shows the same top colour. */
  lemma LegalMeaning(board: Board, n: nat, m: Move)
    requires WellFormed(board)
    ensures Legal(board, n, m) <==>
              && m.src < n <= |board| && m.dest < n && m.src != m.dest
              && TopIndex(board[m.src]) >= 0
              && TopIndex(board[m.dest]) < 3
              && (TopIndex(board[m.dest]) == -1 || TopColor(board[m.src]) == TopColor(board[m.dest]))
  {
    if m.src < n <= |board| && m.dest < n {
      var s, d := board[m.src], board[m.dest];
      assert WellFormedBottle(s) && WellFormedBottle(d);
      assert TopIndex(d) >= 0 ==> TopColor(d) != NoColor;
    }
  }

  /** Source `getPossibleMoves`: every legal pair among the first `n`
      bottles, each once, in ascending (src, dest) order. */
  method GetPossibleMoves(currentBoard: Board, n: nat) returns (moves: seq<Move>)
    requires n <= |currentBoard|
    ensures forall i :: 0 <= i < |moves| ==> Legal(currentBoard, n, moves[i])
    ensures forall m :: Legal(currentBoard, n, m) ==> m in moves
    ensures forall i, j :: 0 <= i < j < |moves| ==> Before(moves[i], moves[j])
    ensures moves == [] <==> forall m :: !Legal(currentBoard, n, m)
  {
    moves := [];
    for src := 0 to n
      invariant forall i :: 0 <= i < |moves| ==> Legal(currentBoard, n, moves[i])
      invariant forall i :: 0 <= i < |moves| ==> moves[i].src < src
      invariant forall i, j :: 0 <= i < j < |moves| ==> Before(moves[i], moves[j])
      invariant forall m :: Legal(currentBoard, n, m) && m.src < src ==> m in moves
    {
      for dest := 0 to n
        invariant forall i :: 0 <= i < |moves| ==> Legal(currentBoard, n, moves[i])
        invariant forall i :: 0 <= i < |moves| ==> Before(moves[i], Move(src, dest))
        invariant forall i, j :: 0 <= i < j < |moves| ==> Before(moves[i], moves[j])
        invariant forall m :: Legal(currentBoard, n, m) && Before(m, Move(src, dest)) ==> m in moves
      {
        if src == dest {
          continue;
        }
        var source := currentBoard[src];
        var destination := currentBoard[dest];
        if IsEmpty(source) {
          continue;
        }
        if IsFull(destination) {
          continue;
        }
        var topSrc, _ := Top(source);
        var topDest, _ := Top(destination);
        if topDest == NoColor || topSrc == topDest {
          var slots := EmptySlots(destination);
          if slots > 0 {
            moves := moves + [Move(src, dest)];
          }
        }
      }
    }
    assert moves != [] ==> Legal(currentBoard, n, moves[0]);
  }

  // ------------------------------------------------------------- transition

  function Min(a: int, b: int): int {
    if a < b then a else b
  }

  /** How many units the pour moves: the top run of the source, capped by
      the free slots of the destination. */
  function PourAmount(board: Board, m: Move): nat
    requires m.src < |board| && m.dest < |board|
  {
    Min(TopRun(board[m.src]), FreeSlots(board[m.dest]))
  }

  /** Slot `j` of `b` once the `k` slots top-k+1 .. top are emptied. */
  function ClearedSlot(b: Bottle, top: int, k: nat, j: nat): char
    requires j < 4
  {
    if top - k < j <= top then EmptySlot else b[j]
  }

  function Cleared(b: Bottle, top: int, k: nat): Bottle {
    [ClearedSlot(b, top, k, 0), ClearedSlot(b, top, k, 1), ClearedSlot(b, top, k, 2), ClearedSlot(b, top, k, 3)]
  }

  /** Slot `j` of `b` once the `k` slots top+1 .. top+k hold colour `c`. */
  function RaisedSlot(b: Bottle, top: int, k: nat, c: char, j: nat): char
    requires j < 4
  {
    if top < j <= top + k then c else b[j]
  }

  function Raised(b: Bottle, top: int, k: nat, c: char): Bottle {
    [RaisedSlot(b, top, k, c, 0), RaisedSlot(b, top, k, c, 1), RaisedSlot(b, top, k, c, 2), RaisedSlot(b, top, k, c, 3)]
  }

  /** The board after pouring PourAmount units of the source's top colour
      from the source's top downward into the destination's free slots
      upward; no other bottle changes. */
  function Pour(board: Board, m: Move): (r: Board)
    requires m.src < |board| && m.dest < |board| && m.src != m.dest
    ensures |r| == |board|
    ensures forall k :: 0 <= k < |board| && k != m.src && k != m.dest ==> r[k] == board[k]
  {
    var s, d := board[m.src], board[m.dest];
    var amount := PourAmount(board, m);
    board[m.src := Cleared(s, TopIndex(s), amount)][m.dest := Raised(d, TopIndex(d), amount, TopColor(s))]
  }

  /** Emptying one more slot below the cleared ones. */
  lemma ClearedStep(b: Bottle, top: int, k: nat)
    requires 0 <= top - k < 4
    ensures Cleared(b, top, k)[top - k := EmptySlot] == Cleared(b, top, k + 1)
  {
  }

  /** Filling one more slot above the raised ones. */
  lemma RaisedStep(b: Bottle, top: int, k: nat, c: char)
    requires 0 <= top + k + 1 < 4
    ensures Raised(b, top, k, c)[top + k + 1 := c] == Raised(b, top, k + 1, c)
  {
  }

  /** Raising a bottle by `k` units of a real colour lifts its top by `k`. */
  lemma RaisedTop(b: Bottle, k: nat, c: char)
    requires TopIndex(b) + k <= 3 && c != EmptySlot
    ensures TopIndex(Raised(b, TopIndex(b), k, c)) == TopIndex(b) + k
  {
    var r := Raised(b, TopIndex(b), k, c);
    if k > 0 {
      assert r[TopIndex(b) + k] == c;
    } else {
      assert r == b;
    }
  }

  /** What `applyMove` computes before its loop: the amount respects both
      bottles' bounds, the colour poured is a unit, and zero steps leave
      the two bottles as they are. */
  lemma PourBounds(s: Bottle, d: Bottle)
    ensures var amount := Min(TopRun(s), FreeSlots(d));
      && amount <= TopIndex(s) + 1 && TopIndex(d) + amount <= 3
      && (amount > 0 ==> TopColor(s) != EmptySlot)
      && Cleared(s, TopIndex(s), 0) == s
      && Raised(d, TopIndex(d), 0, TopColor(s)) == d
  {
    if TopRun(s) > 0 {
      assert !IsEmpty(s);
    }
  }

  /** The copy loop of `applyMove`: `pourAmount` times, write the colour
      just above the destination's current top and empty the next source
      slot going down. */
  method PourUnits(source: array<char>, destination: array<char>, ghost s: Bottle, ghost d: Bottle,
                   color: char, topSrcIndex: int, pourAmount: nat)
    requires source != destination && source.Length == 4 && destination.Length == 4
    requires source[..] == s && destination[..] == d
    requires topSrcIndex < 4 && pourAmount <= topSrcIndex + 1 && TopIndex(d) + pourAmount <= 3
    requires pourAmount > 0 ==> color != EmptySlot
    modifies source, destination
    ensures source[..] == Cleared(s, topSrcIndex, pourAmount)
    ensures destination[..] == Raised(d, TopIndex(d), pourAmount, color)
  {
    ghost var td := TopIndex(d);
    assert Cleared(s, topSrcIndex, 0) == s;
    assert Raised(d, td, 0, color) == d;
    for i := 0 to pourAmount
      invariant source[..] == Cleared(s, topSrcIndex, i)
      invariant destination[..] == Raised(d, td, i, color)
    {
      RaisedTop(d, i, color);
      var _, destTop := Top(destination[..]);
      var destPourIndex := destTop + 1;
      RaisedStep(d, td, i, color);
      ClearedStep(s, topSrcIndex, i);
      destination[destPourIndex] := color;
      source[topSrcIndex - i] := EmptySlot;
    }
  }

  /** Source `applyMove`: copies the two bottles, pours the top run of the
      source (capped by the destination's free slots) one unit at a time,
      and puts the two bottles back. */
  method ApplyMove(current: Board, src: nat, dest: nat) returns (newBoard: Board)
    requires src < |current| && dest < |current| && src != dest
    ensures newBoard == Pour(current, Move(src, dest))
  {
    var source := new char[4](j requires 0 <= j < 4 => current[src][j]);
    var destination := new char[4](j requires 0 <= j < 4 => current[dest][j]);
    assert source[..] == current[src];
    assert destination[..] == current[dest];
    var topSrcColor, topSrcIndex := Top(source[..]);
    var sameColorsAtSrcTop := CountTopSameColors(source[..]);
    var slots := EmptySlots(destination[..]);
    var pourAmount := Min(sameColorsAtSrcTop, slots);
    PourBounds(current[src], current[dest]);
    PourUnits(source, destination, current[src], current[dest], topSrcColor, topSrcIndex, pourAmount);
    newBoard := current[src := source[..]][dest := destination[..]];
  }

  // ----------------------------------------------------- pour properties

  /** A legal move pours at least one unit, so it changes the board. */
  lemma LegalPourMovesSomething(board: Board, n: nat, m: Move)
    requires Legal(board, n, m)
    ensures PourAmount(board, m) >= 1
    ensures Pour(board, m) != board
  {
    var s := board[m.src];
    assert TopIndex(s) >= 0;
    assert Pour(board, m)[m.src][TopIndex(s)] == EmptySlot != s[TopIndex(s)];
  }

  /** Clearing part of the top run empties units of the top colour only. */
  lemma ClearedRun(s: Bottle, amount: nat)
    requires amount <= TopRun(s)
    ensures var t := TopIndex(s);
      && (forall j :: t - amount < j <= t ==> s[j] == TopColor(s) && Cleared(s, t, amount)[j] == EmptySlot)
      && Filled(Cleared(s, t, amount)) + amount == Filled(s)
  {
    if amount > 0 {
      assert !IsEmpty(s);
    }
  }

  /** Raising into free slots fills slots that were empty. */
  lemma RaisedFree(d: Bottle, amount: nat, c: char)
    requires amount <= FreeSlots(d) && (amount > 0 ==> c != EmptySlot)
    ensures var td := TopIndex(d);
      && (forall j :: td < j <= td + amount ==> d[j] == EmptySlot && Raised(d, td, amount, c)[j] == c)
      && Filled(Raised(d, td, amount, c)) == Filled(d) + amount
  {
  }

  /** What a pour moves: PourAmount units, all of the source's top colour,
      leave the source's top and land on the destination's top. */
  lemma PourMovesTopUnits(board: Board, m: Move)
    requires m.src < |board| && m.dest < |board| && m.src != m.dest
    ensures
      var s, d, r := board[m.src], board[m.dest], Pour(board, m);
      var amount, t, td := PourAmount(board, m), TopIndex(s), TopIndex(d);
      && amount <= TopRun(s) && amount <= FreeSlots(d)
      && (amount == TopRun(s) || amount == FreeSlots(d))
      && (forall j :: t - amount < j <= t ==> s[j] == TopColor(s) && r[m.src][j] == EmptySlot)
      && (forall j :: td < j <= td + amount ==> d[j] == EmptySlot && r[m.dest][j] == TopColor(s))
      && Filled(r[m.src]) + amount == Filled(s)
      && Filled(r[m.dest]) == Filled(d) + amount
  {
    var s, d := board[m.src], board[m.dest];
    var amount := PourAmount(board, m);
    if amount > 0 {
      assert !IsEmpty(s);
      assert TopColor(s) != EmptySlot;
    }
    ClearedRun(s, amount);
    RaisedFree(d, amount, TopColor(s));
  }

  /** Pouring conserves the number of units on the board. */
  lemma PourConserves(board: Board, m: Move)
    requires m.src < |board| && m.dest < |board| && m.src != m.dest
    ensures Units(Pour(board, m)) == Units(board)
  {
    var s, d := board[m.src], board[m.dest];
    var amount := PourAmount(board, m);
    var s' := Cleared(s, TopIndex(s), amount);
    var d' := Raised(d, TopIndex(d), amount, TopColor(s));
    PourMovesTopUnits(board, m);
    UnitsUpdate(board, m.src, s');
    UnitsUpdate(board[m.src := s'], m.dest, d');
  }

  /** Emptying part of the top run keeps a bottle well formed. */
  lemma ClearedWellFormed(s: Bottle, amount: nat)
    requires WellFormedBottle(s) && amount <= TopRun(s)
    ensures WellFormedBottle(Cleared(s, TopIndex(s), amount))
  {
    if amount > 0 {
      assert !IsEmpty(s);
    }
  }

  /** Filling free slots with a real colour keeps a bottle well formed. */
  lemma RaisedWellFormed(d: Bottle, amount: nat, c: char)
    requires WellFormedBottle(d) && amount <= FreeSlots(d)
    requires amount > 0 ==> c != EmptySlot && c != NoColor
    ensures WellFormedBottle(Raised(d, TopIndex(d), amount, c))
  {
  }

  /** Pouring keeps both bottles, hence the whole board, well formed. */
  lemma PourKeepsWellFormed(board: Board, m: Move)
    requires m.src < |board| && m.dest < |board| && m.src != m.dest
    requires WellFormed(board)
    ensures WellFormed(Pour(board, m))
  {
    var s, d := board[m.src], board[m.dest];
    assert WellFormedBottle(s) && WellFormedBottle(d);
    var amount := PourAmount(board, m);
    if amount > 0 {
      assert !IsEmpty(s);
      assert TopColor(s) != NoColor && TopColor(s) != EmptySlot;
    }
    ClearedWellFormed(s, amount);
    RaisedWellFormed(d, amount, TopColor(s));
  }
}
