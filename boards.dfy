/** Whole-board rules: the solved test, the seen-table key, the heuristic and
    the number of units on a board. */
module Boards {
  import opened Bottles

  /** A board is the ordered sequence of its bottles. */
  type Board = seq<Bottle>

  /** The solver's input precondition: every bottle is well formed. */
  predicate WellFormed(board: Board) {
    forall k :: 0 <= k < |board| ==> WellFormedBottle(board[k])
  }

  // ---------------------------------------------------------------- solved

  /** What `isSolved` demands of one bottle: empty, or full of one colour. */
  predicate SortedBottle(b: Bottle) {
    IsEmpty(b) || (IsFull(b) && forall i :: 1 <= i < 4 ==> b[i] == b[0])
  }

  predicate Solved(board: Board) {
    forall k :: 0 <= k < |board| ==> SortedBottle(board[k])
  }

  /** Source `isSolved`: false at the first bottle that is neither empty nor
      full of one colour. */
  method IsSolved(board: Board) returns (solved: bool)
    ensures solved <==> Solved(board)
    ensures !solved ==> exists k :: 0 <= k < |board| && !SortedBottle(board[k])
  {
    for k := 0 to |board|
      invariant forall k' :: 0 <= k' < k ==> SortedBottle(board[k'])
    {
      var bottle := board[k];
      if IsEmpty(bottle) {
        continue;
      }
      if !IsFull(bottle) {
        return false;
      }
      var firstColor := bottle[0];
      for i := 1 to 4
        invariant forall i' :: 1 <= i' < i ==> bottle[i'] == firstColor
      {
        if bottle[i] != firstColor {
          return false;
        }
      }
    }
    return true;
  }

  /** On a well-formed bottle, the solved test means: no unit at all, or
      four units of a single colour. */
  lemma SortedBottleMeaning(b: Bottle)
    requires WellFormedBottle(b)
    ensures SortedBottle(b) <==>
              Filled(b) == 0 || (Filled(b) == 4 && forall i :: 0 <= i < 4 ==> b[i] == b[0])
  {
    if IsEmpty(b) {
      assert forall i :: 0 <= i < 4 ==> b[i] == EmptySlot;
    }
  }

  // ------------------------------------------------------------------- key

  /** The seen-table key: all slots, bottle after bottle, slot after slot. */
  function Key(board: Board): (s: string)
    ensures |s| == 4 * |board|
  {
    if board == [] then "" else Key(board[..|board| - 1]) + board[|board| - 1]
  }

  /** Source `matrixToStr`. */
  method MatrixToStr(board: Board) returns (s: string)
    ensures s == Key(board)
  {
    s := "";
    for k := 0 to |board|
      invariant s == Key(board[..k])
    {
      var bottle := board[k];
      for i := 0 to 4
        invariant s == Key(board[..k]) + bottle[..i]
      {
        s := s + [bottle[i]];
      }
      assert board[..k + 1][..k] == board[..k];
    }
    assert board[..|board|] == board;
  }

  /** Different boards have different keys (equal keys force equal lengths). */
  lemma {:induction false} KeyInjective(a: Board, b: Board)
    requires Key(a) == Key(b)
    ensures a == b
  {
    if a != [] {
      var n := |a|;
      assert |b| == n;
      var ka, kb := Key(a[..n - 1]), Key(b[..n - 1]);
      assert Key(a) == ka + a[n - 1] && Key(b) == kb + b[n - 1];
      assert ka == Key(a)[..4 * (n - 1)] == Key(b)[..4 * (n - 1)] == kb;
      assert a[n - 1] == Key(a)[4 * (n - 1)..] == Key(b)[4 * (n - 1)..] == b[n - 1];
      KeyInjective(a[..n - 1], b[..n - 1]);
      assert a == a[..n - 1] + [a[n - 1]];
      assert b == b[..n - 1] + [b[n - 1]];
    }
  }

  // ------------------------------------------------------------- heuristic

  /** One step of the `heuristic` scan: a boundary is counted when the
      current slot is a unit, a previous colour exists and the two differ. */
  function Boundary(prev: char, cur: char): nat {
    if cur != EmptySlot && prev != NoColor && cur != prev then 1 else 0
  }

  /** The previous colour the source's scan holds at slot `i`: it is set
      from EVERY slot, the empty marker '.' included. */
  function PrevAsWritten(b: Bottle, i: nat): char
    requires i < 4
  {
    if i == 0 then NoColor else b[i - 1]
  }

  /** Boundaries the source's scan counts on slots 0..i-1. */
  function BoundariesBelow(b: Bottle, i: nat): nat
    requires i <= 4
  {
    if i == 0 then 0 else BoundariesBelow(b, i - 1) + Boundary(PrevAsWritten(b, i - 1), b[i - 1])
  }

  function BottleBoundaries(b: Bottle): nat {
    BoundariesBelow(b, 4)
  }

  /** The first slot never counts: the scan starts with no previous colour. */
  lemma BottleBoundariesUnfold(b: Bottle)
    ensures BottleBoundaries(b) == Boundary(b[0], b[1]) + Boundary(b[1], b[2]) + Boundary(b[2], b[3])
  {
    assert BoundariesBelow(b, 1) == 0;
    assert BoundariesBelow(b, 2) == Boundary(b[0], b[1]);
    assert BoundariesBelow(b, 3) == Boundary(b[0], b[1]) + Boundary(b[1], b[2]);
  }

  /** The value `heuristic` computes. */
  function HeuristicValue(board: Board): nat {
    if board == [] then 0
    else HeuristicValue(board[..|board| - 1]) + BottleBoundaries(board[|board| - 1])
  }

  /** Source `heuristic`. */
  method Heuristic(board: Board) returns (h: int)
    ensures h == HeuristicValue(board)
    ensures 0 <= h <= 3 * |board|
  {
    h := 0;
    for k := 0 to |board|
      invariant h == HeuristicValue(board[..k])
    {
      var bottle := board[k];
      var prevColor := NoColor;
      for i := 0 to 4
        invariant h == HeuristicValue(board[..k]) + BoundariesBelow(bottle, i)
        invariant prevColor == if i == 0 then NoColor else bottle[i - 1]
      {
        var currentColor := bottle[i];
        if currentColor != EmptySlot && prevColor != NoColor && currentColor != prevColor {
          h := h + 1;
        }
        prevColor := currentColor;
      }
      assert board[..k + 1][..k] == board[..k];
    }
    assert board[..|board|] == board;
    HeuristicBound(board);
  }

  /** Each bottle contributes at most three boundaries. */
  lemma {:induction false} HeuristicBound(board: Board)
    ensures HeuristicValue(board) <= 3 * |board|
  {
    if board != [] {
      BottleBoundariesUnfold(board[|board| - 1]);
      HeuristicBound(board[..|board| - 1]);
    }
  }

  /** A solved, well-formed board has no colour boundary left. */
  lemma {:induction false} HeuristicZeroWhenSolved(board: Board)
    requires WellFormed(board) && Solved(board)
    ensures HeuristicValue(board) == 0
  {
    if board != [] {
      var n := |board|;
      var b := board[n - 1];
      assert SortedBottle(b) && WellFormedBottle(b);
      if IsEmpty(b) {
        assert forall i :: 0 <= i < 4 ==> b[i] == EmptySlot;
      }
      BottleBoundariesUnfold(b);
      HeuristicZeroWhenSolved(board[..n - 1]);
    }
  }

  /** The previous colour of the units-only scan, which only takes it from
      slots holding a unit. */
  function LastUnitBelow(b: Bottle, i: nat): char
    requires i <= 4
  {
    if i == 0 then NoColor
    else if b[i - 1] != EmptySlot then b[i - 1]
    else LastUnitBelow(b, i - 1)
  }

  /** Boundaries the units-only scan counts on slots 0..i-1. */
  function UnitsOnlyBelow(b: Bottle, i: nat): nat
    requires i <= 4
  {
    if i == 0 then 0 else UnitsOnlyBelow(b, i - 1) + Boundary(LastUnitBelow(b, i - 1), b[i - 1])
  }

  /** On a contiguous bottle the scan as written counts the same boundaries
      as the units-only scan that skips empty slots. */
  lemma {:induction false} AsWrittenMatchesUnitsOnly(b: Bottle, i: nat)
    requires Contiguous(b) && i <= 4
    ensures BoundariesBelow(b, i) == UnitsOnlyBelow(b, i)
  {
    if i > 0 {
      AsWrittenMatchesUnitsOnly(b, i - 1);
      if i - 1 > 0 && b[i - 1] != EmptySlot {
        assert b[i - 2] != EmptySlot;
      }
    }
  }

  // ----------------------------------------------------------------- units

  /** The number of units on a board. */
  function Units(board: Board): nat {
    if board == [] then 0 else Units(board[..|board| - 1]) + Filled(board[|board| - 1])
  }

  /** Replacing one bottle changes the unit count by the difference. */
  lemma {:induction false} UnitsUpdate(board: Board, k: nat, x: Bottle)
    requires k < |board|
    ensures Units(board[k := x]) + Filled(board[k]) == Units(board) + Filled(x)
  {
    var n := |board|;
    var u := board[k := x];
    assert u[..n - 1] == if k == n - 1 then board[..n - 1] else board[..n - 1][k := x];
    if k < n - 1 {
      UnitsUpdate(board[..n - 1], k, x);
    }
  }
}
