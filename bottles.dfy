/** The rules of a single bottle.  A bottle has four slots, bottom at index 0;
    a slot holds a colour character or the empty marker '.'. */
module Bottles {

  /** The character of an empty slot. */
  const EmptySlot: char := '.'

  /** The colour `top` reports for a bottle without any unit. */
  const NoColor: char := '\0'

  /** Every bottle has exactly four slots. */
  type Bottle = b: seq<char> | |b| == 4 witness "...."

  /** No empty slot sits below a non-empty one. */
  predicate Contiguous(b: Bottle) {
    forall i, j :: 0 <= i < j < 4 && b[i] == EmptySlot ==> b[j] == EmptySlot
  }

  /** A bottle the input layer can build: contiguous, and no slot holds the
      sentinel `NoColor` (which the solver reserves for "no top unit"). */
  predicate WellFormedBottle(b: Bottle) {
    Contiguous(b) && forall i :: 0 <= i < 4 ==> b[i] != NoColor
  }

  /** The index of the highest non-empty slot at or below `i`, or -1. */
  function HighestFilled(b: Bottle, i: int): (r: int)
    requires -1 <= i < 4
    ensures -1 <= r <= i
    ensures r >= 0 ==> b[r] != EmptySlot
    ensures forall j :: r < j <= i ==> b[j] == EmptySlot
    decreases i + 1
  {
    if i < 0 then -1
    else if b[i] != EmptySlot then i
    else HighestFilled(b, i - 1)
  }

  /** The index of the top unit: every slot above it is empty, or -1 when
      the bottle holds no unit at all. */
  function TopIndex(b: Bottle): (r: int)
    ensures -1 <= r <= 3
    ensures r >= 0 ==> b[r] != EmptySlot
    ensures forall j :: r < j < 4 ==> b[j] == EmptySlot
  {
    HighestFilled(b, 3)
  }

  /** The colour of the top unit, or `NoColor`. */
  function TopColor(b: Bottle): char {
    if TopIndex(b) >= 0 then b[TopIndex(b)] else NoColor
  }

  /** Source `isFull`: the highest slot holds a unit, which is the case
      exactly when `top` reports index 3 and no slot is free. */
  predicate IsFull(b: Bottle): (full: bool)
    ensures full <==> TopIndex(b) == 3
    ensures full <==> FreeSlots(b) == 0
  {
    b[3] != EmptySlot
  }

  /** Source `isEmpty`: the lowest slot is empty.  On a contiguous bottle
      that is exactly when `top` reports -1, i.e. no slot holds a unit. */
  predicate IsEmpty(b: Bottle): (empty: bool)
    ensures Contiguous(b) ==> (empty <==> TopIndex(b) == -1)
    ensures Contiguous(b) ==> (empty <==> Filled(b) == 0)
  {
    b[0] == EmptySlot
  }

  /** The number of empty slots above the top unit. */
  function FreeSlots(b: Bottle): nat {
    3 - TopIndex(b)
  }

  /** The number of non-empty slots, wherever they are. */
  function Filled(b: Bottle): nat {
    (if b[0] != EmptySlot then 1 else 0) + (if b[1] != EmptySlot then 1 else 0) +
    (if b[2] != EmptySlot then 1 else 0) + (if b[3] != EmptySlot then 1 else 0)
  }

  /** The length of the run of colour `c` that goes down from slot `i`. */
  function RunDown(b: Bottle, i: int, c: char): (r: nat)
    requires -1 <= i < 4
    ensures r <= i + 1
    ensures forall j :: i - r < j <= i ==> b[j] == c
    ensures r <= i ==> b[i - r] != c
    decreases i + 1
  {
    if i < 0 || b[i] != c then 0 else 1 + RunDown(b, i - 1, c)
  }

  /** The number of units of the top colour stacked at the top, 0 for a
      bottle whose lowest slot is empty. */
  function TopRun(b: Bottle): nat {
    if IsEmpty(b) then 0 else RunDown(b, TopIndex(b), TopColor(b))
  }

  /** Source `top`: scans from slot 3 down to the first non-empty slot. */
  method Top(b: Bottle) returns (color: char, index: int)
    ensures -1 <= index <= 3
    ensures index >= 0 ==> color == b[index] && color != EmptySlot
    ensures index == -1 ==> color == NoColor
    ensures forall j :: index < j < 4 ==> b[j] == EmptySlot
    ensures index == TopIndex(b) && color == TopColor(b)
  {
    var i := 3;
    while i >= 0
      invariant -1 <= i <= 3
      invariant forall j :: i < j < 4 ==> b[j] == EmptySlot
    {
      if b[i] != EmptySlot {
        return b[i], i;
      }
      i := i - 1;
    }
    return NoColor, -1;
  }

  /** Source `emptySlots`: counts empty slots from slot 3 downward and stops
      at the first unit. */
  method EmptySlots(b: Bottle) returns (count: int)
    ensures 0 <= count <= 4
    ensures forall j :: 4 - count <= j < 4 ==> b[j] == EmptySlot
    ensures count < 4 ==> b[3 - count] != EmptySlot
    ensures count == 3 - TopIndex(b) == FreeSlots(b)
    ensures Contiguous(b) ==> count == 4 - Filled(b)
  {
    count := 0;
    var i := 3;
    while i >= 0
      invariant -1 <= i <= 3
      invariant count == 3 - i
      invariant forall j :: i < j < 4 ==> b[j] == EmptySlot
    {
      if b[i] == EmptySlot {
        count := count + 1;
      } else {
        break;
      }
      i := i - 1;
    }
    FilledOnContiguous(b);
  }

  /** Source `countTopSameColors`: 0 for a bottle whose lowest slot is
      empty, otherwise the length of the top run of the top colour. */
  method CountTopSameColors(b: Bottle) returns (count: int)
    ensures count == TopRun(b)
    ensures count == 0 <==> IsEmpty(b)
    ensures !IsEmpty(b) ==> 1 <= count <= TopIndex(b) + 1
    ensures forall j :: TopIndex(b) - count < j <= TopIndex(b) ==> b[j] == TopColor(b)
    ensures count <= TopIndex(b) && !IsEmpty(b) ==> b[TopIndex(b) - count] != TopColor(b)
  {
    var color, index := Top(b);
    if IsEmpty(b) {
      return 0;
    }
    count := 0;
    var i := index;
    while i >= 0
      invariant -1 <= i <= index
      invariant count == index - i
      invariant forall j :: i < j <= index ==> b[j] == color
      invariant RunDown(b, index, color) == count + RunDown(b, i, color)
    {
      if b[i] == color {
        count := count + 1;
      } else {
        break;
      }
      i := i - 1;
    }
  }

  /** On a contiguous bottle the units fill exactly the slots 0..TopIndex. */
  lemma FilledOnContiguous(b: Bottle)
    ensures Contiguous(b) ==> Filled(b) == TopIndex(b) + 1
  {
  }
}
