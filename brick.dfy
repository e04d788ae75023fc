/** brick.py: the brick catalogue and the size lookup over it. */
module Brick {
  import opened Wrappers
  import opened Catalog

  /** BRICKS: width 1 then width 2, each by length in insertion order. */
  const BRICKS: SizeTable := [
    Entry(1, 1, "3005"), Entry(1, 2, "3004"), Entry(1, 3, "3622"),
    Entry(1, 4, "3010"), Entry(1, 6, "3009"), Entry(1, 8, "3008"),
    Entry(2, 2, "3003"), Entry(2, 3, "3002"), Entry(2, 4, "3001"),
    Entry(2, 6, "2456"), Entry(2, 8, "3007")
  ]

  /** The sizes the table holds: 1 wide in lengths {1, 2, 3, 4, 6, 8}, 2 wide in lengths {2, 3, 4, 6, 8}. */
  predicate IsBrickSize(width: int, length: int) {
    (width == 1 && length in {1, 2, 3, 4, 6, 8}) || (width == 2 && length in {2, 3, 4, 6, 8})
  }

  /** get_brick_size: the (width, length) of the first cell whose reference matches, ".dat" removed
      on both sides; every size it returns is one of the table's sizes. */
  function GetBrickSize(partId: string): (size: Option<(int, int)>)
    ensures size.Some? ==> IsBrickSize(size.value.0, size.value.1)
  {
    BrickCellSizes();
    FindSizeIsCell(BRICKS, partId);
    FindSize(BRICKS, partId)
  }

  lemma BricksWellFormed()
    ensures WellFormed(BRICKS)
  {
    BrickNumbersDotFree();
    BrickNumbersDistinct();
  }

  lemma BrickNumbersDotFree()
    ensures forall k :: 0 <= k < |BRICKS| ==> '.' !in BRICKS[k].number
  {
  }

  lemma BrickNumbersDistinct()
    ensures forall i, j :: 0 <= i < j < |BRICKS| ==> BRICKS[i].number != BRICKS[j].number
  {
  }

  /** get_brick_size finds every catalogue brick by its reference, with or without ".dat". */
  lemma GetBrickSizeOfRef(k: int)
    requires 0 <= k < |BRICKS|
    ensures GetBrickSize(Ref(BRICKS[k])) == Some((BRICKS[k].width, BRICKS[k].length))
    ensures GetBrickSize(BRICKS[k].number) == Some((BRICKS[k].width, BRICKS[k].length))
  {
    BricksWellFormed();
    FindSizeOfRef(BRICKS, k);
  }

  /** Every cell is 1 or 2 studs wide and 1 to 8 studs long. */
  lemma BrickCellSizes()
    ensures forall k :: 0 <= k < |BRICKS| ==> IsBrickSize(BRICKS[k].width, BRICKS[k].length)
  {
  }

  /** "3001.dat" and "3001" are both the 2 x 4 brick. */
  lemma GetBrickSize2x4()
    ensures GetBrickSize("3001.dat") == Some((2, 4))
    ensures GetBrickSize("3001") == Some((2, 4))
  {
    BricksWellFormed();
    FindSizeFound(BRICKS, "3001.dat", 8);
    FindSizeFound(BRICKS, "3001", 8);
  }

  /** The plate "3024.dat" is not a brick. */
  lemma GetBrickSizeOfPlate()
    ensures GetBrickSize("3024.dat") == None
  {
    BricksWellFormed();
    FindSizeMissing(BRICKS, "3024.dat", "3024");
  }
}
