/** tile.py: the tile catalogue and the size lookup over it. */
module Tile {
  import opened Wrappers
  import opened Catalog

  /** TILES: width 1 then width 2, each by length in insertion order. */
  const TILES: SizeTable := [
    Entry(1, 1, "3070b"), Entry(1, 2, "3069b"), Entry(1, 3, "63864"),
    Entry(1, 4, "2431b"), Entry(1, 6, "6636"), Entry(1, 8, "4162"),
    Entry(2, 2, "3068b"), Entry(2, 3, "26603"), Entry(2, 4, "87079"),
    Entry(2, 6, "69729")
  ]

  /** The sizes the table holds: 1 wide in lengths {1, 2, 3, 4, 6, 8}, 2 wide in lengths {2, 3, 4, 6}. */
  predicate IsTileSize(width: int, length: int) {
    (width == 1 && length in {1, 2, 3, 4, 6, 8}) || (width == 2 && length in {2, 3, 4, 6})
  }

  /** get_tile_size: the (width, length) of the first cell whose reference matches, ".dat" removed
      on both sides; every size it returns is one of the table's sizes. */
  function GetTileSize(partId: string): (size: Option<(int, int)>)
    ensures size.Some? ==> IsTileSize(size.value.0, size.value.1)
  {
    TileCellSizes();
    FindSizeIsCell(TILES, partId);
    FindSize(TILES, partId)
  }

  lemma TilesWellFormed()
    ensures WellFormed(TILES)
  {
    TileNumbersDotFree();
    TileNumbersDistinct();
  }

  lemma TileNumbersDotFree()
    ensures forall k :: 0 <= k < |TILES| ==> '.' !in TILES[k].number
  {
  }

  lemma TileNumbersDistinct()
    ensures forall i, j :: 0 <= i < j < |TILES| ==> TILES[i].number != TILES[j].number
  {
  }

  /** get_tile_size finds every catalogue tile by its reference, with or without ".dat". */
  lemma GetTileSizeOfRef(k: int)
    requires 0 <= k < |TILES|
    ensures GetTileSize(Ref(TILES[k])) == Some((TILES[k].width, TILES[k].length))
    ensures GetTileSize(TILES[k].number) == Some((TILES[k].width, TILES[k].length))
  {
    TilesWellFormed();
    FindSizeOfRef(TILES, k);
  }

  /** Every cell is 1 or 2 studs wide and 1 to 8 studs long. */
  lemma TileCellSizes()
    ensures forall k :: 0 <= k < |TILES| ==> IsTileSize(TILES[k].width, TILES[k].length)
  {
  }

  /** "2431b.dat" and "2431b" are the 1 x 4 tile. */
  lemma GetTileSize1x4()
    ensures GetTileSize("2431b.dat") == Some((1, 4))
    ensures GetTileSize("2431b") == Some((1, 4))
  {
    TilesWellFormed();
    FindSizeFound(TILES, "2431b.dat", 3);
    FindSizeFound(TILES, "2431b", 3);
  }

  /** The comparison is exact: "2431.dat", without the variant letter, is not a tile. */
  lemma GetTileSizeNeedsVariant()
    ensures GetTileSize("2431.dat") == None
  {
    TilesWellFormed();
    FindSizeMissing(TILES, "2431.dat", "2431");
  }
}
