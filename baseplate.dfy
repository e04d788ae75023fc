/** baseplate.py: a rows x cols grid of 32 x 32 baseplates (3811.dat), laid out row by row. */
module Baseplate {
  import opened Context
  import opened LDraw

  const BASEPLATE_PART: string := "3811.dat"
  /** A 3811.dat baseplate is 32 studs on a side. */
  const BASEPLATE_STUDS: int := 32

  /** The baseplate in grid row r, column c: its centre is 32 studs per step from the
      origin along X (columns) and Z (rows), at the baseplate origin height. */
  function BaseplateAt(ctx: SceneContext, color: int, originX: real, originZ: real, r: int, c: int): Type1 {
    Type1(color,
          Vec3(ctx.Studs(originX + (c * BASEPLATE_STUDS) as real), ctx.BaseplateOriginY(),
               ctx.Studs(originZ + (r * BASEPLATE_STUDS) as real)),
          IDENTITY, BASEPLATE_PART)
  }

  /** The first cols baseplates of row r (none when cols is not positive, as range() gives). */
  function GridRow(ctx: SceneContext, color: int, originX: real, originZ: real, r: int, cols: int): (row: seq<Type1>)
    ensures |row| == if cols > 0 then cols else 0
  {
    if cols <= 0 then [] else GridRow(ctx, color, originX, originZ, r, cols - 1) + [BaseplateAt(ctx, color, originX, originZ, r, cols - 1)]
  }

  /** The first rows rows of the grid, one after the other. */
  function Grid(ctx: SceneContext, cols: int, rows: int, color: int, originX: real, originZ: real): seq<Type1> {
    if rows <= 0 then []
    else Grid(ctx, cols, rows - 1, color, originX, originZ) + GridRow(ctx, color, originX, originZ, rows - 1, cols)
  }

  /** build_baseplate_grid: for each row, for each column, append that baseplate. */
  method BuildBaseplateGrid(ctx: SceneContext, cols: int, rows: int, color: int, originX: real, originZ: real)
    returns (lines: seq<Type1>)
    ensures lines == Grid(ctx, cols, rows, color, originX, originZ)
  {
    lines := [];
    var r := 0;
    while r < rows
      invariant 0 <= r && (r <= rows || r == 0)
      invariant lines == Grid(ctx, cols, r, color, originX, originZ)
    {
      ghost var before := lines;
      var c := 0;
      while c < cols
        invariant 0 <= c && (c <= cols || c == 0)
        invariant lines == before + GridRow(ctx, color, originX, originZ, r, c)
      {
        var x := ctx.Studs(originX + (c * 32) as real);
        var y := ctx.BaseplateOriginY();
        var z := ctx.Studs(originZ + (r * 32) as real);
        lines := lines + [Type1(color, Vec3(x, y, z), IDENTITY, "3811.dat")];
        c := c + 1;
      }
      r := r + 1;
    }
  }

  /** Cell c of a row is the baseplate of that row and column. */
  lemma {:induction false} GridRowAt(ctx: SceneContext, color: int, originX: real, originZ: real, r: int, cols: int, c: int)
    requires 0 <= c < cols
    ensures GridRow(ctx, color, originX, originZ, r, cols)[c] == BaseplateAt(ctx, color, originX, originZ, r, c)
    decreases cols
  {
    if c < cols - 1 {
      GridRowAt(ctx, color, originX, originZ, r, cols - 1, c);
    }
  }

  /** The grid holds rows * cols baseplates (none if either is not positive). */
  lemma {:induction false} GridLength(ctx: SceneContext, cols: int, rows: int, color: int, originX: real, originZ: real)
    ensures |Grid(ctx, cols, rows, color, originX, originZ)| == (if rows > 0 then rows else 0) * (if cols > 0 then cols else 0)
    decreases rows
  {
    if rows > 0 {
      GridLength(ctx, cols, rows - 1, color, originX, originZ);
      var n := if cols > 0 then cols else 0;
      assert (rows - 1) * n + n == rows * n;
    }
  }

  /** Row-major indices of a rows x cols grid stay below rows * cols. */
  lemma RowMajorBound(rows: int, cols: int, r: int, c: int)
    requires 0 <= r < rows && 0 <= c < cols
    ensures r * cols + c < rows * cols
  {
    assert r * cols <= (rows - 1) * cols by {
      assert (rows - 1) * cols - r * cols == (rows - 1 - r) * cols;
    }
    assert (rows - 1) * cols + cols == rows * cols;
  }

  /** The grid is in row-major order: the baseplate of row r, column c is line r * cols + c. */
  lemma {:induction false} GridAt(ctx: SceneContext, cols: int, rows: int, color: int, originX: real, originZ: real, r: int, c: int)
    requires 0 <= r < rows && 0 <= c < cols
    ensures r * cols + c < |Grid(ctx, cols, rows, color, originX, originZ)|
    ensures Grid(ctx, cols, rows, color, originX, originZ)[r * cols + c] == BaseplateAt(ctx, color, originX, originZ, r, c)
    decreases rows
  {
    var prefix := Grid(ctx, cols, rows - 1, color, originX, originZ);
    var row := GridRow(ctx, color, originX, originZ, rows - 1, cols);
    GridLength(ctx, cols, rows, color, originX, originZ);
    GridLength(ctx, cols, rows - 1, color, originX, originZ);
    RowMajorBound(rows, cols, r, c);
    assert Grid(ctx, cols, rows, color, originX, originZ) == prefix + row;
    if r < rows - 1 {
      GridAt(ctx, cols, rows - 1, color, originX, originZ, r, c);
    } else {
      assert |prefix| == r * cols;
      GridRowAt(ctx, color, originX, originZ, r, cols, c);
    }
  }

  /** Neighbouring baseplates are exactly one baseplate width (32 studs, 640 LDU) apart
      along the row and along the column, so the grid covers its area without gaps or
      overlaps; each is centred one baseplate thickness from the plane its top face
      is in, where plates and tiles are put. */
  lemma BaseplatesAbut(ctx: SceneContext, color: int, originX: real, originZ: real, r: int, c: int)
    ensures BaseplateAt(ctx, color, originX, originZ, r, c + 1).pos.x - BaseplateAt(ctx, color, originX, originZ, r, c).pos.x
         == (BASEPLATE_STUDS * STUD) as real
    ensures BaseplateAt(ctx, color, originX, originZ, r + 1, c).pos.z - BaseplateAt(ctx, color, originX, originZ, r, c).pos.z
         == (BASEPLATE_STUDS * STUD) as real
    ensures BaseplateAt(ctx, color, originX, originZ, r, c).pos.y - ctx.BaseplateTopOriginY() == BASEPLATE_THICKNESS as real
  {
  }
}
