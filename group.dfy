/** build_group (main.py): one numbered group — the group's number in 1x1 plates at its
    centre, ten minifigs around it on a 4 x 3 grid whose two middle cells are left free,
    and the frame around it all. */
module Group {
  import opened Wrappers
  import opened Context
  import opened LDraw
  import opened Digits
  import opened Minifig
  import opened Frame

  /** Distance between neighbouring minifigs, in studs. */
  const SPACING: int := 8
  const SPOT_COLS: int := 4
  const SPOT_ROWS: int := 3
  /** The frame keeps the default colour 15 whatever colour the group is given. */
  const FRAME_COLOR: int := 15

  /** The cells of the middle row that stay free for the number. */
  predicate Skipped(row: int, col: int) {
    row == 1 && (col == 1 || col == 2)
  }

  /** The minifig cells in the order they are visited, row by row. */
  const SPOT_CELLS: seq<(int, int)> := [
    (0, 0), (0, 1), (0, 2), (0, 3),
    (1, 0), (1, 3),
    (2, 0), (2, 1), (2, 2), (2, 3)]

  /** How many minifigs are placed before cell (row, col) is visited. */
  function SpotsBefore(row: int, col: int): int {
    row * SPOT_COLS + col
    - (if row > 1 || (row == 1 && col > 2) then 2 else if row == 1 && col == 2 then 1 else 0)
  }

  /** The offset of a cell from the group centre: the 4 x 3 grid centred on it. */
  function SpotOffset(cell: (int, int)): (real, real) {
    ((cell.1 as real - (SPOT_COLS - 1) as real / 2.0) * SPACING as real,
     (cell.0 as real - (SPOT_ROWS - 1) as real / 2.0) * SPACING as real)
  }

  /** The first n minifigs, in order. */
  function Figures(ctx: SceneContext, template: seq<Type1>, cx: real, cz: real, n: nat): seq<Type1>
    requires template != [] && n <= |SPOT_CELLS|
  {
    if n == 0 then []
    else
      var off := SpotOffset(SPOT_CELLS[n - 1]);
      PlacedShape(ctx, template, cx + off.0, cz + off.1);
      Figures(ctx, template, cx, cz, n - 1) + Placed(ctx, template, cx + off.0, cz + off.1).value
  }

  /** The group: the number, then the ten minifigs, then the frame; a number with a character
      outside the digit table or an empty template is an error. */
  function Group(ctx: SceneContext, template: seq<Type1>, digit: string, cx: real, cz: real, color: int): Result<seq<Type1>> {
    match CenteredPlates(ctx, DIGITS_5x7, digit, cx, cz, color)
    case Err(e) => Err(e)
    case Ok(number) =>
      if template == [] then Err(EmptyAssembly)
      else Ok(number + Figures(ctx, template, cx, cz, |SPOT_CELLS|) + FramePlates(ctx, cx, cz, FRAME_COLOR))
  }

  /** The cells visited are exactly the spot cells, in order. */
  lemma SpotCellAt(row: int, col: int)
    requires 0 <= row < SPOT_ROWS && 0 <= col < SPOT_COLS && !Skipped(row, col)
    ensures 0 <= SpotsBefore(row, col) < |SPOT_CELLS| && SPOT_CELLS[SpotsBefore(row, col)] == (row, col)
  {
  }

  /** Visiting a cell moves the count on by one unless the cell is skipped; the end of a
      row is the start of the next. */
  lemma SpotsBeforeStep(row: int, col: int)
    requires 0 <= row < SPOT_ROWS && 0 <= col < SPOT_COLS
    ensures SpotsBefore(row, col + 1) == SpotsBefore(row, col) + (if Skipped(row, col) then 0 else 1)
    ensures col == SPOT_COLS - 1 ==> SpotsBefore(row, col + 1) == SpotsBefore(row + 1, 0)
  {
  }

  /** Placing the minifig of a visited cell extends the figures by that cell's minifig. */
  lemma FiguresStep(ctx: SceneContext, template: seq<Type1>, cx: real, cz: real, row: int, col: int)
    requires template != [] && 0 <= row < SPOT_ROWS && 0 <= col < SPOT_COLS && !Skipped(row, col)
    ensures 0 <= SpotsBefore(row, col) < |SPOT_CELLS|
    ensures var x, z := cx + (col as real - 1.5) * 8.0, cz + (row as real - 1.0) * 8.0;
      Placed(ctx, template, x, z).Ok?
      && Figures(ctx, template, cx, cz, SpotsBefore(row, col) + 1)
         == Figures(ctx, template, cx, cz, SpotsBefore(row, col)) + Placed(ctx, template, x, z).value
  {
    SpotCellAt(row, col);
    PlacedShape(ctx, template, cx + (col as real - 1.5) * 8.0, cz + (row as real - 1.0) * 8.0);
  }

  /** The minifigs stand at x in {-12, -4, 4, 12} and z in {-8, 0, 8} studs from the
      centre, except the two middle spots (-4, 0) and (4, 0), which stay free for the
      number; every such spot is used once. */
  lemma SpotOffsets(x: real, z: real)
    ensures (exists k :: 0 <= k < |SPOT_CELLS| && SpotOffset(SPOT_CELLS[k]) == (x, z))
        <==> (x in {-12.0, -4.0, 4.0, 12.0} && z in {-8.0, 0.0, 8.0} && !(z == 0.0 && (x == -4.0 || x == 4.0)))
  {
    if x in {-12.0, -4.0, 4.0, 12.0} && z in {-8.0, 0.0, 8.0} && !(z == 0.0 && (x == -4.0 || x == 4.0)) {
      var row := if z == -8.0 then 0 else if z == 0.0 then 1 else 2;
      var col := if x == -12.0 then 0 else if x == -4.0 then 1 else if x == 4.0 then 2 else 3;
      SpotCellAt(row, col);
      assert SpotOffset(SPOT_CELLS[SpotsBefore(row, col)]) == (x, z);
    }
  }

  /** Distinct minifigs are at least one spacing (8 studs) apart along X or Z, and the
      layout is symmetric about the centre, so its centroid is the group centre. */
  lemma SpotsApartAndSymmetric(k1: int, k2: int)
    requires 0 <= k1 < |SPOT_CELLS| && 0 <= k2 < |SPOT_CELLS|
    ensures k1 != k2 ==>
      var a, b := SpotOffset(SPOT_CELLS[k1]), SpotOffset(SPOT_CELLS[k2]);
      a.0 - b.0 >= 8.0 || b.0 - a.0 >= 8.0 || a.1 - b.1 >= 8.0 || b.1 - a.1 >= 8.0
    ensures k1 + k2 == |SPOT_CELLS| - 1 ==>
      SpotOffset(SPOT_CELLS[k2]) == (-SpotOffset(SPOT_CELLS[k1]).0, -SpotOffset(SPOT_CELLS[k1]).1)
  {
  }

  /** The n-th minifig adds one copy of the template's parts. */
  lemma FiguresSnoc(ctx: SceneContext, template: seq<Type1>, cx: real, cz: real, n: nat)
    requires template != [] && 0 < n <= |SPOT_CELLS|
    ensures |Figures(ctx, template, cx, cz, n)| == |Figures(ctx, template, cx, cz, n - 1)| + |template|
  {
    var off := SpotOffset(SPOT_CELLS[n - 1]);
    PlacedShape(ctx, template, cx + off.0, cz + off.1);
  }

  /** n minifigs are n copies' worth of template parts. */
  lemma {:induction false} FiguresLength(ctx: SceneContext, template: seq<Type1>, cx: real, cz: real, n: nat)
    requires template != [] && n <= |SPOT_CELLS|
    ensures |Figures(ctx, template, cx, cz, n)| == n * |template|
  {
    if n > 0 {
      FiguresLength(ctx, template, cx, cz, n - 1);
      FiguresSnoc(ctx, template, cx, cz, n);
      assert (n - 1) * |template| + |template| == n * |template|;
    }
  }

  /** A group fails exactly when its number does not render (reported first, as the number
      is built first) or the template is empty; otherwise it holds the number's plates,
      ten minifigs and the twelve frame plates. */
  lemma GroupShape(ctx: SceneContext, template: seq<Type1>, digit: string, cx: real, cz: real, color: int)
    ensures Group(ctx, template, digit, cx, cz, color).Ok?
        <==> CenteredPlates(ctx, DIGITS_5x7, digit, cx, cz, color).Ok? && template != []
    ensures CenteredPlates(ctx, DIGITS_5x7, digit, cx, cz, color).Err? ==>
      Group(ctx, template, digit, cx, cz, color).error == CenteredPlates(ctx, DIGITS_5x7, digit, cx, cz, color).error
    ensures CenteredPlates(ctx, DIGITS_5x7, digit, cx, cz, color).Ok? && template == [] ==>
      Group(ctx, template, digit, cx, cz, color) == Err(EmptyAssembly)
    ensures Group(ctx, template, digit, cx, cz, color).Ok? ==>
      |Group(ctx, template, digit, cx, cz, color).value|
      == |CenteredPlates(ctx, DIGITS_5x7, digit, cx, cz, color).value| + 10 * |template| + 12
  {
    if template != [] {
      FiguresLength(ctx, template, cx, cz, |SPOT_CELLS|);
    }
  }

  /** build_group: place the number, then the minifigs, then the frame. */
  method BuildGroup(ctx: SceneContext, template: seq<Type1>, digit: string, cx: real, cz: real, color: int)
    returns (res: Result<seq<Type1>>)
    ensures res == Group(ctx, template, digit, cx, cz, color)
  {
    var number := BuildCenteredDigit(ctx, digit, cx, cz, color);
    if number.Err? {
      return Err(number.error);
    }
    var figures := PlaceFigures(ctx, template, cx, cz);
    if figures.Err? {
      return Err(figures.error);
    }
    var frame := BuildGroupFrame(ctx, cx, cz, FRAME_COLOR);
    res := Ok(number.value + figures.value + frame);
  }

  /** The minifig part of build_group: visit the 4 x 3 grid row by row, skip the two middle
      cells of the middle row, and place a minifig at each other cell. */
  method PlaceFigures(ctx: SceneContext, template: seq<Type1>, cx: real, cz: real)
    returns (res: Result<seq<Type1>>)
    ensures template == [] ==> res == Err(EmptyAssembly)
    ensures template != [] ==> res == Ok(Figures(ctx, template, cx, cz, |SPOT_CELLS|))
  {
    var lines := [];
    var spacing, cols, rows := 8, 4, 3;
    for row := 0 to rows
      invariant template == [] ==> row == 0
      invariant template != [] ==> lines == Figures(ctx, template, cx, cz, SpotsBefore(row, 0))
    {
      for col := 0 to cols
        invariant template == [] ==> row == 0 && col == 0
        invariant template != [] ==> lines == Figures(ctx, template, cx, cz, SpotsBefore(row, col))
      {
        SpotsBeforeStep(row, col);
        if !(row == 1 && (col == 1 || col == 2)) {
          var xOffset := (col as real - (cols - 1) as real / 2.0) * spacing as real;
          var zOffset := (row as real - (rows - 1) as real / 2.0) * spacing as real;
          var figure := BuildMinifig(ctx, template, cx + xOffset, cz + zOffset);
          if figure.Err? {
            PlacedShape(ctx, template, cx + xOffset, cz + zOffset);
            return Err(figure.error);
          }
          assert xOffset == (col as real - 1.5) * 8.0 && zOffset == (row as real - 1.0) * 8.0;
          FiguresStep(ctx, template, cx, cz, row, col);
          lines := lines + figure.value;
        }
      }
    }
    res := Ok(lines);
  }
}
