/** build_group_frame (main.py): a one-stud-wide rectangular frame of 1 x N plates,
    32 studs wide and 30 deep, around a group's centre. The horizontal edges run the
    full width, corners included; the vertical edges run between them. */
module Frame {
  import opened Wrappers
  import opened Context
  import opened LDraw
  import opened Plate

  const FRAME_WIDTH: int := 32
  const FRAME_HEIGHT: int := 30
  /** 32 = 12 + 12 + 8 */
  const HORIZONTAL_SEGMENTS: seq<int> := [12, 12, 8]
  /** 30 - 2 = 28 = 12 + 12 + 4 */
  const VERTICAL_SEGMENTS: seq<int> := [12, 12, 4]

  /** The sum of a sequence of lengths. */
  function Total(xs: seq<int>): int {
    if xs == [] then 0 else Total(xs[..|xs| - 1]) + xs[|xs| - 1]
  }

  /** One bar of the frame in stud cells counted from the frame's bottom-left cell: a
      horizontal bar covers columns i0 .. i0 + length - 1 of row j0, a rotated (vertical)
      bar covers rows j0 .. j0 + length - 1 of column i0. */
  datatype Bar = Bar(rotated: bool, i0: int, j0: int, length: int)

  /** A run of bars laid end to end from cell start along one edge at cell across: bar s
      starts where the lengths before it end. */
  function Runs(rotated: bool, start: int, across: int, lengths: seq<int>): (bars: seq<Bar>)
    ensures |bars| == |lengths|
  {
    seq(|lengths|, s requires 0 <= s < |lengths| =>
      if rotated then Bar(true, across, start + Total(lengths[..s]), lengths[s])
      else Bar(false, start + Total(lengths[..s]), across, lengths[s]))
  }

  /** The twelve bars in the order they are emitted: the bottom then the top edge, each
      left to right; then the left then the right edge, each bottom to top without the
      corner cells. */
  const FRAME_BARS: seq<Bar> := [
    Bar(false, 0, 0, 12), Bar(false, 12, 0, 12), Bar(false, 24, 0, 8),
    Bar(false, 0, 29, 12), Bar(false, 12, 29, 12), Bar(false, 24, 29, 8),
    Bar(true, 0, 1, 12), Bar(true, 0, 13, 12), Bar(true, 0, 25, 4),
    Bar(true, 31, 1, 12), Bar(true, 31, 13, 12), Bar(true, 31, 25, 4)]

  predicate Covers(b: Bar, i: int, j: int) {
    if b.rotated then i == b.i0 && b.j0 <= j < b.j0 + b.length
    else j == b.j0 && b.i0 <= i < b.i0 + b.length
  }

  /** The cells of the frame's outline. */
  predicate OnPerimeter(i: int, j: int) {
    0 <= i < FRAME_WIDTH && 0 <= j < FRAME_HEIGHT
    && (i == 0 || i == FRAME_WIDTH - 1 || j == 0 || j == FRAME_HEIGHT - 1)
  }

  /** The running totals of three lengths. */
  lemma Total3(xs: seq<int>)
    requires |xs| == 3
    ensures Total(xs[..0]) == 0 && Total(xs[..1]) == xs[0] && Total(xs[..2]) == xs[0] + xs[1]
    ensures Total(xs) == xs[0] + xs[1] + xs[2]
  {
    assert xs[..1][..0] == xs[..0] == [];
    assert xs[..2][..1] == xs[..1];
    assert xs[..2] == xs[..|xs| - 1];
  }

  /** The bars are the four runs of segments: each edge's segments laid end to end from
      its first cell. */
  lemma FrameBarsAreRuns()
    ensures FRAME_BARS == Runs(false, 0, 0, HORIZONTAL_SEGMENTS) + Runs(false, 0, FRAME_HEIGHT - 1, HORIZONTAL_SEGMENTS)
                        + Runs(true, 1, 0, VERTICAL_SEGMENTS) + Runs(true, 1, FRAME_WIDTH - 1, VERTICAL_SEGMENTS)
  {
    Total3(HORIZONTAL_SEGMENTS);
    Total3(VERTICAL_SEGMENTS);
  }

  /** The segments add up to the frame's width, and to its depth less the two corner rows. */
  lemma SegmentTotals()
    ensures Total(HORIZONTAL_SEGMENTS) == FRAME_WIDTH
    ensures Total(VERTICAL_SEGMENTS) == FRAME_HEIGHT - 2
  {
    Total3(HORIZONTAL_SEGMENTS);
    Total3(VERTICAL_SEGMENTS);
  }

  /** Every cell of the outline is covered by some bar. */
  lemma FrameCoversPerimeter(i: int, j: int)
    requires OnPerimeter(i, j)
    ensures exists k :: 0 <= k < |FRAME_BARS| && Covers(FRAME_BARS[k], i, j)
  {
    var k :=
      if j == 0 then (if i < 12 then 0 else if i < 24 then 1 else 2)
      else if j == FRAME_HEIGHT - 1 then (if i < 12 then 3 else if i < 24 then 4 else 5)
      else if i == 0 then (if j < 13 then 6 else if j < 25 then 7 else 8)
      else (if j < 13 then 9 else if j < 25 then 10 else 11);
    assert Covers(FRAME_BARS[k], i, j);
  }

  /** Every cell a bar covers is on the outline. */
  lemma FrameWithinPerimeter(i: int, j: int, k: int)
    requires 0 <= k < |FRAME_BARS| && Covers(FRAME_BARS[k], i, j)
    ensures OnPerimeter(i, j)
  {
  }

  /** No cell is covered twice, so corners are placed once. */
  lemma FrameBarsDisjoint(i: int, j: int, k1: int, k2: int)
    requires 0 <= k1 < k2 < |FRAME_BARS|
    ensures !(Covers(FRAME_BARS[k1], i, j) && Covers(FRAME_BARS[k2], i, j))
  {
  }

  /** Bar s of edge e in emission order: horizontal bars on row 0 and row 29, vertical
      bars on column 0 and column 31, each starting where the previous segments end. */
  lemma FrameBarAt(e: int, s: int)
    requires 0 <= e < 2 && 0 <= s < 3
    ensures FRAME_BARS[3 * e + s]
         == Bar(false, Total(HORIZONTAL_SEGMENTS[..s]), e * (FRAME_HEIGHT - 1), HORIZONTAL_SEGMENTS[s])
    ensures FRAME_BARS[6 + 3 * e + s]
         == Bar(true, e * (FRAME_WIDTH - 1), 1 + Total(VERTICAL_SEGMENTS[..s]), VERTICAL_SEGMENTS[s])
  {
    FrameBarsAreRuns();
    Total3(HORIZONTAL_SEGMENTS);
    Total3(VERTICAL_SEGMENTS);
  }

  /** The running total grows by the next length. */
  lemma TotalSnoc(xs: seq<int>, s: int)
    requires 0 <= s < |xs|
    ensures Total(xs[..s + 1]) == Total(xs[..s]) + xs[s]
  {
    assert xs[..s + 1][..s] == xs[..s];
  }

  /** The frame's bottom-left cell, in studs: the centre less half of (size - 1) cells. */
  function Left(cx: real): real {
    cx - (FRAME_WIDTH - 1) as real / 2.0
  }

  function Bottom(cz: real): real {
    cz - (FRAME_HEIGHT - 1) as real / 2.0
  }

  /** The plate for one bar, centred on the bar: build_plate for a horizontal bar,
      build_plate_rotated for a vertical one. */
  function BarPlate(ctx: SceneContext, left: real, bottom: real, b: Bar, color: int): Result<Type1> {
    if b.rotated then
      BuildPlateRotated(ctx, left + b.i0 as real, bottom + b.j0 as real + (b.length - 1) as real / 2.0, color, b.length)
    else
      BuildPlate(ctx, left + b.i0 as real + (b.length - 1) as real / 2.0, bottom + b.j0 as real, color, b.length)
  }

  /** The outline is centred on the group: its first and last columns (rows) lie
      symmetrically about the centre. */
  lemma FrameCentred(cx: real, cz: real)
    ensures (Left(cx) + (Left(cx) + (FRAME_WIDTH - 1) as real)) / 2.0 == cx
    ensures (Bottom(cz) + (Bottom(cz) + (FRAME_HEIGHT - 1) as real)) / 2.0 == cz
  {
  }

  /** Each bar's plate is built (its length is in the plate catalogue), lies on the
      baseplate's top face centred on the midpoint of the bar's first and last cells, is
      turned a quarter about Y exactly for the six vertical bars, and is a 1 x length plate
      for get_plate_size. */
  lemma FramePlateAt(ctx: SceneContext, cx: real, cz: real, color: int, k: int)
    requires 0 <= k < |FRAME_BARS|
    ensures BarPlate(ctx, Left(cx), Bottom(cz), FRAME_BARS[k], color).Ok?
    ensures var b, p := FRAME_BARS[k], BarPlate(ctx, Left(cx), Bottom(cz), FRAME_BARS[k], color).value;
      && p.m == (if k < 6 then IDENTITY else ROT_Y)
      && p.pos.y == ctx.BaseplateTopOriginY() && p.color == color
      && GetPlateSize(p.partId) == Some((1, b.length))
      && (!b.rotated ==>
            p.pos.x / STUD as real == Left(cx) + (b.i0 + (b.i0 + b.length - 1)) as real / 2.0
            && p.pos.z / STUD as real == Bottom(cz) + b.j0 as real)
      && (b.rotated ==>
            p.pos.x / STUD as real == Left(cx) + b.i0 as real
            && p.pos.z / STUD as real == Bottom(cz) + (b.j0 + (b.j0 + b.length - 1)) as real / 2.0)
  {
    var b := FRAME_BARS[k];
    var left, bottom := Left(cx), Bottom(cz);
    assert b.rotated <==> k >= 6;
    assert IsPlateLength(b.length);
    var x, z :=
      if b.rotated then left + b.i0 as real else left + b.i0 as real + (b.length - 1) as real / 2.0,
      if b.rotated then bottom + b.j0 as real + (b.length - 1) as real / 2.0 else bottom + b.j0 as real;
    BuildPlatePlaced(ctx, x, z, color, b.length);
  }

  /** The twelve plates of the frame, bar by bar. */
  function FramePlates(ctx: SceneContext, cx: real, cz: real, color: int): (ps: seq<Type1>)
    ensures |ps| == |FRAME_BARS|
  {
    seq(|FRAME_BARS|, k requires 0 <= k < |FRAME_BARS| =>
      FramePlateAt(ctx, cx, cz, color, k);
      BarPlate(ctx, Left(cx), Bottom(cz), FRAME_BARS[k], color).value)
  }

  /** build_group_frame: the horizontal edges, then the vertical edges, around the frame
      whose outline is 32 x 30 studs centred at the given stud position. */
  method BuildGroupFrame(ctx: SceneContext, centerStudX: real, centerStudZ: real, color: int)
    returns (lines: seq<Type1>)
    ensures lines == FramePlates(ctx, centerStudX, centerStudZ, color)
  {
    var width, height := 32, 30;
    var left := centerStudX - (width - 1) as real / 2.0;
    var right := left + (width - 1) as real;
    var bottom := centerStudZ - (height - 1) as real / 2.0;
    var top := bottom + (height - 1) as real;
    var horizontal := HorizontalEdges(ctx, left, bottom, top, color);
    var vertical := VerticalEdges(ctx, left, right, bottom, color);
    lines := horizontal + vertical;
    assert forall k :: 0 <= k < |FRAME_BARS| ==>
      Ok(lines[k]) == BarPlate(ctx, Left(centerStudX), Bottom(centerStudZ), FRAME_BARS[k], color);
  }

  /** For the bottom then the top edge, lay the segments 12, 12, 8 left to right from the
      left column: each plate is centred at its start cell plus (length - 1) / 2, and the
      cursor then moves on by the length. */
  method HorizontalEdges(ctx: SceneContext, left: real, bottom: real, top: real, color: int)
    returns (lines: seq<Type1>)
    requires top == bottom + (FRAME_HEIGHT - 1) as real
    ensures |lines| == 6
    ensures forall k :: 0 <= k < 6 ==> Ok(lines[k]) == BarPlate(ctx, left, bottom, FRAME_BARS[k], color)
  {
    var horizontalSegments := [12, 12, 8];
    lines := [];
    var zEdges := [bottom, top];
    for e := 0 to |zEdges|
      invariant |lines| == 3 * e
      invariant forall k :: 0 <= k < |lines| ==> Ok(lines[k]) == BarPlate(ctx, left, bottom, FRAME_BARS[k], color)
    {
      var xStart := left;
      for s := 0 to |horizontalSegments|
        invariant |lines| == 3 * e + s
        invariant xStart == left + Total(HORIZONTAL_SEGMENTS[..s]) as real
        invariant forall k :: 0 <= k < |lines| ==> Ok(lines[k]) == BarPlate(ctx, left, bottom, FRAME_BARS[k], color)
      {
        var length := horizontalSegments[s];
        var xCenter := xStart + (length - 1) as real / 2.0;
        FrameBarAt(e, s);
        PlateLengths(length);
        ghost var bar := FRAME_BARS[3 * e + s];
        assert zEdges[e] == bottom + bar.j0 as real;
        assert xCenter == left + bar.i0 as real + (bar.length - 1) as real / 2.0;
        var p := BuildPlate(ctx, xCenter, zEdges[e], color, length);
        assert p == BarPlate(ctx, left, bottom, bar, color);
        lines := lines + [p.value];
        TotalSnoc(HORIZONTAL_SEGMENTS, s);
        xStart := xStart + length as real;
      }
    }
  }

  /** For the left then the right edge, lay the segments 12, 12, 4 bottom to top from the
      row above the bottom one, so the corners are not covered twice. */
  method VerticalEdges(ctx: SceneContext, left: real, right: real, bottom: real, color: int)
    returns (lines: seq<Type1>)
    requires right == left + (FRAME_WIDTH - 1) as real
    ensures |lines| == 6
    ensures forall k :: 0 <= k < 6 ==> Ok(lines[k]) == BarPlate(ctx, left, bottom, FRAME_BARS[6 + k], color)
  {
    var verticalSegments := [12, 12, 4];
    lines := [];
    var xEdges := [left, right];
    for e := 0 to |xEdges|
      invariant |lines| == 3 * e
      invariant forall k :: 0 <= k < |lines| ==> Ok(lines[k]) == BarPlate(ctx, left, bottom, FRAME_BARS[6 + k], color)
    {
      var zStart := bottom + 1.0;
      for s := 0 to |verticalSegments|
        invariant |lines| == 3 * e + s
        invariant zStart == bottom + 1.0 + Total(VERTICAL_SEGMENTS[..s]) as real
        invariant forall k :: 0 <= k < |lines| ==> Ok(lines[k]) == BarPlate(ctx, left, bottom, FRAME_BARS[6 + k], color)
      {
        var length := verticalSegments[s];
        var zCenter := zStart + (length - 1) as real / 2.0;
        FrameBarAt(e, s);
        PlateLengths(length);
        var p := BuildPlateRotated(ctx, xEdges[e], zCenter, color, length);
        assert p == BarPlate(ctx, left, bottom, FRAME_BARS[6 + 3 * e + s], color);
        lines := lines + [p.value];
        TotalSnoc(VERTICAL_SEGMENTS, s);
        zStart := zStart + length as real;
      }
    }
  }
}
