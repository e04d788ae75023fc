/** digits.py: 5x7 pixel glyphs, the bitmap of a string of them, and one 1x1 plate per lit
    pixel, centred on the baseplate's stud grid. The glyph table is a parameter of the
    rendering and placement operations (the program passes DIGITS_5x7), so their proofs
    hold for any table of well-formed glyphs; RenderText5x7 and BuildCenteredDigit are
    the program's entry points with the digit table filled in. */
module Digits {
  import opened Wrappers
  import opened Context
  import opened LDraw

  const PLATE_1x1: string := "3024.dat"
  const HEIGHT: nat := 7
  const WIDTH: nat := 5

  /** A glyph table: character to rows, top to bottom; '#' is a lit pixel. */
  type Font = map<char, seq<string>>

  predicate IsPixel(c: char) {
    c == '.' || c == '#'
  }

  predicate IsGlyph(g: seq<string>) {
    |g| == HEIGHT && forall r :: 0 <= r < HEIGHT ==> |g[r]| == WIDTH && forall c :: 0 <= c < WIDTH ==> IsPixel(g[r][c])
  }

  predicate WellFormed(font: Font) {
    forall ch :: ch in font ==> IsGlyph(font[ch])
  }

  /** DIGITS_5x7: the ten decimal digits. */
  const DIGITS_5x7: Font :=
    map[
      '1' := ["..#..", ".##..", "..#..", "..#..", "..#..", "..#..", ".###."],
      '2' := [".###.", "#...#", "....#", "..##.", ".#...", "#....", "#####"],
      '3' := ["####.", "....#", "..##.", "....#", "....#", "#...#", ".###."],
      '4' := ["#..#.", "#..#.", "#..#.", "#####", "...#.", "...#.", "...#."],
      '5' := ["#####", "#....", "####.", "....#", "....#", "#...#", ".###."],
      '6' := [".###.", "#....", "####.", "#...#", "#...#", "#...#", ".###."],
      '7' := ["#####", "....#", "...#.", "..#..", ".#...", "#....", "#...."],
      '8' := [".###.", "#...#", "#...#", ".###.", "#...#", "#...#", ".###."],
      '9' := [".###.", "#...#", "#...#", ".####", "....#", "...#.", ".##.."],
      '0' := [".###.", "#...#", "#..##", "#.#.#", "##..#", "#...#", ".###."]
    ]

  /** Every table entry is 7 rows of 5 pixels. */
  lemma DigitsWellFormed()
    ensures WellFormed(DIGITS_5x7)
  {
    Glyph0();
    Glyph1();
    Glyph2();
    Glyph3();
    Glyph4();
    Glyph5();
    Glyph6();
    Glyph7();
    Glyph8();
    Glyph9();
  }

  /** The table holds exactly the ten decimal digits. */
  lemma DigitsKeys()
    ensures forall ch :: ch in DIGITS_5x7 <==> '0' <= ch <= '9'
  {
  }

  /** The glyphs one by one. */
  lemma Glyph0() ensures IsGlyph(DIGITS_5x7['0']) {}
  lemma Glyph1() ensures IsGlyph(DIGITS_5x7['1']) {}
  lemma Glyph2() ensures IsGlyph(DIGITS_5x7['2']) {}
  lemma Glyph3() ensures IsGlyph(DIGITS_5x7['3']) {}
  lemma Glyph4() ensures IsGlyph(DIGITS_5x7['4']) {}
  lemma Glyph5() ensures IsGlyph(DIGITS_5x7['5']) {}
  lemma Glyph6() ensures IsGlyph(DIGITS_5x7['6']) {}
  lemma Glyph7() ensures IsGlyph(DIGITS_5x7['7']) {}
  lemma Glyph8() ensures IsGlyph(DIGITS_5x7['8']) {}
  lemma Glyph9() ensures IsGlyph(DIGITS_5x7['9']) {}

  predicate Supported(font: Font, text: string) {
    forall k :: 0 <= k < |text| ==> text[k] in font
  }

  /** The position of the first character that has no glyph, if any. */
  function FirstUnsupported(font: Font, text: string): (r: Option<nat>)
    ensures r.None? <==> Supported(font, text)
    ensures r.Some? ==> r.value < |text| && text[r.value] !in font && Supported(font, text[..r.value])
  {
    if text == [] then None
    else if text[0] !in font then Some(0)
    else match FirstUnsupported(font, text[1..])
      case None => None
      case Some(k) => Some(k + 1)
  }

  /** The number of gap columns: "." * gap is empty for gap <= 0. */
  function Pad(gap: int): nat {
    if gap > 0 then gap else 0
  }

  /** "." * gap. */
  function Dots(gap: int): (s: string)
    ensures |s| == Pad(gap) && forall k :: 0 <= k < |s| ==> s[k] == '.'
  {
    if gap <= 0 then "" else Dots(gap - 1) + "."
  }

  /** Row r of a glyph; a table entry with fewer rows contributes nothing. */
  function GlyphRow(font: Font, ch: char, r: nat): string
    requires ch in font
  {
    if r < |font[ch]| then font[ch][r] else ""
  }

  /** Row r of the bitmap of text: row r of each glyph, with gap columns between glyphs
      and none after the last one. */
  function Row(font: Font, text: string, gap: int, r: nat): string
    requires Supported(font, text)
  {
    if text == [] then ""
    else
      var n := |text|;
      var glyph := GlyphRow(font, text[n - 1], r);
      if n == 1 then glyph else Row(font, text[..n - 1], gap, r) + Dots(gap) + glyph
  }

  /** What render_text_5x7 returns: EmptyText for "", UnsupportedCharacter for the first
      character without a glyph (before anything is built), otherwise the 7 rows. */
  function Rendered(font: Font, text: string, gap: int): (res: Result<seq<string>>)
    ensures res.Ok? ==> |res.value| == HEIGHT
  {
    if text == [] then Err(EmptyText)
    else match FirstUnsupported(font, text)
      case Some(k) => Err(UnsupportedCharacter(text[k]))
      case None => Ok(seq(HEIGHT, r requires 0 <= r < HEIGHT => Row(font, text, gap, r)))
  }

  /** The separator the loop has appended after i glyphs of an n-glyph text. */
  function Sep(gap: int, i: nat, n: nat): string {
    if 0 < i < n then Dots(gap) else ""
  }

  lemma RowSnoc(font: Font, text: string, gap: int, r: nat, i: nat)
    requires Supported(font, text) && i < |text|
    ensures Row(font, text[..i + 1], gap, r) == Row(font, text[..i], gap, r) + Sep(gap, i, |text|) + GlyphRow(font, text[i], r)
  {
    var t := text[..i + 1];
    assert t[..i] == text[..i];
  }

  /** render_text_5x7 over a glyph table: validate every character, then grow the 7 rows
      glyph by glyph, with a gap after every glyph but the last. */
  method RenderText(font: Font, text: string, gap: int) returns (res: Result<seq<string>>)
    requires WellFormed(font)
    ensures res == Rendered(font, text, gap)
  {
    if text == [] {
      return Err(EmptyText);
    }
    var bad := CheckSupported(font, text);
    if bad.Some? {
      return Err(UnsupportedCharacter(text[bad.value]));
    }
    var rows: seq<string> := seq(HEIGHT, _ => "");
    for i := 0 to |text|
      invariant |rows| == HEIGHT
      invariant forall r :: 0 <= r < HEIGHT ==> rows[r] == Row(font, text[..i], gap, r) + Sep(gap, i, |text|)
    {
      var digit := font[text[i]];
      ghost var before := rows;
      rows := AppendToRows(rows, digit);
      GlyphAppended(font, text, gap, i, before, rows);
      if i < |text| - 1 {
        rows := AppendToRows(rows, seq(HEIGHT, _ => Dots(gap)));
      }
    }
    assert text[..|text|] == text;
    assert forall r :: 0 <= r < HEIGHT ==> rows[r] == Row(font, text, gap, r) + [];
    ghost var want := seq(HEIGHT, r requires 0 <= r < HEIGHT => Row(font, text, gap, r));
    assert forall r :: 0 <= r < HEIGHT ==> rows[r] == want[r];
    assert rows == want;
    return Ok(rows);
  }

  /** One step of the outer loop: appending glyph i to every row gives the rows of the
      first i + 1 characters. */
  lemma GlyphAppended(font: Font, text: string, gap: int, i: nat, before: seq<string>, after: seq<string>)
    requires WellFormed(font) && Supported(font, text) && i < |text|
    requires |before| == HEIGHT && |after| == HEIGHT
    requires forall r :: 0 <= r < HEIGHT ==> before[r] == Row(font, text[..i], gap, r) + Sep(gap, i, |text|)
    requires forall r :: 0 <= r < HEIGHT ==> after[r] == before[r] + font[text[i]][r]
    ensures forall r :: 0 <= r < HEIGHT ==> after[r] == Row(font, text[..i + 1], gap, r)
  {
    forall r | 0 <= r < HEIGHT ensures after[r] == Row(font, text[..i + 1], gap, r) {
      RowSnoc(font, text, gap, r, i);
    }
  }

  /** The validation loop: the first character with no glyph, if any. */
  method CheckSupported(font: Font, text: string) returns (bad: Option<nat>)
    ensures bad == FirstUnsupported(font, text)
  {
    for k := 0 to |text|
      invariant Supported(font, text[..k])
    {
      if text[k] !in font {
        FirstUnsupportedAt(font, text, k);
        return Some(k);
      }
      assert text[..k + 1] == text[..k] + [text[k]];
    }
    assert text[..|text|] == text;
    return None;
  }

  /** for r in range(height): rows[r] += extra[r] */
  method AppendToRows(rows: seq<string>, extra: seq<string>) returns (rows': seq<string>)
    requires |rows| == HEIGHT && |extra| >= HEIGHT
    ensures |rows'| == HEIGHT && forall r :: 0 <= r < HEIGHT ==> rows'[r] == rows[r] + extra[r]
  {
    rows' := rows;
    for r := 0 to HEIGHT
      invariant |rows'| == HEIGHT
      invariant forall q :: 0 <= q < r ==> rows'[q] == rows[q] + extra[q]
      invariant forall q :: r <= q < HEIGHT ==> rows'[q] == rows[q]
    {
      rows' := rows'[r := rows'[r] + extra[r]];
    }
  }

  lemma FirstUnsupportedAt(font: Font, text: string, k: nat)
    requires k < |text| && text[k] !in font && Supported(font, text[..k])
    ensures FirstUnsupported(font, text) == Some(k)
  {
    var r := FirstUnsupported(font, text);
    assert r.Some?;
  }

  /** render_text_5x7 with the digit table. */
  method RenderText5x7(text: string, gap: int) returns (res: Result<seq<string>>)
    ensures res == Rendered(DIGITS_5x7, text, gap)
  {
    DigitsWellFormed();
    res := RenderText(DIGITS_5x7, text, gap);
  }

  /** Every row of the bitmap has 5 columns per glyph and the gap columns between glyphs:
      5n + gap * (n - 1) for n characters, no gap columns when gap <= 0. */
  lemma {:induction false} RowWidth(font: Font, text: string, gap: int, r: nat)
    requires WellFormed(font) && Supported(font, text) && r < HEIGHT
    ensures |Row(font, text, gap, r)| == if text == [] then 0 else |text| * WIDTH + (|text| - 1) * Pad(gap)
  {
    var n := |text|;
    if n > 1 {
      RowWidth(font, text[..n - 1], gap, r);
      WidthStep(n, Pad(gap));
    }
  }

  lemma WidthStep(n: nat, p: nat)
    requires n > 1
    ensures (n - 1) * WIDTH + (n - 2) * p + p + WIDTH == n * WIDTH + (n - 1) * p
  {
  }

  /** The first column of glyph i's column c, and of the j-th gap column after glyph i. */
  function GlyphColumn(i: nat, c: nat, gap: int): nat {
    i * (WIDTH + Pad(gap)) + c
  }

  function GapColumn(i: nat, j: nat, gap: int): nat {
    i * (WIDTH + Pad(gap)) + WIDTH + j
  }

  /** Columns [i * (5 + gap), i * (5 + gap) + 5) of row r are row r of glyph i. */
  lemma {:induction false} RowGlyphColumns(font: Font, text: string, gap: int, r: nat)
    requires WellFormed(font) && Supported(font, text) && r < HEIGHT
    ensures var s := Row(font, text, gap, r);
      forall i, c :: 0 <= i < |text| && 0 <= c < WIDTH ==>
        GlyphColumn(i, c, gap) < |s| && s[GlyphColumn(i, c, gap)] == font[text[i]][r][c]
  {
    var n, p := |text|, Pad(gap);
    if n == 1 {
      assert Row(font, text, gap, r) == font[text[0]][r];
    } else if n > 1 {
      var t := text[..n - 1];
      var s, s' := Row(font, text, gap, r), Row(font, t, gap, r);
      RowGlyphColumns(font, t, gap, r);
      RowWidth(font, t, gap, r);
      LastGlyphStart(n, gap);
      assert s == s' + Dots(gap) + font[text[n - 1]][r];
      forall i, c | 0 <= i < n && 0 <= c < WIDTH
        ensures GlyphColumn(i, c, gap) < |s| && s[GlyphColumn(i, c, gap)] == font[text[i]][r][c]
      {
        if i < n - 1 {
          assert t[i] == text[i];
        }
      }
    }
  }

  /** The gap columns after every glyph but the last are '.'. */
  lemma {:induction false} RowGapColumns(font: Font, text: string, gap: int, r: nat)
    requires WellFormed(font) && Supported(font, text) && r < HEIGHT
    ensures var s := Row(font, text, gap, r);
      forall i, j :: 0 <= i < |text| - 1 && 0 <= j < Pad(gap) ==>
        GapColumn(i, j, gap) < |s| && s[GapColumn(i, j, gap)] == '.'
  {
    var n, p := |text|, Pad(gap);
    if n > 1 {
      var t := text[..n - 1];
      var s, s' := Row(font, text, gap, r), Row(font, t, gap, r);
      RowGapColumns(font, t, gap, r);
      RowWidth(font, t, gap, r);
      LastGlyphStart(n, gap);
      assert s == s' + Dots(gap) + font[text[n - 1]][r];
    }
  }

  /** Where glyph n - 1 starts in an n-glyph row: right after the n - 1 earlier glyphs and
      their gaps; every earlier glyph and gap column lies before it. */
  lemma LastGlyphStart(n: nat, gap: int)
    requires n > 1
    ensures var p := Pad(gap);
      (n - 1) * WIDTH + (n - 2) * p + p == (n - 1) * (WIDTH + p)
      && (n - 2) * (WIDTH + p) + WIDTH == (n - 1) * WIDTH + (n - 2) * p
    ensures forall i, c :: 0 <= i < n - 1 && 0 <= c < WIDTH ==>
      GlyphColumn(i, c, gap) < (n - 1) * WIDTH + (n - 2) * Pad(gap)
    ensures forall i, j :: 0 <= i < n - 2 && 0 <= j < Pad(gap) ==>
      GapColumn(i, j, gap) < (n - 1) * WIDTH + (n - 2) * Pad(gap)
  {
    var p := Pad(gap);
    forall i, c | 0 <= i < n - 1 && 0 <= c < WIDTH
      ensures GlyphColumn(i, c, gap) < (n - 1) * WIDTH + (n - 2) * p
    {
      MulMonotone(i, n - 2, WIDTH + p);
    }
    forall i, j | 0 <= i < n - 2 && 0 <= j < p
      ensures GapColumn(i, j, gap) < (n - 1) * WIDTH + (n - 2) * p
    {
      MulMonotone(i, n - 3, WIDTH + p);
    }
  }

  lemma MulMonotone(i: nat, m: nat, k: nat)
    requires i <= m
    ensures i * k <= m * k
  {
  }

  /** render_text_5x7 fails exactly on "" and on text with a character outside the table;
      in the second case it names the first such character. */
  lemma RenderedErrors(font: Font, text: string, gap: int)
    ensures Rendered(font, text, gap) == Err(EmptyText) <==> text == []
    ensures Rendered(font, text, gap).Err? <==> text == [] || !Supported(font, text)
    ensures text != [] && !Supported(font, text) ==>
      exists k :: 0 <= k < |text| && Rendered(font, text, gap) == Err(UnsupportedCharacter(text[k]))
               && text[k] !in font && Supported(font, text[..k])
  {
  }

  /** A successful render has 7 rows, each 5n + gap * (n - 1) wide, every character a pixel. */
  lemma RenderedShape(font: Font, text: string, gap: int)
    requires WellFormed(font)
    ensures var res := Rendered(font, text, gap);
      res.Ok? ==>
        |res.value| == HEIGHT &&
        forall r :: 0 <= r < HEIGHT ==> |res.value[r]| == |text| * WIDTH + (|text| - 1) * Pad(gap)
                                        && forall c :: 0 <= c < |res.value[r]| ==> IsPixel(res.value[r][c])
  {
    var res := Rendered(font, text, gap);
    if res.Ok? {
      forall r | 0 <= r < HEIGHT
        ensures |res.value[r]| == |text| * WIDTH + (|text| - 1) * Pad(gap)
        ensures forall c :: 0 <= c < |res.value[r]| ==> IsPixel(res.value[r][c])
      {
        RowWidth(font, text, gap, r);
        RowPixels(font, text, gap, r);
      }
    }
  }

  lemma {:induction false} RowPixels(font: Font, text: string, gap: int, r: nat)
    requires WellFormed(font) && Supported(font, text) && r < HEIGHT
    ensures forall c :: 0 <= c < |Row(font, text, gap, r)| ==> IsPixel(Row(font, text, gap, r)[c])
  {
    var n := |text|;
    if n > 1 {
      RowPixels(font, text[..n - 1], gap, r);
    }
  }

  /** "12" with the default gap of 1 renders 11 columns wide. */
  lemma RenderTwelve()
    ensures Rendered(DIGITS_5x7, "12", 1).Ok?
    ensures forall r :: 0 <= r < HEIGHT ==> |Rendered(DIGITS_5x7, "12", 1).value[r]| == 11
  {
    DigitsWellFormed();
    assert Supported(DIGITS_5x7, "12");
    RenderedShape(DIGITS_5x7, "12", 1);
  }

  /** The lit pixels of one row, left to right, as (row, column) cells. */
  function RowCells(row: string, r: nat): (cells: seq<(nat, nat)>)
    ensures forall k :: 0 <= k < |cells| ==> cells[k].0 == r && cells[k].1 < |row| && row[cells[k].1] == '#'
  {
    if row == [] then []
    else
      var n := |row| - 1;
      RowCells(row[..n], r) + (if row[n] == '#' then [(r, n)] else [])
  }

  /** The lit pixels of a bitmap in the order build_centered_digit visits them: row by row,
      left to right within a row. */
  function Cells(m: seq<string>): (cells: seq<(nat, nat)>)
    ensures forall k :: 0 <= k < |cells| ==> cells[k].0 < |m| && cells[k].1 < |m[cells[k].0]| && m[cells[k].0][cells[k].1] == '#'
  {
    if m == [] then []
    else
      var n := |m| - 1;
      var before := Cells(m[..n]);
      assert forall k :: 0 <= k < |before| ==> m[before[k].0] == m[..n][before[k].0];
      before + RowCells(m[n], n)
  }

  /** One 1x1 plate: the stud (origin_x + col, origin_z + (height - 1 - row)), on the
      baseplate top plane, unrotated. */
  function Plate(ctx: SceneContext, color: int, originX: real, originZ: real, cell: (nat, nat)): Type1 {
    Type1(color,
          Vec3(ctx.Studs(originX + cell.1 as real), ctx.BaseplateTopOriginY(), ctx.Studs(originZ + (HEIGHT - 1 - cell.0) as real)),
          IDENTITY, PLATE_1x1)
  }

  function Plates(ctx: SceneContext, color: int, originX: real, originZ: real, cells: seq<(nat, nat)>): (ps: seq<Type1>)
    ensures |ps| == |cells| && forall k :: 0 <= k < |cells| ==> ps[k] == Plate(ctx, color, originX, originZ, cells[k])
  {
    if cells == [] then []
    else Plates(ctx, color, originX, originZ, cells[..|cells| - 1]) + [Plate(ctx, color, originX, originZ, cells[|cells| - 1])]
  }

  /** The top-left pixel's stud coordinate: centring on the pixel grid, (size - 1) / 2 before the centre. */
  function Origin(centre: real, size: nat): real {
    centre - (size - 1) as real / 2.0
  }

  /** The plates for a rendered bitmap, centred on the stud (cx, cz). */
  function BitmapPlates(ctx: SceneContext, m: seq<string>, cx: real, cz: real, color: int): seq<Type1>
    requires m != []
  {
    Plates(ctx, color, Origin(cx, |m[0]|), Origin(cz, |m|), Cells(m))
  }

  /** What build_centered_digit returns: the bitmap of text (default gap 1), or its error;
      one plate per lit pixel, in visiting order. */
  function CenteredPlates(ctx: SceneContext, font: Font, text: string, cx: real, cz: real, color: int): Result<seq<Type1>> {
    match Rendered(font, text, 1)
    case Err(e) => Err(e)
    case Ok(m) => Ok(BitmapPlates(ctx, m, cx, cz, color))
  }

  /** build_centered_digit over a glyph table: render, then place the bitmap. */
  method BuildCentered(ctx: SceneContext, font: Font, text: string, cx: real, cz: real, color: int)
    returns (res: Result<seq<Type1>>)
    requires WellFormed(font)
    ensures res == CenteredPlates(ctx, font, text, cx, cz, color)
  {
    var rendered := RenderText(font, text, 1);
    if rendered.Err? {
      return Err(rendered.error);
    }
    var lines := PlaceBitmap(ctx, rendered.value, cx, cz, color);
    return Ok(lines);
  }

  /** The rest of build_centered_digit: the top-left pixel's stud, then the two loops. */
  method PlaceBitmap(ctx: SceneContext, matrix: seq<string>, cx: real, cz: real, color: int) returns (lines: seq<Type1>)
    requires |matrix| == HEIGHT
    ensures lines == BitmapPlates(ctx, matrix, cx, cz, color)
  {
    var height := |matrix|;
    var width := |matrix[0]|;
    var originX := cx - (width - 1) as real / 2.0;
    var originZ := cz - (height - 1) as real / 2.0;
    lines := PlaceCells(ctx, matrix, originX, originZ, color);
  }

  /** The outer loop of build_centered_digit: the rows top to bottom. */
  method PlaceCells(ctx: SceneContext, matrix: seq<string>, originX: real, originZ: real, color: int)
    returns (lines: seq<Type1>)
    requires |matrix| == HEIGHT
    ensures lines == Plates(ctx, color, originX, originZ, Cells(matrix))
  {
    lines := [];
    for row := 0 to |matrix|
      invariant lines == Plates(ctx, color, originX, originZ, Cells(matrix[..row]))
    {
      var rowLines := PlaceRow(ctx, matrix[row], row, originX, originZ, color);
      PlatesAppend(ctx, color, originX, originZ, Cells(matrix[..row]), RowCells(matrix[row], row));
      lines := lines + rowLines;
      assert matrix[..row + 1][..row] == matrix[..row];
    }
    assert matrix[..|matrix|] == matrix;
  }

  /** The inner loop of build_centered_digit: one row left to right, a plate on each '#'. */
  method PlaceRow(ctx: SceneContext, line: string, row: nat, originX: real, originZ: real, color: int)
    returns (lines: seq<Type1>)
    requires row < HEIGHT
    ensures lines == Plates(ctx, color, originX, originZ, RowCells(line, row))
  {
    var y := ctx.BaseplateTopOriginY();
    lines := [];
    for col := 0 to |line|
      invariant lines == Plates(ctx, color, originX, originZ, RowCells(line[..col], row))
    {
      ghost var cells := RowCells(line[..col], row);
      RowCellsSnoc(line, row, col);
      if line[col] == '#' {
        var studX := originX + col as real;
        var studZ := originZ + (HEIGHT - 1 - row) as real;
        var plate := Type1(color, Vec3(ctx.Studs(studX), y, ctx.Studs(studZ)), IDENTITY, PLATE_1x1);
        assert plate == Plate(ctx, color, originX, originZ, (row, col));
        PlatesSnoc(ctx, color, originX, originZ, cells, (row, col));
        lines := lines + [plate];
      }
    }
    assert line[..|line|] == line;
  }

  lemma RowCellsSnoc(line: string, row: nat, col: nat)
    requires col < |line|
    ensures RowCells(line[..col + 1], row) == RowCells(line[..col], row) + if line[col] == '#' then [(row, col)] else []
  {
    assert line[..col + 1][..col] == line[..col];
  }

  lemma PlatesSnoc(ctx: SceneContext, color: int, originX: real, originZ: real, cells: seq<(nat, nat)>, cell: (nat, nat))
    ensures Plates(ctx, color, originX, originZ, cells + [cell]) ==
            Plates(ctx, color, originX, originZ, cells) + [Plate(ctx, color, originX, originZ, cell)]
  {
    assert (cells + [cell])[..|cells|] == cells;
  }

  lemma PlatesAppend(ctx: SceneContext, color: int, originX: real, originZ: real, a: seq<(nat, nat)>, b: seq<(nat, nat)>)
    ensures Plates(ctx, color, originX, originZ, a + b) ==
            Plates(ctx, color, originX, originZ, a) + Plates(ctx, color, originX, originZ, b)
  {
    var l, r := Plates(ctx, color, originX, originZ, a + b), Plates(ctx, color, originX, originZ, a) + Plates(ctx, color, originX, originZ, b);
    assert forall k :: 0 <= k < |l| ==> l[k] == r[k];
  }

  /** build_centered_digit with the digit table. */
  method BuildCenteredDigit(ctx: SceneContext, text: string, cx: real, cz: real, color: int) returns (res: Result<seq<Type1>>)
    ensures res == CenteredPlates(ctx, DIGITS_5x7, text, cx, cz, color)
  {
    DigitsWellFormed();
    res := BuildCentered(ctx, DIGITS_5x7, text, cx, cz, color);
  }

  /** Row-major order on (row, column) cells. */
  predicate Before(a: (nat, nat), b: (nat, nat)) {
    a.0 < b.0 || (a.0 == b.0 && a.1 < b.1)
  }

  lemma {:induction false} RowCellsComplete(row: string, r: nat, c: nat)
    requires c < |row| && row[c] == '#'
    ensures (r, c) in RowCells(row, r)
  {
    var n := |row| - 1;
    if c < n {
      RowCellsComplete(row[..n], r, c);
    }
  }

  lemma {:induction false} RowCellsOrdered(row: string, r: nat)
    ensures forall i, j :: 0 <= i < j < |RowCells(row, r)| ==> RowCells(row, r)[i].1 < RowCells(row, r)[j].1
  {
    if row != [] {
      var n := |row| - 1;
      var a := RowCells(row[..n], r);
      RowCellsOrdered(row[..n], r);
      var cells := RowCells(row, r);
      assert cells == a + (if row[n] == '#' then [(r, n)] else []);
      assert forall i :: 0 <= i < |a| ==> a[i].1 < n;
      forall i, j | 0 <= i < j < |cells| ensures cells[i].1 < cells[j].1 {
        assert cells[i] == a[i];
        if j < |a| {
          assert cells[j] == a[j];
        }
      }
    }
  }

  /** Every '#' of the bitmap is a cell, and only those: so one plate per lit pixel. */
  lemma {:induction false} CellsExact(m: seq<string>, r: nat, c: nat)
    ensures (r, c) in Cells(m) <==> r < |m| && c < |m[r]| && m[r][c] == '#'
  {
    if m != [] && r < |m| && c < |m[r]| && m[r][c] == '#' {
      var n := |m| - 1;
      if r < n {
        CellsExact(m[..n], r, c);
      } else {
        RowCellsComplete(m[n], n, c);
      }
    }
  }

  /** The cells come in row-major order, each once. */
  lemma {:induction false} CellsOrdered(m: seq<string>)
    ensures forall i, j :: 0 <= i < j < |Cells(m)| ==> Before(Cells(m)[i], Cells(m)[j])
  {
    if m != [] {
      var n := |m| - 1;
      var a, b := Cells(m[..n]), RowCells(m[n], n);
      CellsOrdered(m[..n]);
      RowCellsOrdered(m[n], n);
      var cells := Cells(m);
      assert cells == a + b;
      assert forall i :: 0 <= i < |a| ==> a[i].0 < n;
      forall i, j | 0 <= i < j < |cells| ensures Before(cells[i], cells[j]) {
        if j < |a| {
          assert cells[i] == a[i] && cells[j] == a[j];
        } else if i >= |a| {
          assert cells[i] == b[i - |a|] && cells[j] == b[j - |a|];
          assert b[i - |a|].0 == n == b[j - |a|].0;
        } else {
          assert cells[i] == a[i] && cells[j] == b[j - |a|];
        }
      }
    }
  }

  /** Plate k of a centred digit sits on the k-th lit pixel (row, col): at stud
      (cx - (w - 1) / 2 + col, cz - 3 + (6 - row)), so within (w - 1) / 2 of cx across and
      within 3 of cz along, with row 0 at the largest z; on the baseplate top plane,
      unrotated, a 3024.dat in the given colour. */
  lemma CenteredPlateAt(ctx: SceneContext, font: Font, text: string, cx: real, cz: real, color: int, k: nat)
    requires WellFormed(font)
    ensures var res, bitmap := CenteredPlates(ctx, font, text, cx, cz, color), Rendered(font, text, 1);
      res.Ok? ==> (bitmap.Ok? && |res.value| == |Cells(bitmap.value)| &&
        (k < |res.value| ==>
          var p, cell, w := res.value[k], Cells(bitmap.value)[k], |bitmap.value[0]|;
          var left := cx - (w - 1) as real / 2.0;
          bitmap.value[cell.0][cell.1] == '#'
          && p.pos.x / 20.0 == left + cell.1 as real
          && p.pos.z / 20.0 == cz - 3.0 + (6 - cell.0) as real
          && left <= p.pos.x / 20.0 <= cx + (w - 1) as real / 2.0
          && cz - 3.0 <= p.pos.z / 20.0 <= cz + 3.0
          && (cell.0 == 0 ==> p.pos.z / 20.0 == cz + 3.0)
          && p.pos.y == ctx.BaseplateTopOriginY() && p.m == IDENTITY && p.partId == PLATE_1x1 && p.color == color))
  {
    var res, bitmap := CenteredPlates(ctx, font, text, cx, cz, color), Rendered(font, text, 1);
    if res.Ok? && k < |res.value| {
      var m := bitmap.value;
      var cell := Cells(m)[k];
      RenderedShape(font, text, 1);
      assert |m[cell.0]| == |m[0]|;
    }
  }

  /** A single digit is 5 pixels wide, so it always renders and every plate of its centred
      number lies within 2 studs of cx across and 3 studs of cz along. */
  lemma OneDigitWidth(ctx: SceneContext, ch: char, cx: real, cz: real, color: int)
    requires '0' <= ch <= '9'
    ensures Rendered(DIGITS_5x7, [ch], 1).Ok? && |Rendered(DIGITS_5x7, [ch], 1).value[0]| == 5
    ensures CenteredPlates(ctx, DIGITS_5x7, [ch], cx, cz, color).Ok?
    ensures var ps := CenteredPlates(ctx, DIGITS_5x7, [ch], cx, cz, color).value;
      forall k :: 0 <= k < |ps| ==>
        cx - 2.0 <= ps[k].pos.x / 20.0 <= cx + 2.0 && cz - 3.0 <= ps[k].pos.z / 20.0 <= cz + 3.0
  {
    DigitsKeys();
    DigitsWellFormed();
    assert Supported(DIGITS_5x7, [ch]);
    RenderedShape(DIGITS_5x7, [ch], 1);
    var ps := CenteredPlates(ctx, DIGITS_5x7, [ch], cx, cz, color).value;
    forall k | 0 <= k < |ps|
      ensures cx - 2.0 <= ps[k].pos.x / 20.0 <= cx + 2.0 && cz - 3.0 <= ps[k].pos.z / 20.0 <= cz + 3.0
    {
      CenteredPlateAt(ctx, DIGITS_5x7, [ch], cx, cz, color, k);
    }
  }
}
