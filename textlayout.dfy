/** main.py build_text_on_baseplate: where a line of 5x7 text goes on one baseplate of
    the grid. The letter table LETTERS_5x7 and the glyph placer build_text_from_top_left
    belong to text.py, which is not part of this model: the table is a parameter (any
    table whose glyphs have at least one row, since the width is read from row 0), and
    the result is the measured width and the top-left anchor handed to the placer. */
module TextLayout {
  import opened Wrappers
  import opened Context
  import opened LDraw
  import Baseplate
  import Digits

  /** A letter table: character to glyph rows, top to bottom. */
  type Letters = map<char, seq<string>>

  /** The height of every letter, in studs. */
  const TEXT_HEIGHT: int := 7

  /** Every glyph has a row 0 to take the width from. */
  predicate HasRows(font: Letters) {
    forall ch :: ch in font ==> |font[ch]| > 0
  }

  /** str.upper() on one character, for the ASCII letters. */
  function UpperChar(c: char): (u: char)
    ensures 'a' <= c <= 'z' ==> 'A' <= u <= 'Z' && u as int - c as int == 'A' as int - 'a' as int
    ensures !('a' <= c <= 'z') ==> u == c
  {
    if 'a' <= c <= 'z' then (c as int - 32) as char else c
  }

  /** str.upper(): the same characters with the lower-case ASCII letters capitalised. */
  function Upper(s: string): (u: string)
    ensures |u| == |s| && forall k :: 0 <= k < |s| ==> u[k] == UpperChar(s[k])
  {
    seq(|s|, k requires 0 <= k < |s| => UpperChar(s[k]))
  }

  /** The width of t's glyphs with spacing columns after each of them. */
  function Advance(font: Letters, t: string, spacing: int): int
    requires HasRows(font) && forall k :: 0 <= k < |t| ==> t[k] in font
  {
    if t == [] then 0
    else Advance(font, t[..|t| - 1], spacing) + |font[t[|t| - 1]][0]| + spacing
  }

  /** The measured width of text: the glyph widths of text.upper() with spacing columns
      between them (so -spacing for ""), or the first upper-cased character without a glyph. */
  function MeasuredWidth(font: Letters, text: string, spacing: int): Result<int>
    requires HasRows(font)
  {
    var t := Upper(text);
    match Digits.FirstUnsupported(font, t)
    case Some(i) => Err(UnsupportedCharacter(t[i]))
    case None => Ok(Advance(font, t, spacing) - spacing)
  }

  /** The width loop of build_text_on_baseplate: add each glyph's width and the spacing,
      raising on the first character without a glyph; then take one spacing back off. */
  method MeasureText(font: Letters, text: string, spacing: int) returns (res: Result<int>)
    requires HasRows(font)
    ensures res == MeasuredWidth(font, text, spacing)
  {
    var t := Upper(text);
    var total := 0;
    var i := 0;
    while i < |t|
      invariant 0 <= i <= |t|
      invariant forall k :: 0 <= k < i ==> t[k] in font
      invariant total == Advance(font, t[..i], spacing)
    {
      var ch := t[i];
      if ch !in font {
        return Err(UnsupportedCharacter(ch));
      }
      assert t[..i + 1][..i] == t[..i];
      total := total + |font[ch][0]| + spacing;
      i := i + 1;
    }
    assert t[..i] == t;
    total := total - spacing;
    return Ok(total);
  }

  /** Measuring fails exactly when some character of text.upper() has no glyph, and then
      names the first such character. */
  lemma MeasureErrors(font: Letters, text: string, spacing: int)
    requires HasRows(font)
    ensures MeasuredWidth(font, text, spacing).Err? <==> exists k :: 0 <= k < |text| && UpperChar(text[k]) !in font
    ensures MeasuredWidth(font, text, spacing).Err? ==>
      exists k :: 0 <= k < |text| && MeasuredWidth(font, text, spacing) == Err(UnsupportedCharacter(UpperChar(text[k])))
               && UpperChar(text[k]) !in font && forall j :: 0 <= j < k ==> UpperChar(text[j]) in font
  {
    var t := Upper(text);
    match Digits.FirstUnsupported(font, t)
    case Some(i) =>
      assert UpperChar(text[i]) !in font;
    case None =>
  }

  /** The widths of two runs of glyphs add up. */
  lemma {:induction false} AdvanceAppend(font: Letters, a: string, b: string, spacing: int)
    requires HasRows(font)
    requires forall k :: 0 <= k < |a| ==> a[k] in font
    requires forall k :: 0 <= k < |b| ==> b[k] in font
    ensures forall k :: 0 <= k < |a + b| ==> (a + b)[k] in font
    ensures Advance(font, a + b, spacing) == Advance(font, a, spacing) + Advance(font, b, spacing)
  {
    assert forall k :: 0 <= k < |a + b| ==> (a + b)[k] in font by {
      forall k | 0 <= k < |a + b| ensures (a + b)[k] in font {
        if k >= |a| { assert (a + b)[k] == b[k - |a|]; }
      }
    }
    if b != [] {
      var b' := b[..|b| - 1];
      AdvanceAppend(font, a, b', spacing);
      assert (a + b)[..|a + b| - 1] == a + b';
      assert (a + b)[|a + b| - 1] == b[|b| - 1];
    } else {
      assert a + b == a;
    }
  }

  /** upper() works character by character, so it distributes over concatenation. */
  lemma UpperAppend(a: string, b: string)
    ensures Upper(a + b) == Upper(a) + Upper(b)
  {
    var l, r := Upper(a + b), Upper(a) + Upper(b);
    forall k | 0 <= k < |l| ensures l[k] == r[k] {
      if k < |a| { assert (a + b)[k] == a[k]; } else { assert (a + b)[k] == b[k - |a|]; }
    }
  }

  /** Text measured in two pieces: the whole is both widths plus one spacing between them. */
  lemma MeasureConcat(font: Letters, s1: string, s2: string, spacing: int)
    requires HasRows(font)
    requires MeasuredWidth(font, s1, spacing).Ok? && MeasuredWidth(font, s2, spacing).Ok?
    ensures MeasuredWidth(font, s1 + s2, spacing)
         == Ok(MeasuredWidth(font, s1, spacing).value + spacing + MeasuredWidth(font, s2, spacing).value)
  {
    UpperAppend(s1, s2);
    AdvanceAppend(font, Upper(s1), Upper(s2), spacing);
  }

  /** When every glyph is w columns wide, each character advances by w + spacing. */
  lemma {:induction false} AdvanceUniform(font: Letters, t: string, spacing: int, w: nat)
    requires HasRows(font)
    requires forall k :: 0 <= k < |t| ==> t[k] in font && |font[t[k]][0]| == w
    ensures Advance(font, t, spacing) == |t| * (w + spacing)
  {
    if t != [] {
      var t' := t[..|t| - 1];
      AdvanceUniform(font, t', spacing, w);
      assert |t'| * (w + spacing) + (w + spacing) == |t| * (w + spacing);
    }
  }

  /** With glyphs of one width w, n characters measure n * w + spacing * (n - 1). */
  lemma MeasureUniform(font: Letters, text: string, spacing: int, w: nat)
    requires HasRows(font)
    requires forall k :: 0 <= k < |text| ==> UpperChar(text[k]) in font && |font[UpperChar(text[k])][0]| == w
    ensures MeasuredWidth(font, text, spacing) == Ok(|text| * w + spacing * (|text| - 1))
  {
    AdvanceUniform(font, Upper(text), spacing, w);
  }

  /** For a table of 5x7 glyphs, the measured width of a text (already upper case) is the
      width of every row of the bitmap the glyph renderer draws for it with the spacing as gap. */
  lemma MeasureMatchesBitmap(font: Digits.Font, text: string, gap: nat, r: nat)
    requires Digits.WellFormed(font) && Digits.Supported(font, text) && text != [] && r < Digits.HEIGHT
    requires forall k :: 0 <= k < |text| ==> UpperChar(text[k]) == text[k]
    ensures HasRows(font)
    ensures MeasuredWidth(font, text, gap) == Ok(|Digits.Row(font, text, gap, r)|)
  {
    forall ch | ch in font ensures |font[ch]| > 0 {
      assert Digits.IsGlyph(font[ch]);
    }
    forall k | 0 <= k < |text| ensures UpperChar(text[k]) in font && |font[UpperChar(text[k])][0]| == Digits.WIDTH {
      assert Digits.IsGlyph(font[text[k]]);
    }
    MeasureUniform(font, text, gap, Digits.WIDTH);
    Digits.RowWidth(font, text, gap, r);
    var n := |text|;
    assert Digits.Pad(gap) == gap;
    assert gap * (n - 1) == (n - 1) * gap;
  }

  /** The stud coordinates build_text_on_baseplate measures from for the baseplate in row
      plateRow counted from the TOP of a gridRows-row grid and column plateCol. */
  function PlateCorner(plateRow: int, plateCol: int, gridRows: int, studsPerPlate: int): (int, int) {
    (plateCol * studsPerPlate, (gridRows - 1 - plateRow) * studsPerPlate)
  }

  /** The top-left start of the text: centred on the baseplate (true division, as Python's /)
      or inset by the margin, then shifted by the deltas. */
  function Anchor(width: int, corner: (int, int), studsPerPlate: int, margin: int, center: bool, deltaX: int, deltaZ: int)
    : (real, real)
  {
    var (baseX, baseZ) := corner;
    var (x, z) :=
      if center then (baseX as real + (studsPerPlate - width) as real / 2.0, baseZ as real + (studsPerPlate - TEXT_HEIGHT) as real / 2.0)
      else ((baseX + margin) as real, (baseZ + margin) as real);
    (x + deltaX as real, z + deltaZ as real)
  }

  /** What build_text_on_baseplate hands to build_text_from_top_left: the measured width
      and the start position. */
  datatype Placement = Placement(width: int, startX: real, startZ: real)

  function TextOnBaseplate(font: Letters, text: string, plateRow: int, plateCol: int, gridRows: int,
                           studsPerPlate: int, margin: int, center: bool, spacing: int, deltaX: int, deltaZ: int)
    : Result<Placement>
    requires HasRows(font)
  {
    match MeasuredWidth(font, text, spacing)
    case Err(e) => Err(e)
    case Ok(width) =>
      var (x, z) := Anchor(width, PlateCorner(plateRow, plateCol, gridRows, studsPerPlate), studsPerPlate, margin, center, deltaX, deltaZ);
      Ok(Placement(width, x, z))
  }

  /** build_text_on_baseplate up to the call into text.py. */
  method BuildTextOnBaseplate(font: Letters, text: string, plateRow: int, plateCol: int, gridRows: int,
                              studsPerPlate: int, margin: int, center: bool, spacing: int, deltaX: int, deltaZ: int)
    returns (res: Result<Placement>)
    requires HasRows(font)
    ensures res == TextOnBaseplate(font, text, plateRow, plateCol, gridRows, studsPerPlate, margin, center, spacing, deltaX, deltaZ)
  {
    var rowFromBottom := (gridRows - 1) - plateRow;
    var baseX := plateCol * studsPerPlate;
    var baseZ := rowFromBottom * studsPerPlate;
    var measured := MeasureText(font, text, spacing);
    if measured.Err? {
      return Err(measured.error);
    }
    var totalWidth := measured.value;
    var startX: real, startZ: real;
    if center {
      startX := baseX as real + (studsPerPlate - totalWidth) as real / 2.0;
      startZ := baseZ as real + (studsPerPlate - TEXT_HEIGHT) as real / 2.0;
    } else {
      startX := (baseX + margin) as real;
      startZ := (baseZ + margin) as real;
    }
    startX := startX + deltaX as real;
    startZ := startZ + deltaZ as real;
    return Ok(Placement(totalWidth, startX, startZ));
  }

  /** Centred text without deltas leaves equal room on both sides of the baseplate, along
      X for its width and along Z for its 7-stud height. */
  lemma CentredIsBalanced(width: int, corner: (int, int), studsPerPlate: int, margin: int)
    ensures var (x, z) := Anchor(width, corner, studsPerPlate, margin, true, 0, 0);
      x - corner.0 as real == (corner.0 + studsPerPlate) as real - (x + width as real) &&
      z - corner.1 as real == (corner.1 + studsPerPlate) as real - (z + TEXT_HEIGHT as real)
  {
  }

  /** Uncentred text starts margin studs in from the corner on both axes, whatever its width;
      the deltas shift either kind of start by exactly themselves. */
  lemma AnchorOffsets(width: int, corner: (int, int), studsPerPlate: int, margin: int, center: bool, deltaX: int, deltaZ: int)
    ensures var (x, z) := Anchor(width, corner, studsPerPlate, margin, center, deltaX, deltaZ);
      var (x0, z0) := Anchor(width, corner, studsPerPlate, margin, center, 0, 0);
      x - x0 == deltaX as real && z - z0 == deltaZ as real
    ensures !center ==> Anchor(width, corner, studsPerPlate, margin, false, 0, 0)
                        == ((corner.0 + margin) as real, (corner.1 + margin) as real)
  {
  }

  /** Rows are counted from the top: row 0 is the baseplate the grid builder puts last
      (grid row gridRows - 1, the largest z), and each row further down is one baseplate
      nearer the origin. The corner is that baseplate's position in the grid, in studs. */
  lemma CornerIsGridBaseplate(ctx: SceneContext, color: int, plateRow: int, plateCol: int, gridRows: int)
    ensures var (x, z) := PlateCorner(plateRow, plateCol, gridRows, Baseplate.BASEPLATE_STUDS);
      var b := Baseplate.BaseplateAt(ctx, color, 0.0, 0.0, gridRows - 1 - plateRow, plateCol);
      b.pos.x == ctx.Studs(x as real) && b.pos.z == ctx.Studs(z as real)
    ensures PlateCorner(plateRow + 1, plateCol, gridRows, Baseplate.BASEPLATE_STUDS).1
         == PlateCorner(plateRow, plateCol, gridRows, Baseplate.BASEPLATE_STUDS).1 - Baseplate.BASEPLATE_STUDS
    ensures PlateCorner(0, plateCol, gridRows, Baseplate.BASEPLATE_STUDS).1 == (gridRows - 1) * Baseplate.BASEPLATE_STUDS
  {
  }

  /** An unsupported character gives no placement at all, and a supported text's placement
      records the measured width. */
  lemma PlacementWidth(font: Letters, text: string, plateRow: int, plateCol: int, gridRows: int,
                       studsPerPlate: int, margin: int, center: bool, spacing: int, deltaX: int, deltaZ: int)
    requires HasRows(font)
    ensures var res := TextOnBaseplate(font, text, plateRow, plateCol, gridRows, studsPerPlate, margin, center, spacing, deltaX, deltaZ);
      var m := MeasuredWidth(font, text, spacing);
      (res.Err? <==> m.Err?) && (res.Err? ==> res.error == m.error) && (res.Ok? ==> res.value.width == m.value)
  {
  }
}
