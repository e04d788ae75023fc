# LDraw group-scene generator, modelled in Dafny

The modelled program writes an LDraw scene for BrickLink Studio:

- a grid of 32 x 32 baseplates (`3811.dat`);
- up to ten numbered groups, one per baseplate, laid out row by row. Each group has:
  - its number drawn as 1 x 1 plates (`3024.dat`) from a 5 x 7 pixel font;
  - ten minifigs copied from a template exported by Studio, on a 4 x 3 grid around the number;
  - a one-stud frame of 1 x N plates around the whole group;
- two lines of text, "SOPHIE" and "LAURENT", centred on the two leftmost baseplates of the top row, each placed by `build_text_on_baseplate` (`TextLayout` models one such call).

A bill-of-materials reader parses the emitted lines back. It counts parts per section and sorts each part id into a strict category.

The model covers these pieces of the program:

| Module | Models |
|---|---|
| `Context` | stud to LDraw-unit (LDU) scaling, the two reference Y planes and the grid centre |
| `LDraw`, `Text`, `Numbers` | the type-1 line record; the parts of Python's `strip`, `split`, `replace`, `int`, `float`, `str` and `round` the program relies on |
| `Loader`, `Template`, `Minifig` | the template loaders, the in-place normaliser of `template.py` (a class whose fields are overwritten), and the minifig placer with its fixed rotation about Y |
| `Digits` | the digit font, the text bitmap and the centred 1 x 1 plates |
| `Catalog`, `Plate`, `Brick`, `Tile` | the part catalogues, their size lookups and the plate builders |
| `Baseplate`, `Frame`, `Group`, `Groups`, `TextLayout` | the scene builders of `baseplate.py` and `main.py` |
| `Bom` | `classify_part` and `generate_bom_from_lines` |

Each model follows the form of its source:

- Loops become methods with loop invariants. Each is proved equal to a specification function (`ensures r == ...`).
- The program's promises are proved as lemmas about those functions.
- Python exceptions become `Err` values of one `Error` datatype.
- Floats are exact reals.
- Output lines are `Type1` records rather than formatted text. `LDraw.ParseFormatType1` relates the two.

## Model

| member | source | states |
|---|---|---|
| Context.SceneContext.Studs | context.py:36-39 | the conversion to LDU is exact: dividing by STUD = 20 gives the stud count back |
| Context.SceneContext.BaseplateOriginY | context.py:41-51 | the baseplate centre is one baseplate thickness (8 LDU) from the plane plates sit on, and the two planes lie symmetrically about ground_y |
| Context.StudsLinear | context.py:36-39 | studs() is additive: sums and differences of stud positions convert term by term |
| Context.GridCenterInStuds | context.py:54-71 | the grid centre is equidistant from the centres of the first and last baseplate along each axis |
| Context.GridCenterThreeColumns | context.py:66 | with three 32-stud columns the centre is at 32 |
| LDraw.FromFields | minifig.py:53-63 | the record built from a colour, twelve numbers in line order and a part id holds exactly those fields |
| LDraw.ParseNumbers | minifig.py:56-59 | float() over the twelve numeric tokens: as many numbers as tokens, or a BadNumber error |
| LDraw.ParseNumbersOk | minifig.py:56-59 | when every token reads as a number, the result is those numbers in order |
| LDraw.ParseNumbersValues | minifig.py:56-59 | a successful result holds, at each index, the value of that token |
| LDraw.ParseNumbersFirstBad | minifig.py:56-59 | the parse fails exactly when some token is not a number, and then it names the first such token |
| LDraw.ParseType1 | minifig.py:48-63 | parse: a parsed record's part id is one whitespace-free token, and a failure is either "not a type-1 line" or a bad number |
| LDraw.RecordOfTokens | minifig.py:49-63 | fewer than 15 tokens or a first token other than "1" is rejected; otherwise the record is the colour, the twelve numbers and token 14 |
| LDraw.ShowIntIsWord | minifig.py:40-45 | a printed colour is one split() token |
| LDraw.FormatNumberIsWord | minifig.py:40-45 | a printed float is one split() token |
| LDraw.LineTokensAreWords | minifig.py:40-45 | a serialised record is 15 tokens, each free of whitespace |
| LDraw.FormatType1 | minifig.py:40-45 | to_line: when the part id is one token, strip() and split() of the line give back "1", the colour, the twelve numbers and the part id |
| LDraw.ParseFormattedNumbers | minifig.py:40-45 | the twelve printed numbers read back as the record's numbers |
| LDraw.ParseFormatType1 | minifig.py:40-63 | parse(to_line(p)) == p for every record whose numbers print exactly |
| Text.StripLeft | minifig.py:49 | drops exactly the leading whitespace |
| Text.StripRight | minifig.py:49 | drops exactly the trailing whitespace |
| Text.Strip | minifig.py:49 | the result has no whitespace at either end, and it is empty exactly when the input is all whitespace |
| Text.StripUnchanged | minifig.py:49 | a string with no whitespace at either end is left as it is |
| Text.WordLength | minifig.py:49 | the first word is non-empty, free of whitespace, and followed by whitespace or the end |
| Text.Tokens | minifig.py:49 | every split() token is non-empty and free of whitespace |
| Text.TokensAfterWord | minifig.py:49 | a leading word is the first token |
| Text.TokensOfJoin | minifig.py:40-45 | splitting words joined by single spaces gives the words back |
| Text.JoinWordsEnds | minifig.py:40-45 | a space-joined line starts with its first word and ends with its last, so strip() leaves it alone |
| Text.RemoveAll | plate.py:30 | replace(pat, "") never lengthens the string |
| Text.RemoveAllSuffix | plate.py:30-34 | removing ".dat" from a dot-free number, with or without the suffix, gives the number |
| Numbers.AllDigitsAt | minifig.py:53 | a string is all digits exactly when each character is a digit |
| Numbers.NatToDigits | minifig.py:40-45 | str(n) of a natural number is digits whose value is n, with no leading zero |
| Numbers.PadDigits | minifig.py:40-45 | zero-padding to k digits keeps the value |
| Numbers.TrimZerosValue | minifig.py:40-45 | dropping the fraction's trailing zeros keeps its value |
| Numbers.ParseShowInt | minifig.py:53 | int(str(n)) == n for every integer |
| Numbers.DotIndexAfterDigits | minifig.py:56-59 | in a decimal literal the first '.' ends the integer digits |
| Numbers.ParseMagnitudeDecimal | minifig.py:56-59 | digits '.' digits reads as integer part plus fraction |
| Numbers.ParseNumberSigned | minifig.py:56-59 | a leading '-' negates the literal's value |
| Numbers.ParseFormatMagnitude | minifig.py:40-45 | a printed non-negative number reads back as itself |
| Numbers.FormatMagnitudeUnsigned | minifig.py:40-45 | a printed magnitude starts with a digit |
| Numbers.ParseFormatNumber | minifig.py:40-63 | float(str(x)) == x for every x with at most six fractional digits |
| Numbers.IntegralIsSixDecimal | template.py:104-106 | every whole number (a rounded coordinate) prints exactly |
| Numbers.RoundHalfEven | template.py:104-106 | round(v) is within 1/2 of v, and on a tie it is even |
| Numbers.RoundHalfEvenUnique | template.py:104-106 | those two properties determine round(v) |
| Numbers.RoundOfInteger | template.py:104-106 | round() leaves whole numbers unchanged |
| Numbers.SumShift | template.py:97-98 | shifting every element by t shifts the sum by len * t |
| Numbers.MeanShift | template.py:97-98 | shifting every element by t shifts the mean by t |
| Loader.LoadType1Lines | template.py:59-67 | the load loop returns LoadRecords: the parsed record lines in order, the first parse error, or NoType1Lines when there are none |
| Loader.LoadLinesStep | template.py:60-64 | each line is skipped (blank, a "0" comment, or not "1 ") or parsed and appended |
| Loader.LoadLinesErrPersists | minifig.py:77 | a parse error aborts the load: once a prefix fails, the whole source fails with that error |
| Loader.RecordLines | minifig.py:72-76 | the lines that are parsed all start with "1 " |
| Loader.RecordLinesMember | minifig.py:72-77 | every record line of the source, stripped, is among them |
| Loader.Collect | minifig.py:76-77 | the records, when every parse succeeds; otherwise the first error |
| Loader.LoadLinesIsFilterThenParse | minifig.py:72-77 | loading is filtering the record lines and then parsing each one |
| Loader.LoadRecordsEmpty | minifig.py:78-79 | the load fails with NoType1Lines exactly when the source has no record line |
| Loader.LoadRecordsShortLine | minifig.py:50-51 | one record line with fewer than 15 tokens makes the whole load fail |
| Template.Part.constructor | template.py:7-21 | the new record holds exactly the fields given |
| Template.Part.ToLine | template.py:23-28 | parse() of the line gives the record back when its numbers print exactly |
| Template.Part.Normalize | template.py:101-127 | one loop iteration: the record becomes NormalizeRecord of its old contents |
| Template.Part.SetPosition | template.py:104-106 | the position is overwritten and nothing else changes |
| Template.Part.SetOrientation | template.py:119-127 | the nine matrix fields are overwritten, and the position, colour and part id stay |
| Template.Values | template.py:54-68 | the contents of the record list, in order |
| Template.DistinctPairs | template.py:58-64 | a list of distinct records holds no object at two positions |
| Template.LoadTemplate | template.py:54-68 | fails exactly when the loader does, with its error; otherwise it returns one newly allocated, distinct record per record line, with the loader's contents |
| Template.NewParts | template.py:64 | one freshly allocated record per parsed line, in order |
| Template.Clean | template.py:109-116 | clean() returns v itself, or -1, 0 or 1 less than epsilon away from v |
| Template.CleanKeepsFar | template.py:109-116 | a value at least epsilon away from 0, 1 and -1 is kept |
| Template.CleanSnaps | template.py:109-116 | for epsilon up to 1/2, a value within epsilon of 0, 1 or -1 snaps to it |
| Template.CleanIdempotent | template.py:109-116 | cleaning twice is cleaning once, for epsilon up to 1 |
| Template.CleanNotIdempotentAboveOne | template.py:109-116 | above 1 it is not: with epsilon 3/2, 12/5 goes to 1 and then 1 goes to 0 |
| Template.Xs | template.py:97 | the x coordinates of the records, in order |
| Template.Zs | template.py:98 | the z coordinates of the records, in order |
| Template.NormalizeInPlace | template.py:71-127 | the records hold Normalized(old contents): unchanged when empty, otherwise each one recentred on the old centroid, rounded and cleaned |
| Template.NormalizeEach | template.py:101-127 | every record is normalised against the same centroid (computed before the loop) |
| Template.NormalizedFields | template.py:101-106 | the colour and part id are kept; x, y and z become whole numbers within 1/2 of x - cx, y and z - cz |
| Template.NormalizedMatrix | template.py:108-127 | each of the nine matrix entries is kept, or lies within epsilon of -1, 0 or 1 and becomes exactly that value |
| Template.NormalizeRecordShift | template.py:104-106 | shifting a record and the centroid together leaves the normalised record unchanged |
| Template.ShiftedCentroid | template.py:97-98 | shifting every record shifts the centroid by the same amount |
| Template.NormalizedTranslationInvariant | template.py:96-106 | the normal form of a template does not depend on where it was placed in X/Z |
| Template.NormalizedCentroidNearOrigin | template.py:96-106 | after normalisation the X/Z centroid is within 1/2 LDU of the origin |
| Minifig.LoadMinifigTemplate | minifig.py:66-80 | the same load as load_template, so a returned template is never empty |
| Minifig.BuildMinifig | minifig.py:83-141 | returns Placed: an empty template fails (the centroid divides by zero); otherwise one record per part |
| Minifig.Transform | minifig.py:96-108 | each part paired with its position relative to the X/Z centroid, turned by R |
| Minifig.Reconstruct | minifig.py:115-139 | each part moved by the offset, with orientation R * M |
| Minifig.PlacedShape | minifig.py:83-141 | succeeds exactly for a non-empty template; output k keeps part k's colour and part id |
| Minifig.PlacedPosition | minifig.py:93-122 | part k ends at (-(z - cz) + 20 * stud_x, y + baseplate_origin_y - 30, (x - cx) + 20 * stud_z) |
| Minifig.PlacedMatrix | minifig.py:124-132 | part k's orientation is R * M, the rows (-g, -h, -i), (d, e, f), (a, b, c) |
| Minifig.ApplyR | minifig.py:90-91 | R maps (x, y, z) to (-z, y, x) |
| Minifig.RIsRotation | minifig.py:90-91 | R is a proper rotation: its transpose inverts it, it keeps lengths, and det R = 1 |
| Minifig.RTurnsAboutY | minifig.py:90-91 | R is the quarter turn about Y: +X goes to +Z, Y is fixed, +Z goes to -X |
| Minifig.RFourTurns | minifig.py:90-91 | two turns are a half turn, and four are the identity |
| Minifig.PlacedIsRigidMotion | minifig.py:99-132 | every point of every placed part is the image of its template point under one motion |
| Minifig.MotionKeepsDistances | minifig.py:100-122 | that motion preserves distances |
| Minifig.PlacedKeepsDistances | minifig.py:99-132 | the placed minifig keeps its shape: distances between points of any two parts are unchanged |
| Minifig.PlacedTranslationInvariant | minifig.py:86-88 | shifting the template in X/Z does not change the placed minifig |
| Digits.DigitsWellFormed | digits.py:30-122 | every glyph is 7 rows of 5 pixels, each '#' or '.' |
| Digits.DigitsKeys | digits.py:30-122 | the table holds exactly the ten decimal digits |
| Digits.FirstUnsupported | digits.py:131-133 | the first character without a glyph, if there is one |
| Digits.Dots | digits.py:144 | "." * gap: max(gap, 0) dots |
| Digits.Rendered | digits.py:125-146 | a successful render has seven rows |
| Digits.RowSnoc | digits.py:138-144 | each glyph extends every row by the separator and that glyph's row |
| Digits.RenderText | digits.py:125-146 | the validation and append loops compute Rendered |
| Digits.GlyphAppended | digits.py:138-141 | appending glyph i to each row gives the rows of the first i + 1 characters |
| Digits.CheckSupported | digits.py:131-133 | the validation loop finds the first unsupported character |
| Digits.AppendToRows | digits.py:140-141 | rows[r] += extra[r] for each of the seven rows |
| Digits.FirstUnsupportedAt | digits.py:131-133 | the character reported is the first without a glyph |
| Digits.RenderText5x7 | digits.py:125-146 | render_text_5x7 with the digit table computes Rendered |
| Digits.RowWidth | digits.py:138-146 | every row is 5n + max(gap, 0) * (n - 1) columns wide |
| Digits.RowGlyphColumns | digits.py:138-141 | the columns of glyph i in row r are row r of that glyph |
| Digits.RowGapColumns | digits.py:142-144 | the gap columns between glyphs are '.'; none follow the last glyph |
| Digits.RenderedErrors | digits.py:128-133 | fails with EmptyText exactly on "", and otherwise exactly when a character has no glyph, naming the first |
| Digits.RenderedShape | digits.py:135-146 | a success has 7 rows of equal width 5n + gap(n - 1), and every character is a pixel |
| Digits.RowPixels | digits.py:138-144 | every character of a row is '#' or '.' |
| Digits.RenderTwelve | digits.py:125-146 | "12" with gap 1 renders 11 columns wide |
| Digits.RowCells | digits.py:173-175 | every cell listed is a '#' of that row |
| Digits.Cells | digits.py:172-175 | every cell listed is a '#' of the bitmap |
| Digits.Plates | digits.py:177-189 | one plate per cell, in the cells' order |
| Digits.RowCellsSnoc | digits.py:173-175 | one more column adds its cell exactly when it is '#' |
| Digits.PlatesSnoc | digits.py:185-189 | one more cell adds its plate at the end |
| Digits.PlatesAppend | digits.py:172-189 | the plates of two runs of cells are the plates of each, in order |
| Digits.BuildCentered | digits.py:149-191 | build_centered_digit over a glyph table computes CenteredPlates |
| Digits.PlaceBitmap | digits.py:158-191 | the origin from the bitmap's size, then the plates of its lit pixels |
| Digits.PlaceCells | digits.py:172-189 | the row loop places the plates of all lit cells, row by row |
| Digits.PlaceRow | digits.py:173-189 | the column loop places one plate per '#' of the row, left to right |
| Digits.BuildCenteredDigit | digits.py:149-191 | build_centered_digit with the digit table computes CenteredPlates |
| Digits.RowCellsComplete | digits.py:173-175 | every '#' of a row is a cell |
| Digits.RowCellsOrdered | digits.py:173 | a row's cells come left to right, each once |
| Digits.CellsExact | digits.py:172-175 | a cell is listed exactly when its pixel is '#', so there is one plate per lit pixel and no other |
| Digits.CellsOrdered | digits.py:172-173 | the cells come in row-major order, each once |
| Digits.CenteredPlateAt | digits.py:162-189 | plate k is a 1 x 1 plate on the baseplate top at stud (origin_x + col, origin_z + 6 - row) of the k-th lit pixel, so the bitmap is flipped vertically |
| Digits.OneDigitWidth | digits.py:158-180 | one digit renders 5 pixels wide, and every plate of its centred number lies within 2 studs of the centre across and 3 studs along |
| Catalog.LookupFromFinds | plate.py:32-37 | the scan from index i returns the size of the first matching cell at or after i, and None exactly when none matches |
| Catalog.LookupFinds | plate.py:30-37 | the lookup returns the first matching cell's size, and None exactly when no reference matches with ".dat" removed |
| Catalog.GetFromFinds | plate.py:44 | PLATES[w][l] from index i is a reference of a cell of that size; missing exactly when there is none |
| Catalog.GetFinds | plate.py:44 | PLATES[w][l] is the reference of a cell of that size; missing (KeyError) exactly when there is none |
| Catalog.KeyOfRef | plate.py:30-34 | removing ".dat" from a dot-free number, or from its reference, gives the number |
| Catalog.FindSizeOfRef | plate.py:24-37 | in a well-formed catalogue every cell is found at its own size, by reference or by number |
| Catalog.FindSizeOfNumber | plate.py:30-37 | a number is found the same with or without ".dat", and is missing exactly when no cell holds it |
| Catalog.FindSizeFound | plate.py:24-37 | a cell's number, with or without ".dat", is found at that cell's size |
| Catalog.FindSizeMissing | plate.py:37 | a number no cell holds is not found |
| Catalog.FindSizeBounded | plate.py:24-37 | any size found lies within the width and length bounds every cell keeps |
| Catalog.FindSizeIsCell | brick.py:20-33 | any size found is the size of some cell of the table |
| Catalog.GetThenFindSize | plate.py:24-44 | a reference handed out by size is recognised at that size |
| Plate.PlatesWellFormed | plate.py:1-21 | no plate number holds '.', and no two cells share one |
| Plate.PlateNumbersDotFree | plate.py:1-21 | no plate number holds '.' |
| Plate.PlateNumbersDistinct | plate.py:1-21 | no two cells share a plate number |
| Plate.GetPlateSizeOfRef | plate.py:24-37 | get_plate_size finds every catalogue plate at its size, with or without ".dat" |
| Plate.PlateCellSizes | plate.py:1-21 | every plate is 1 or 2 studs wide and 1 to 12 long |
| Plate.GetPlateSize | plate.py:24-37 | get_plate_size: every size it returns is 1 or 2 studs wide and 1 to 12 studs long |
| Plate.GetPlateSize1x1 | plate.py:3 | "3024.dat" and "3024" are the 1 x 1 plate |
| Plate.GetPlateSize2x4 | plate.py:15 | "3020.dat" is the 2 x 4 plate |
| Plate.GetPlateSizeOfBrick | plate.py:24-37 | the brick "3001.dat" is not a plate |
| Plate.PlateLengths | plate.py:2-11 | PLATES[1] holds exactly the lengths 1, 2, 3, 4, 6, 8, 10 and 12 |
| Plate.BuildPlate | plate.py:40-46 | build_plate succeeds exactly for the lengths PLATES[1] holds, and reports any other length as UnknownLength (the KeyError) |
| Plate.BuildPlateRotated | plate.py:49-56 | build_plate_rotated succeeds and fails for the same lengths as build_plate |
| Plate.BuildPlatePlaced | plate.py:40-56 | a built plate is at (studs(x), top plane, studs(z)), unrotated or turned by ROT_Y, and get_plate_size reads it as 1 x length |
| Plate.RotYIsQuarterTurn | plate.py:55-56 | ROT_Y is a proper quarter turn about Y that takes the plate's length axis X onto -Z |
| Brick.BricksWellFormed | brick.py:1-17 | no brick number holds '.', and no two cells share one |
| Brick.BrickNumbersDotFree | brick.py:1-17 | no brick number holds '.' |
| Brick.BrickNumbersDistinct | brick.py:1-17 | no two cells share a brick number |
| Brick.GetBrickSizeOfRef | brick.py:20-33 | get_brick_size finds every catalogue brick at its size, with or without ".dat" |
| Brick.BrickCellSizes | brick.py:1-17 | every brick is 1 wide in lengths 1, 2, 3, 4, 6, 8 or 2 wide in lengths 2, 3, 4, 6, 8 |
| Brick.GetBrickSize | brick.py:20-33 | get_brick_size: every size it returns is one of the catalogue's sizes (1 x 1, 2, 3, 4, 6, 8 or 2 x 2, 3, 4, 6, 8) |
| Brick.GetBrickSize2x4 | brick.py:20-33 | "3001.dat" and "3001" are the 2 x 4 brick |
| Brick.GetBrickSizeOfPlate | brick.py:20-33 | the plate "3024.dat" is not a brick |
| Tile.TilesWellFormed | tile.py:1-16 | no tile number holds '.', and no two cells share one |
| Tile.TileNumbersDotFree | tile.py:1-16 | no tile number holds '.' |
| Tile.TileNumbersDistinct | tile.py:1-16 | no two cells share a tile number |
| Tile.GetTileSizeOfRef | tile.py:19-27 | get_tile_size finds every catalogue tile at its size, with or without ".dat" |
| Tile.TileCellSizes | tile.py:1-16 | every tile is 1 wide in lengths 1, 2, 3, 4, 6, 8 or 2 wide in lengths 2, 3, 4, 6 |
| Tile.GetTileSize | tile.py:19-27 | get_tile_size: every size it returns is one of the catalogue's sizes (1 x 1, 2, 3, 4, 6, 8 or 2 x 2, 3, 4, 6) |
| Tile.GetTileSize1x4 | tile.py:19-27 | "2431b.dat" and "2431b" are the 1 x 4 tile |
| Tile.GetTileSizeNeedsVariant | tile.py:19-27 | the match is exact: "2431.dat" is not a tile |
| Baseplate.GridRow | baseplate.py:9-16 | a row holds cols baseplates (none when cols <= 0) |
| Baseplate.BuildBaseplateGrid | baseplate.py:4-17 | the two loops compute Grid, rows of baseplates one after another |
| Baseplate.GridRowAt | baseplate.py:9-16 | cell c of a row is the baseplate of that row and column |
| Baseplate.GridLength | baseplate.py:4-17 | the grid holds rows * cols baseplates (none if either is not positive) |
| Baseplate.GridAt | baseplate.py:4-17 | the grid is row-major: line r * cols + c is the baseplate at row r, column c |
| Baseplate.BaseplatesAbut | baseplate.py:10-15 | neighbouring baseplates are exactly 32 studs (640 LDU) apart in X and Z, so they tile without gaps or overlap; each is centred 8 LDU below the top plane |
| Frame.Runs | main.py:51-72 | a run has one bar per segment length |
| Frame.FrameBarsAreRuns | main.py:51-72 | the twelve bars are the four edges' segments laid end to end from each edge's first cell |
| Frame.SegmentTotals | main.py:49-64 | the segments add up to the width (32) and to the depth less the two corners (28) |
| Frame.FrameCoversPerimeter | main.py:22-74 | every cell of the 32 x 30 outline is covered by some bar |
| Frame.FrameWithinPerimeter | main.py:22-74 | every cell a bar covers is on the outline |
| Frame.FrameBarsDisjoint | main.py:30-32 | no cell is covered twice: the horizontal bars take the corners and the vertical bars skip them |
| Frame.FrameBarAt | main.py:51-72 | bar s of edge e starts where the earlier segments of that edge end |
| Frame.FrameCentred | main.py:42-46 | the outline's first and last column (and row) lie symmetrically about the centre |
| Frame.FramePlateAt | main.py:51-72 | each bar's plate is built, lies on the top plane centred on the bar, is turned a quarter about Y exactly for the six vertical bars, and reads back as a 1 x length plate |
| Frame.FramePlates | main.py:22-74 | one plate per bar |
| Frame.BuildGroupFrame | main.py:22-74 | build_group_frame computes FramePlates, the twelve bar plates in emission order |
| Frame.HorizontalEdges | main.py:51-59 | the bottom and top edges' six plates are bars 0 to 5 |
| Frame.VerticalEdges | main.py:64-72 | the left and right edges' six plates are bars 6 to 11 |
| Group.SpotCellAt | main.py:97-102 | the cells visited (all but the two skipped) are the spot cells, in order |
| Group.SpotsBeforeStep | main.py:97-102 | a visited cell adds one minifig and a skipped cell adds none |
| Group.FiguresStep | main.py:104-118 | placing the minifig of a visited cell extends the figures by that cell's minifig |
| Group.SpotOffsets | main.py:97-106 | minifigs stand at x in {-12, -4, 4, 12} and z in {-8, 0, 8} studs from the centre, except (-4, 0) and (4, 0), and each spot is used |
| Group.SpotsApartAndSymmetric | main.py:92-106 | distinct minifigs are at least 8 studs apart in X or Z, and the layout is symmetric about the centre |
| Group.FiguresSnoc | main.py:111-118 | each minifig adds one copy of the template's parts |
| Group.FiguresLength | main.py:97-118 | n minifigs are n * len(template) parts |
| Group.GroupShape | main.py:77-122 | fails exactly when the number does not render (reported first) or the template is empty; otherwise number, 10 * len(template) minifig parts and 12 frame plates |
| Group.BuildGroup | main.py:77-122 | build_group computes Group: the number, then the minifigs, then the frame in colour 15 |
| Group.PlaceFigures | main.py:97-118 | the nested loop gives EmptyAssembly for an empty template, otherwise the ten minifigs in order |
| Groups.GroupsSoFarSnoc | main.py:142-158 | the group built at the next slot's centre, with the next number, is that slot's group |
| Groups.ConcatSnoc | main.py:149-158 | extending the lines by one group keeps an earlier error, and otherwise appends that group's parts or stops at its error |
| Groups.ConcatPrefixError | main.py:149-158 | once a group fails, the whole grid fails with that error |
| Groups.GroupsGridOfResults | main.py:125-165 | when every slot's group is built, the lines are their concatenation |
| Groups.GroupsGridError | main.py:125-165 | when a group fails, the grid fails with its error |
| Groups.SlotOfCell | main.py:132-133 | slot r * cols + c is row r, column c |
| Groups.SlotCellRowMajor | main.py:132-133 | slot k is at row k / cols, column k % cols |
| Groups.CellOfSlot | main.py:132-160 | while fewer than ten groups are placed, the cell the loop reaches is the next slot |
| Groups.SlotCountClosed | main.py:132-163 | a cols x rows grid takes min(cols * rows, 10) groups |
| Groups.SlotCountMonotone | main.py:132-163 | more rows never mean fewer groups |
| Groups.RowDone | main.py:135-136 | after a full row, or after the tenth group, the loop's count is the slot count after that row |
| Groups.BuildGroupsGrid | main.py:125-165 | build_groups_grid computes GroupsGrid: groups "1", "2", ... at their slots' centres, at most ten, stopping at the first failure |
| Groups.BuildGroupsRow | main.py:133-160 | the inner loop extends the groups built so far to those of one more row (capped at ten), or stops at a failing group; never more groups than r + 1 full rows hold |
| Groups.BuildSlot | main.py:135-158 | the loop body at row r, column c builds the group of the next slot (number and centre of slot SlotCount(r) + c), which still fits in the grid |
| Groups.SlotStep | main.py:139-147 | the next slot's centre is (c * 32, (rows - 2 - r) * 32), or column cols // 2 for group 10 |
| Groups.LabelRenders | main.py:153 | str(n) of a non-negative n is all digits, so every label renders |
| Groups.GroupAtShape | main.py:149-158 | every group on the grid succeeds exactly when the template is not empty |
| Groups.ConcatOk | main.py:149-158 | the lines succeed exactly when every group does |
| Groups.GroupsGridShape | main.py:125-165 | the grid fails only for an empty template when it has room for a group, and then with EmptyAssembly |
| Groups.SlotCellsDistinct | main.py:132-133 | different slots are different cells |
| Groups.SlotCentresCoincide | main.py:141-147 | two groups share a centre exactly when the later is group 10 and the earlier is on the same row at column cols // 2 |
| Groups.FiveColumnsOverlap | main.py:141-144 | with five columns, group 10 is placed on group 8's spot |
| Groups.ThreeColumnsDistinct | main.py:141-147 | with three columns no two groups share a spot |
| Groups.TenthGroupCentred | main.py:142-143 | group 10 is on the grid's middle line for odd cols, and 16 studs right of it for even cols |
| TextLayout.UpperChar | main.py:200 | upper() capitalises exactly the ASCII lower-case letters |
| TextLayout.Upper | main.py:200 | upper() keeps the length and maps each character |
| TextLayout.MeasureText | main.py:199-204 | the width loop computes MeasuredWidth |
| TextLayout.MeasureErrors | main.py:200-202 | measuring fails exactly when some upper-cased character has no glyph, and names the first |
| TextLayout.AdvanceAppend | main.py:199-204 | the widths of two runs of glyphs add up |
| TextLayout.UpperAppend | main.py:200 | upper() distributes over concatenation |
| TextLayout.MeasureConcat | main.py:199-204 | the width of a concatenation is the two widths plus one spacing |
| TextLayout.AdvanceUniform | main.py:199-204 | n glyphs of equal width w advance n * (w + spacing) |
| TextLayout.MeasureUniform | main.py:199-204 | n glyphs of equal width measure n * w + (n - 1) * spacing |
| TextLayout.MeasureMatchesBitmap | main.py:199-204 | for a 5 x 7 glyph table the measured width equals the width of the bitmap that the glyphs render to |
| TextLayout.BuildTextOnBaseplate | main.py:168-225 | computes TextOnBaseplate: the measured width and the start position handed to the glyph placer |
| TextLayout.CentredIsBalanced | main.py:208-210 | centred text leaves equal room on both sides of the baseplate, in X for its width and in Z for its height of 7 |
| TextLayout.AnchorOffsets | main.py:211-216 | uncentred text starts margin studs in from the corner, and the deltas shift either start by exactly themselves |
| TextLayout.CornerIsGridBaseplate | main.py:192-196 | rows count from the top: the corner is the grid baseplate in row grid_rows - 1 - plate_row |
| TextLayout.PlacementWidth | main.py:199-218 | an unsupported character gives no placement; otherwise the placement records the measured width |
| Bom.HeadPrefix | bom.py:29 | startswith("3626") tests the first four characters |
| Bom.FirstRule | bom.py:18-89 | the first rule that accepts the part, or none |
| Bom.ClassifyPart | bom.py:12-89 | a part is classified exactly when some rule accepts it (with ".dat" removed), by the first such rule; otherwise UnknownPart naming the id as given |
| Bom.ClassifiedMatches | bom.py:12-89 | a classified part is accepted by its category's rule |
| Bom.FirstMatchClassifies | bom.py:12-89 | the first rule that accepts a part decides its category |
| Bom.InCatalogNumbers | bom.py:56-78 | the catalogue loops find a part exactly when it is one of the part numbers |
| Bom.BricksUnclaimed | bom.py:23-59 | no brick number is claimed by a baseplate or minifig rule |
| Bom.TilesUnclaimed | bom.py:23-67 | no tile number is claimed by a baseplate or minifig rule |
| Bom.PlatesUnclaimed | bom.py:23-78 | no plate number is claimed by a baseplate or minifig rule |
| Bom.TilesNotBricks | bom.py:56-67 | no part number is both a tile and a brick |
| Bom.PlatesNotBricks | bom.py:56-78 | no part number is both a plate and a brick |
| Bom.PlatesNotTiles | bom.py:64-78 | no part number is both a plate and a tile |
| Bom.BrickRulesBefore | bom.py:23-59 | no rule before BRICKS accepts a brick |
| Bom.TileRulesBefore | bom.py:23-67 | no rule before TILES accepts a tile |
| Bom.PlateRulesBefore | bom.py:23-73 | no rule before PLATE_1x1 accepts a plate |
| Bom.BricksAreBrickSized | bom.py:56-59 | a part is classified BRICKS exactly when get_brick_size finds it |
| Bom.TilesAreTileSized | bom.py:64-67 | a part is classified TILES exactly when get_tile_size finds it |
| Bom.PlateOneByOneCatalogued | bom.py:72-78 | 3024 is in the plate table |
| Bom.PlatesArePlateSized | bom.py:72-78 | a part is PLATES exactly when get_plate_size finds it and it is not 3024, and PLATE_1x1 exactly when it is 3024 |
| Bom.NotCatalogued | bom.py:56-78 | a number held by no cell is accepted by none of the catalogue rules |
| Bom.Classify3024 | bom.py:72-73 | "3024.dat" is PLATE_1x1, although it is in the plate table as 1 x 1 |
| Bom.RejectsUnknown | bom.py:23-89 | no rule accepts 4070, and only the last accepts 2431 |
| Bom.Classify2431 | bom.py:64-84 | "2431" is PLATES_MODIFIED, while "2431b.dat" is the 1 x 4 tile |
| Bom.ClassifyBaseplate | bom.py:23-24 | "3811.dat" is PLATE_32x32 |
| Bom.ClassifyHead | bom.py:29-30 | every 3626 variant is MINIFIG_HEAD, with or without ".dat" |
| Bom.ClassifyBrick | bom.py:56-59 | "3001.dat" is BRICKS |
| Bom.ClassifyUnknown | bom.py:89 | an unknown part is an error: there is no fallback category |
| Bom.Bump | bom.py:117 | d[key] += 1: that count goes up by one, the others stay, the total grows by one, and a new key goes last |
| Bom.BumpValid | bom.py:117 | counting keeps every key once with a positive count |
| Bom.BumpBom | bom.py:117 | bom[section][key] += 1 changes only that count, and a new section goes last |
| Bom.BumpBomValid | bom.py:117 | counting keeps every section once, each non-empty and valid |
| Bom.MarkerIsNotPart | bom.py:107-111 | no line is both a section marker and a part line |
| Bom.GenerateBomFromLines | bom.py:92-120 | the loop computes GenerateBom, reading the lines from section UNDEFINED |
| Bom.ReaderSection | bom.py:101-109 | the current section is the one named by the last marker before the line, or UNDEFINED |
| Bom.StepCounts | bom.py:105-117 | a line adds one to bom[s][p] exactly when it is a part line of p read in section s |
| Bom.BomCounts | bom.py:92-120 | bom[s][p] is the number of part lines with last token p under the last marker naming s |
| Bom.BomTotal | bom.py:92-120 | the counts add up to the number of part lines: each is counted once, and markers and other lines are not counted |
| Bom.BomValid | bom.py:92-120 | the BOM lists no section or part twice and holds no zero count |

## Left out

- File reading and writing, `main()` (main.py:228 on) and the command line: the loaders take the file's lines as a `seq<string>`.
- `print_bom` and `print_global_summary` (bom.py:127 on) only print the counts, and printing is not modelled. The counts they print are `GenerateBom`, which is modelled.
- `text.py` is not part of this model. Its letter table `LETTERS_5x7` is a parameter of `TextLayout`, required only to give every glyph a row 0. `build_text_from_top_left` is not modelled. `TextLayout.BuildTextOnBaseplate` returns the width and start position that would be passed to it.
- Text output:
  - Scene lines are `Type1` records, not formatted strings.
  - The `:.6f` formatting of `build_plate` and `build_centered_digit` is not modelled. Neither is the plain `str()` of the coordinates in `build_baseplate_grid` (baseplate.py:15).
  - `to_line` (minifig.py:40-45) is modelled by `Template.Part.ToLine`, which prints every number as `str()` of a float (`Numbers.FormatNumber`), and only for numbers with at most six fractional digits.
  - Python int fields print without a fraction. After `normalize_template_inplace`, x, y and z are ints (from `round()`, template.py:104-106), and so is every matrix entry `clean` snaps (0, 1, -1; template.py:109-116). `to_line` prints such a field as "5" or "0"; the model prints "5.0" or "0.0". Both texts read back as the same record, so `LDraw.ParseFormatType1` is unaffected, but the text itself differs for those fields.
  - The lines `build_minifig` emits (minifig.py:134-139) are `Type1` records in the model; they are not rendered as text.
- Floats are exact reals, so IEEE rounding and `1e-5`-scale noise are not modelled. `str(float)` in exponent notation is not modelled.
- `float()` accepts only plain decimal literals. Exponents, `inf` and `nan` are read as errors.
- `int()` accepts only an optional sign and digits. Underscores and surrounding whitespace are not handled, since tokens never hold whitespace.
- Python's dicts are association lists in iteration order. A catalogue cell stores its part number, and the reference is that number with ".dat" appended.
- `str.upper()` capitalises only the ASCII letters a-z.
- Exceptions are `Err` values of one error datatype:
  - `ZeroDivisionError` of an empty template is `EmptyAssembly`.
  - `KeyError` of an unknown plate length is `UnknownLength`.
  - `ValueError`s keep their own reasons.
- Template.NormalizeInPlace requires the records to be distinct objects. `load_template` guarantees this (`Template.LoadTemplate` ensures `Distinct`). A list that holds the same object twice would have it normalised twice, and that case is not modelled.
- The nine matrix assignments (template.py:119-127) are one helper call, `Template.Part.SetOrientation`, rather than nine statements.
- Two loops are split into helper methods so the proofs stay small:
  - build_minifig becomes Minifig.Transform and Minifig.Reconstruct;
  - build_group_frame becomes Frame.HorizontalEdges and Frame.VerticalEdges.
- Three nested loops are split into helper methods for the same reason:
  - build_centered_digit becomes Digits.PlaceCells and Digits.PlaceRow;
  - build_groups_grid becomes Groups.BuildGroupsRow and Groups.BuildSlot;
  - build_group's minifig loop becomes Group.PlaceFigures.
- The placement of group 10 is kept as written: on 5 columns, and on 10 to 17 columns, group 10 lands on the spot of an earlier group. The model keeps this as written, and `Groups.FiveColumnsOverlap` and `Groups.SlotCentresCoincide` state it. The program itself uses three columns, where `Groups.ThreeColumnsDistinct` shows there is no overlap.
- Section names are modelled as `replace("0 =====", "")` followed by `replace("=====", "")` and `strip()`. Which markers the scene file contains depends on `main()`, which is not modelled, so the section lemmas hold for any input lines.
