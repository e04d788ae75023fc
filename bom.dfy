/** bom.py: the strict part classifier and the section-grouped part counter that reads
    the emitted LDraw lines back. Dictionaries are association lists in insertion order,
    as Python's dicts iterate. */
module Bom {
  import opened Wrappers
  import opened Text
  import opened Catalog
  import Plate
  import Brick
  import Tile

  /** The categories classify_part returns, one per rule. */
  datatype Category =
    | Plate32x32 | MinifigHead | MinifigTorso | MinifigArms | MinifigHands | MinifigLegs
    | MinifigAccessory | Bricks | Tiles | Plate1x1 | Plates | PlatesModified

  /** The order in which classify_part tries its rules. */
  const RULES: seq<Category> :=
    [Plate32x32, MinifigHead, MinifigTorso, MinifigArms, MinifigHands, MinifigLegs,
     MinifigAccessory, Bricks, Tiles, Plate1x1, Plates, PlatesModified]

  /** The nested loop over a catalogue: some reference, ".dat" removed, equals part. */
  predicate InCatalog(t: SizeTable, part: string) {
    Lookup(t, part).Some?
  }

  /** A part id is a head print exactly when its first four characters are 3626. */
  lemma HeadPrefix(part: string)
    ensures StartsWith(part, "3626") <==> |part| >= 4 && part[0] == '3' && part[1] == '6' && part[2] == '2' && part[3] == '6'
  {
    if |part| >= 4 {
      assert part[..4][0] == part[0] && part[..4][1] == part[1] && part[..4][2] == part[2] && part[..4][3] == part[3];
    }
  }

  /** Whether the rule of category c accepts a part id with ".dat" removed. */
  predicate Matches(c: Category, part: string) {
    match c
    case Plate32x32 => part == "3811"
    case MinifigHead => StartsWith(part, "3626")
    case MinifigTorso => part == "973"
    case MinifigArms => part == "3818" || part == "3819"
    case MinifigHands => part == "3820"
    case MinifigLegs => part == "3815" || part == "3816" || part == "3817" || part == "87609"
    case MinifigAccessory => part == "88646" || part == "30414"
    case Bricks => InCatalog(Brick.BRICKS, part)
    case Tiles => InCatalog(Tile.TILES, part)
    case Plate1x1 => part == "3024"
    case Plates => InCatalog(Plate.PLATES, part)
    case PlatesModified => part == "2431"
  }

  /** The first of the rules that accepts part, if any. */
  function FirstRule(rules: seq<Category>, part: string): (r: Option<Category>)
    ensures r.None? <==> forall i :: 0 <= i < |rules| ==> !Matches(rules[i], part)
    ensures r.Some? ==>
      exists i :: 0 <= i < |rules| && rules[i] == r.value && Matches(r.value, part)
                  && forall j :: 0 <= j < i ==> !Matches(rules[j], part)
  {
    if rules == [] then None
    else if Matches(rules[0], part) then Some(rules[0])
    else
      var r := FirstRule(rules[1..], part);
      assert forall i :: 1 <= i < |rules| ==> rules[i] == rules[1..][i - 1];
      r
  }

  /** classify_part: strip ".dat", then try the rules in order and return the category of
      the first that accepts the part; when none does, fail naming the id as given. */
  function ClassifyPart(partId: string): (r: Result<Category>)
    ensures r.Ok? <==> exists i :: 0 <= i < |RULES| && Matches(RULES[i], Key(partId))
    ensures r.Ok? ==>
      exists i :: 0 <= i < |RULES| && RULES[i] == r.value && Matches(RULES[i], Key(partId))
                  && forall j :: 0 <= j < i ==> !Matches(RULES[j], Key(partId))
    ensures r.Err? ==> r == Err(UnknownPart(partId))
  {
    match FirstRule(RULES, Key(partId))
    case Some(c) => Ok(c)
    case None => Err(UnknownPart(partId))
  }

  /** A classified part is accepted by the rule of its category. */
  lemma ClassifiedMatches(partId: string)
    ensures ClassifyPart(partId).Ok? ==> Matches(ClassifyPart(partId).value, Key(partId))
  {
  }

  /** The first rule that accepts a part decides its category. */
  lemma FirstMatchClassifies(partId: string, i: nat)
    requires i < |RULES| && Matches(RULES[i], Key(partId))
    requires forall j :: 0 <= j < i ==> !Matches(RULES[j], Key(partId))
    ensures ClassifyPart(partId) == Ok(RULES[i])
  {
  }

  /** In a catalogue whose numbers hold no '.', the loop finds part exactly when part is
      one of the part numbers. */
  lemma InCatalogNumbers(t: SizeTable, part: string)
    requires Catalog.WellFormed(t)
    ensures InCatalog(t, part) <==> exists k :: 0 <= k < |t| && t[k].number == part
  {
    LookupFinds(t, part);
    forall k | 0 <= k < |t| ensures Key(Ref(t[k])) == t[k].number {
      KeyOfRef(t[k]);
    }
  }

  /** Proof helper for the *Unclaimed lemmas: the first seven rules (the baseplate and the
      minifig parts) unrolled one by one. */
  lemma EarlyRules(part: string)
    ensures (forall i :: 0 <= i < 7 ==> !Matches(RULES[i], part)) <==>
      !Matches(Plate32x32, part) && !Matches(MinifigHead, part) && !Matches(MinifigTorso, part)
      && !Matches(MinifigArms, part) && !Matches(MinifigHands, part) && !Matches(MinifigLegs, part)
      && !Matches(MinifigAccessory, part)
  {
    forall i | 0 <= i < 7
      ensures RULES[i] == Plate32x32 || RULES[i] == MinifigHead || RULES[i] == MinifigTorso || RULES[i] == MinifigArms
           || RULES[i] == MinifigHands || RULES[i] == MinifigLegs || RULES[i] == MinifigAccessory
    {
    }
    if forall i :: 0 <= i < 7 ==> !Matches(RULES[i], part) {
      assert !Matches(RULES[0], part) && !Matches(RULES[1], part) && !Matches(RULES[2], part) && !Matches(RULES[3], part);
      assert !Matches(RULES[4], part) && !Matches(RULES[5], part) && !Matches(RULES[6], part);
    }
  }

  /** The seven minifig and baseplate rules, tried before the catalogues, reject every
      catalogue number. */
  lemma BricksUnclaimed()
    ensures forall k :: 0 <= k < |Brick.BRICKS| ==> forall i :: 0 <= i < 7 ==> !Matches(RULES[i], Brick.BRICKS[k].number)
  {
    forall k | 0 <= k < |Brick.BRICKS| ensures forall i :: 0 <= i < 7 ==> !Matches(RULES[i], Brick.BRICKS[k].number) {
      var part := Brick.BRICKS[k].number;
      HeadPrefix(part);
      EarlyRules(part);
      assert !Matches(MinifigHead, part);
    }
  }

  lemma TilesUnclaimed()
    ensures forall k :: 0 <= k < |Tile.TILES| ==> forall i :: 0 <= i < 7 ==> !Matches(RULES[i], Tile.TILES[k].number)
  {
    forall k | 0 <= k < |Tile.TILES| ensures forall i :: 0 <= i < 7 ==> !Matches(RULES[i], Tile.TILES[k].number) {
      var part := Tile.TILES[k].number;
      HeadPrefix(part);
      EarlyRules(part);
      assert !Matches(MinifigHead, part);
    }
  }

  lemma PlatesUnclaimed()
    ensures forall k :: 0 <= k < |Plate.PLATES| ==> forall i :: 0 <= i < 7 ==> !Matches(RULES[i], Plate.PLATES[k].number)
  {
    forall k | 0 <= k < |Plate.PLATES| ensures forall i :: 0 <= i < 7 ==> !Matches(RULES[i], Plate.PLATES[k].number) {
      var part := Plate.PLATES[k].number;
      HeadPrefix(part);
      EarlyRules(part);
      assert !Matches(MinifigHead, part);
    }
  }

  /** No part number is in two catalogues. */
  lemma TilesNotBricks()
    ensures forall k, j :: 0 <= k < |Tile.TILES| && 0 <= j < |Brick.BRICKS| ==> Tile.TILES[k].number != Brick.BRICKS[j].number
  {
  }

  lemma PlatesNotBricks()
    ensures forall k, j :: 0 <= k < |Plate.PLATES| && 0 <= j < |Brick.BRICKS| ==> Plate.PLATES[k].number != Brick.BRICKS[j].number
  {
  }

  lemma PlatesNotTiles()
    ensures forall k, j :: 0 <= k < |Plate.PLATES| && 0 <= j < |Tile.TILES| ==> Plate.PLATES[k].number != Tile.TILES[j].number
  {
  }

  /** The brick rule is the first to accept a brick. */
  lemma BrickRulesBefore(part: string)
    requires InCatalog(Brick.BRICKS, part)
    ensures forall i :: 0 <= i < 7 ==> !Matches(RULES[i], part)
  {
    Brick.BricksWellFormed();
    InCatalogNumbers(Brick.BRICKS, part);
    BricksUnclaimed();
  }

  /** No rule before the tile rule accepts a tile. */
  lemma TileRulesBefore(part: string)
    requires InCatalog(Tile.TILES, part)
    ensures forall i :: 0 <= i < 8 ==> !Matches(RULES[i], part)
  {
    Tile.TilesWellFormed();
    Brick.BricksWellFormed();
    InCatalogNumbers(Tile.TILES, part);
    InCatalogNumbers(Brick.BRICKS, part);
    TilesUnclaimed();
    TilesNotBricks();
  }

  /** No rule before the 1 x 1 plate rule accepts a plate. */
  lemma PlateRulesBefore(part: string)
    requires InCatalog(Plate.PLATES, part)
    ensures forall i :: 0 <= i < 9 ==> !Matches(RULES[i], part)
  {
    Plate.PlatesWellFormed();
    Tile.TilesWellFormed();
    Brick.BricksWellFormed();
    InCatalogNumbers(Plate.PLATES, part);
    InCatalogNumbers(Tile.TILES, part);
    InCatalogNumbers(Brick.BRICKS, part);
    PlatesUnclaimed();
    PlatesNotBricks();
    PlatesNotTiles();
  }

  /** A part id is classified BRICKS exactly when get_brick_size finds it. */
  lemma BricksAreBrickSized(partId: string)
    ensures ClassifyPart(partId) == Ok(Bricks) <==> Brick.GetBrickSize(partId).Some?
  {
    var part := Key(partId);
    ClassifiedMatches(partId);
    if InCatalog(Brick.BRICKS, part) {
      BrickRulesBefore(part);
      FirstMatchClassifies(partId, 7);
    }
  }

  /** A part id is classified TILES exactly when get_tile_size finds it. */
  lemma TilesAreTileSized(partId: string)
    ensures ClassifyPart(partId) == Ok(Tiles) <==> Tile.GetTileSize(partId).Some?
  {
    var part := Key(partId);
    ClassifiedMatches(partId);
    if InCatalog(Tile.TILES, part) {
      TileRulesBefore(part);
      FirstMatchClassifies(partId, 8);
    }
  }

  /** The 1 x 1 plate is in the plate table. */
  lemma PlateOneByOneCatalogued()
    ensures InCatalog(Plate.PLATES, "3024")
  {
    Plate.GetPlateSize1x1();
    KeyOfRef(Plate.PLATES[0]);
  }

  /** get_plate_size finds a part id exactly when it is classified PLATES or, for the
      1 x 1 plate 3024, PLATE_1x1. */
  lemma PlatesArePlateSized(partId: string)
    ensures ClassifyPart(partId) == Ok(Plates) <==> Plate.GetPlateSize(partId).Some? && Key(partId) != "3024"
    ensures ClassifyPart(partId) == Ok(Plate1x1) <==> Key(partId) == "3024"
  {
    var part := Key(partId);
    if part == "3024" {
      PlateOneByOneCatalogued();
      PlateRulesBefore(part);
      FirstMatchClassifies(partId, 9);
    } else if InCatalog(Plate.PLATES, part) {
      PlateRulesBefore(part);
      FirstMatchClassifies(partId, 10);
    } else {
      ClassifiedMatches(partId);
    }
  }

  /** A part number in none of the three catalogues is accepted by none of their rules. */
  lemma NotCatalogued(part: string)
    requires forall k :: 0 <= k < |Brick.BRICKS| ==> Brick.BRICKS[k].number != part
    requires forall k :: 0 <= k < |Tile.TILES| ==> Tile.TILES[k].number != part
    requires forall k :: 0 <= k < |Plate.PLATES| ==> Plate.PLATES[k].number != part
    ensures !InCatalog(Brick.BRICKS, part) && !InCatalog(Tile.TILES, part) && !InCatalog(Plate.PLATES, part)
  {
    Brick.BricksWellFormed();
    Tile.TilesWellFormed();
    Plate.PlatesWellFormed();
    InCatalogNumbers(Brick.BRICKS, part);
    InCatalogNumbers(Tile.TILES, part);
    InCatalogNumbers(Plate.PLATES, part);
  }

  /** "3024.dat" is in the plate table at (1, 1) but is classified PLATE_1x1, not PLATES. */
  lemma Classify3024()
    ensures ClassifyPart("3024.dat") == Ok(Plate1x1) && Plate.GetPlateSize("3024.dat") == Some((1, 1))
  {
    KeyOfRef(Entry(1, 1, "3024"));
    assert "3024.dat" == Ref(Entry(1, 1, "3024"));
    PlatesArePlateSized("3024.dat");
    Plate.GetPlateSize1x1();
  }

  /** No rule accepts 4070, and every rule but the last rejects 2431. */
  lemma RejectsUnknown(c: Category, part: string)
    requires part == "4070" || (part == "2431" && !c.PlatesModified?)
    ensures !Matches(c, part)
  {
    if c.Bricks? || c.Tiles? || c.Plates? {
      NotCatalogued(part);
    } else {
      HeadPrefix(part);
    }
  }

  /** "2431" is a modified plate, while "2431b.dat" is the 1 x 4 tile. */
  lemma Classify2431()
    ensures ClassifyPart("2431") == Ok(PlatesModified)
    ensures ClassifyPart("2431b.dat") == Ok(Tiles)
  {
    var part := "2431";
    KeyOfRef(Entry(1, 4, part));
    forall i | 0 <= i < 11 ensures !Matches(RULES[i], part) {
      RejectsUnknown(RULES[i], part);
    }
    FirstMatchClassifies(part, 11);
    Tile.GetTileSize1x4();
    TilesAreTileSized("2431b.dat");
  }

  /** The baseplate, by its file reference. */
  lemma ClassifyBaseplate()
    ensures ClassifyPart("3811.dat") == Ok(Plate32x32)
  {
    KeyOfRef(Entry(0, 0, "3811"));
    assert "3811.dat" == Ref(Entry(0, 0, "3811"));
    assert Matches(RULES[0], "3811");
  }

  /** Every 3626 variant (3626b, 3626bp01, ...) is a minifig head, with or without ".dat". */
  lemma ClassifyHead(variant: string)
    requires '.' !in variant
    ensures ClassifyPart("3626" + variant) == Ok(MinifigHead)
    ensures ClassifyPart("3626" + variant + ".dat") == Ok(MinifigHead)
  {
    var part := "3626" + variant;
    assert '.' !in part by {
      assert forall k :: 4 <= k < |part| ==> part[k] == variant[k - 4];
    }
    KeyOfRef(Entry(0, 0, part));
    assert "3626" + variant + ".dat" == Ref(Entry(0, 0, part));
    HeadPrefix(part);
    assert Matches(RULES[1], part) && !Matches(RULES[0], part);
  }

  /** The 2 x 4 brick. */
  lemma ClassifyBrick()
    ensures ClassifyPart("3001.dat") == Ok(Bricks)
  {
    Brick.GetBrickSize2x4();
    BricksAreBrickSized("3001.dat");
  }

  /** A part no rule knows is an error: there is no fallback category. */
  lemma ClassifyUnknown()
    ensures ClassifyPart("4070.dat") == Err(UnknownPart("4070.dat"))
  {
    var part := "4070";
    KeyOfRef(Entry(0, 0, part));
    assert "4070.dat" == Ref(Entry(0, 0, part));
    forall i | 0 <= i < |RULES| ensures !Matches(RULES[i], part) {
      RejectsUnknown(RULES[i], part);
    }
  }

  /** One defaultdict(int): each key with its count, keys in first-insertion order. */
  type Counts = seq<(string, nat)>

  /** d[key] on a defaultdict(int): 0 for a key never counted. */
  function CountOf(c: Counts, key: string): nat {
    if c == [] then 0
    else if c[0].0 == key then c[0].1
    else CountOf(c[1..], key)
  }

  function Keys(c: Counts): seq<string> {
    if c == [] then [] else [c[0].0] + Keys(c[1..])
  }

  function Total(c: Counts): nat {
    if c == [] then 0 else c[0].1 + Total(c[1..])
  }

  /** A dict as Python keeps it: no key twice, and (since a key only appears by being
      counted) no count of zero. */
  predicate ValidCounts(c: Counts) {
    c == [] || (c[0].1 > 0 && c[0].0 !in Keys(c[1..]) && ValidCounts(c[1..]))
  }

  /** d[key] += 1: the key's count goes up by one and no other count changes; a new key
      goes to the end. */
  function Bump(c: Counts, key: string): (r: Counts)
    ensures forall k :: CountOf(r, k) == CountOf(c, k) + (if k == key then 1 else 0)
    ensures Total(r) == Total(c) + 1
    ensures Keys(r) == if key in Keys(c) then Keys(c) else Keys(c) + [key]
  {
    if c == [] then [(key, 1)]
    else if c[0].0 == key then [(key, c[0].1 + 1)] + c[1..]
    else [c[0]] + Bump(c[1..], key)
  }

  lemma {:induction false} BumpValid(c: Counts, key: string)
    requires ValidCounts(c)
    ensures ValidCounts(Bump(c, key))
  {
    if c != [] && c[0].0 != key {
      BumpValid(c[1..], key);
    }
  }

  /** The whole BOM: each section with its counts, sections in first-insertion order. */
  type Bom = seq<(string, Counts)>

  /** bom[section], empty for a section never counted in. */
  function SectionOf(b: Bom, section: string): Counts {
    if b == [] then []
    else if b[0].0 == section then b[0].1
    else SectionOf(b[1..], section)
  }

  function Sections(b: Bom): seq<string> {
    if b == [] then [] else [b[0].0] + Sections(b[1..])
  }

  /** The sum of every count in every section. */
  function GrandTotal(b: Bom): nat {
    if b == [] then 0 else Total(b[0].1) + GrandTotal(b[1..])
  }

  /** bom[section][key] += 1 on the nested defaultdict. */
  function BumpBom(b: Bom, section: string, key: string): (r: Bom)
    ensures forall s, k :: CountOf(SectionOf(r, s), k) == CountOf(SectionOf(b, s), k) + (if s == section && k == key then 1 else 0)
    ensures GrandTotal(r) == GrandTotal(b) + 1
    ensures Sections(r) == if section in Sections(b) then Sections(b) else Sections(b) + [section]
  {
    if b == [] then [(section, Bump([], key))]
    else if b[0].0 == section then [(section, Bump(b[0].1, key))] + b[1..]
    else [b[0]] + BumpBom(b[1..], section, key)
  }

  /** A BOM as Python keeps it: no section twice, and every section a valid dict with at
      least one part (a section whose marker is followed by no part line never appears). */
  predicate ValidBom(b: Bom) {
    b == [] || (b[0].1 != [] && ValidCounts(b[0].1) && b[0].0 !in Sections(b[1..]) && ValidBom(b[1..]))
  }

  lemma {:induction false} BumpBomValid(b: Bom, section: string, key: string)
    requires ValidBom(b)
    ensures ValidBom(BumpBom(b, section, key))
  {
    if b == [] {
      BumpValid([], key);
    } else if b[0].0 == section {
      BumpValid(b[0].1, key);
    } else {
      BumpBomValid(b[1..], section, key);
    }
  }

  const UNDEFINED: string := "UNDEFINED"
  /** A section marker line starts "0 =====", as in "0 ===== FRAME =====". */
  const MARKER: string := "0 ====="
  const BANNER: string := "====="
  const PART_LINE: string := "1 "

  predicate IsMarker(line: string) {
    StartsWith(Strip(line), MARKER)
  }

  /** The section a marker opens: the stripped line with "0 =====" and then every "====="
      removed, stripped. */
  function SectionName(line: string): string {
    Strip(RemoveAll(RemoveAll(Strip(line), MARKER), BANNER))
  }

  predicate IsPartLine(line: string) {
    StartsWith(Strip(line), PART_LINE)
  }

  /** The last token of a part line: its part id. */
  function PartOf(line: string): string
    requires IsPartLine(line)
  {
    var l := Strip(line);
    assert l[0] == '1';
    var ts := Tokens(l);
    ts[|ts| - 1]
  }

  /** A marker is never a part line. */
  lemma MarkerIsNotPart(line: string)
    ensures !(IsMarker(line) && IsPartLine(line))
  {
  }

  /** The reader's state between lines: the current section and the counts so far. */
  datatype Reader = Reader(section: string, bom: Bom)

  /** One line: a marker switches the section and is not counted; a part line counts its
      part id under the current section; anything else is skipped. */
  function Step(st: Reader, line: string): Reader {
    if IsMarker(line) then Reader(SectionName(line), st.bom)
    else if !IsPartLine(line) then st
    else Reader(st.section, BumpBom(st.bom, st.section, PartOf(line)))
  }

  /** The state after reading lines from the start (section UNDEFINED, nothing counted). */
  function ReadLines(lines: seq<string>): Reader {
    if lines == [] then Reader(UNDEFINED, [])
    else Step(ReadLines(lines[..|lines| - 1]), lines[|lines| - 1])
  }

  function GenerateBom(lines: seq<string>): Bom {
    ReadLines(lines).bom
  }

  /** generate_bom_from_lines. */
  method GenerateBomFromLines(lines: seq<string>) returns (bom: Bom)
    ensures bom == GenerateBom(lines)
  {
    bom := [];
    var section := UNDEFINED;
    for i := 0 to |lines|
      invariant Reader(section, bom) == ReadLines(lines[..i])
    {
      assert lines[..i + 1][..i] == lines[..i];
      var line := Strip(lines[i]);
      if StartsWith(line, MARKER) {
        section := Strip(RemoveAll(RemoveAll(line, MARKER), BANNER));
        continue;
      }
      if !StartsWith(line, PART_LINE) {
        continue;
      }
      var parts := Tokens(line);
      var partId := parts[|parts| - 1];
      bom := BumpBom(bom, section, partId);
    }
    assert lines[..|lines|] == lines;
  }

  /** The section a position of the input lies in: the name of the last marker before it,
      or UNDEFINED when there is none. */
  function SectionBefore(lines: seq<string>): string {
    if lines == [] then UNDEFINED
    else if IsMarker(lines[|lines| - 1]) then SectionName(lines[|lines| - 1])
    else SectionBefore(lines[..|lines| - 1])
  }

  /** How many part lines with part id p lie in section s. */
  function Occurrences(lines: seq<string>, s: string, p: string): nat {
    if lines == [] then 0
    else
      var init, last := lines[..|lines| - 1], lines[|lines| - 1];
      Occurrences(init, s, p) + if IsPartLine(last) && PartOf(last) == p && SectionBefore(init) == s then 1 else 0
  }

  /** How many part lines there are. */
  function PartLines(lines: seq<string>): nat {
    if lines == [] then 0
    else PartLines(lines[..|lines| - 1]) + if IsPartLine(lines[|lines| - 1]) then 1 else 0
  }

  lemma {:induction false} ReaderSection(lines: seq<string>)
    ensures ReadLines(lines).section == SectionBefore(lines)
  {
    if lines != [] {
      ReaderSection(lines[..|lines| - 1]);
    }
  }

  /** One line adds one to bom[s][p] exactly when it is a part line of p read in section s. */
  lemma StepCounts(st: Reader, line: string, s: string, p: string)
    ensures CountOf(SectionOf(Step(st, line).bom, s), p)
         == CountOf(SectionOf(st.bom, s), p) + if IsPartLine(line) && PartOf(line) == p && st.section == s then 1 else 0
  {
    MarkerIsNotPart(line);
  }

  /** bom[s][p] is the number of part lines with part id p under the last marker naming s
      (or before any marker, for UNDEFINED). */
  lemma {:induction false} BomCounts(lines: seq<string>, s: string, p: string)
    ensures CountOf(SectionOf(GenerateBom(lines), s), p) == Occurrences(lines, s, p)
  {
    if lines != [] {
      var init, last := lines[..|lines| - 1], lines[|lines| - 1];
      BomCounts(init, s, p);
      ReaderSection(init);
      StepCounts(ReadLines(init), last, s, p);
    }
  }

  /** The counts add up to the number of part lines: every part line is counted once and
      nothing else is counted. */
  lemma {:induction false} BomTotal(lines: seq<string>)
    ensures GrandTotal(GenerateBom(lines)) == PartLines(lines)
  {
    if lines != [] {
      BomTotal(lines[..|lines| - 1]);
      MarkerIsNotPart(lines[|lines| - 1]);
    }
  }

  /** The BOM never lists a section or a part twice, never holds a zero count, and lists a
      section only once a part has been counted in it. */
  lemma {:induction false} BomValid(lines: seq<string>)
    ensures ValidBom(GenerateBom(lines))
  {
    if lines != [] {
      var init, last := lines[..|lines| - 1], lines[|lines| - 1];
      BomValid(init);
      if !IsMarker(last) && IsPartLine(last) {
        BumpBomValid(GenerateBom(init), ReadLines(init).section, PartOf(last));
      }
    }
  }
}
