/** plate.py: the plate catalogue, the size lookup over it, and the two builders that put
    a 1 x length plate on the baseplate's top face, straight or turned a quarter about Y. */
module Plate {
  import opened Wrappers
  import opened Context
  import opened LDraw
  import opened Catalog

  /** PLATES: width 1 then width 2, each by length in insertion order. */
  const PLATES: SizeTable := [
    Entry(1, 1, "3024"), Entry(1, 2, "3023"), Entry(1, 3, "3623"),
    Entry(1, 4, "3710"), Entry(1, 6, "3666"), Entry(1, 8, "3460"),
    Entry(1, 10, "4477"), Entry(1, 12, "60479"),
    Entry(2, 2, "3022"), Entry(2, 3, "3021"), Entry(2, 4, "3020"),
    Entry(2, 6, "3795"), Entry(2, 8, "3034"), Entry(2, 10, "3832"),
    Entry(2, 12, "2445")
  ]

  /** The quarter turn about Y of build_plate_rotated, row by row. */
  const ROT_Y: Mat3 := Mat3(0.0, 0.0, 1.0, 0.0, 1.0, 0.0, -1.0, 0.0, 0.0)

  /** get_plate_size: the (width, length) of the first cell whose reference matches, ".dat" removed
      on both sides; every size it returns is 1 or 2 studs wide and 1 to 12 studs long. */
  function GetPlateSize(partId: string): (size: Option<(int, int)>)
    ensures size.Some? ==> size.value.0 in {1, 2} && 1 <= size.value.1 <= 12
  {
    PlateCellSizes();
    FindSizeBounded(PLATES, partId, 12);
    FindSize(PLATES, partId)
  }

  /** The lengths that PLATES[1] holds. */
  predicate IsPlateLength(length: int) {
    length == 1 || length == 2 || length == 3 || length == 4
    || length == 6 || length == 8 || length == 10 || length == 12
  }

  /** build_plate: a 1 x length plate at (stud_x, stud_z) on the baseplate's top face,
      with the identity orientation. It succeeds exactly for the lengths PLATES[1] holds; any
      other length is a KeyError in the source, UnknownLength here. */
  function BuildPlate(ctx: SceneContext, studX: real, studZ: real, color: int, length: int): (p: Result<Type1>)
    ensures p.Ok? <==> IsPlateLength(length)
    ensures p.Err? ==> p.error == UnknownLength(length)
  {
    PlateLengths(length);
    match Get(PLATES, 1, length)
    case None => Err(UnknownLength(length))
    case Some(part) => Ok(Type1(color, Vec3(ctx.Studs(studX), ctx.BaseplateTopOriginY(), ctx.Studs(studZ)), IDENTITY, part))
  }

  /** build_plate_rotated: as build_plate, turned a quarter about Y; it succeeds and fails
      for the same lengths. */
  function BuildPlateRotated(ctx: SceneContext, studX: real, studZ: real, color: int, length: int): (p: Result<Type1>)
    ensures p.Ok? <==> IsPlateLength(length)
    ensures p.Err? ==> p.error == UnknownLength(length)
  {
    PlateLengths(length);
    match Get(PLATES, 1, length)
    case None => Err(UnknownLength(length))
    case Some(part) => Ok(Type1(color, Vec3(ctx.Studs(studX), ctx.BaseplateTopOriginY(), ctx.Studs(studZ)), ROT_Y, part))
  }

  lemma PlatesWellFormed()
    ensures WellFormed(PLATES)
  {
    PlateNumbersDotFree();
    PlateNumbersDistinct();
  }

  lemma PlateNumbersDotFree()
    ensures forall k :: 0 <= k < |PLATES| ==> '.' !in PLATES[k].number
  {
  }

  lemma PlateNumbersDistinct()
    ensures forall i, j :: 0 <= i < j < |PLATES| ==> PLATES[i].number != PLATES[j].number
  {
  }

  /** get_plate_size finds every catalogue plate by its reference, with or without ".dat". */
  lemma GetPlateSizeOfRef(k: int)
    requires 0 <= k < |PLATES|
    ensures GetPlateSize(Ref(PLATES[k])) == Some((PLATES[k].width, PLATES[k].length))
    ensures GetPlateSize(PLATES[k].number) == Some((PLATES[k].width, PLATES[k].length))
  {
    PlatesWellFormed();
    FindSizeOfRef(PLATES, k);
  }

  /** Every cell is 1 or 2 studs wide and 1 to 12 studs long. */
  lemma PlateCellSizes()
    ensures forall k :: 0 <= k < |PLATES| ==> PLATES[k].width in {1, 2} && 1 <= PLATES[k].length <= 12
  {
  }

  /** "3024.dat" and "3024" are both the 1 x 1 plate. */
  lemma GetPlateSize1x1()
    ensures GetPlateSize("3024.dat") == Some((1, 1))
    ensures GetPlateSize("3024") == Some((1, 1))
  {
    PlatesWellFormed();
    FindSizeFound(PLATES, "3024.dat", 0);
    FindSizeFound(PLATES, "3024", 0);
  }

  /** "3020.dat" is the 2 x 4 plate. */
  lemma GetPlateSize2x4()
    ensures GetPlateSize("3020.dat") == Some((2, 4))
  {
    PlatesWellFormed();
    FindSizeFound(PLATES, "3020.dat", 10);
  }

  /** The brick "3001.dat" is not a plate. */
  lemma GetPlateSizeOfBrick()
    ensures GetPlateSize("3001.dat") == None
  {
    PlatesWellFormed();
    FindSizeMissing(PLATES, "3001.dat", "3001");
  }

  /** PLATES[1] holds exactly the lengths 1, 2, 3, 4, 6, 8, 10 and 12. */
  lemma PlateLengths(length: int)
    ensures Get(PLATES, 1, length).Some? <==> IsPlateLength(length)
  {
    GetFinds(PLATES, 1, length);
  }

  /** A built plate sits at the stud position on the baseplate's top face, and get_plate_size
      reads its part back as a 1 x length plate; the rotated one differs only by ROT_Y. */
  lemma BuildPlatePlaced(ctx: SceneContext, studX: real, studZ: real, color: int, length: int)
    requires BuildPlate(ctx, studX, studZ, color, length).Ok?
    ensures var p := BuildPlate(ctx, studX, studZ, color, length).value;
      p.pos.x / STUD as real == studX && p.pos.z / STUD as real == studZ
      && p.pos.y == ctx.BaseplateTopOriginY() && p.m == IDENTITY && p.color == color
      && GetPlateSize(p.partId) == Some((1, length))
    ensures BuildPlateRotated(ctx, studX, studZ, color, length).value
         == BuildPlate(ctx, studX, studZ, color, length).value.(m := ROT_Y)
  {
    PlatesWellFormed();
    GetThenFindSize(PLATES, 1, length);
  }

  /** ROT_Y turns a vector a quarter about Y, taking the plate's length axis X onto -Z;
      it keeps lengths, has determinant 1, and its transpose undoes it. */
  lemma RotYIsQuarterTurn(v: Vec3)
    ensures Apply(ROT_Y, v) == Vec3(v.z, v.y, -v.x)
    ensures Apply(ROT_Y, Vec3(1.0, 0.0, 0.0)) == Vec3(0.0, 0.0, -1.0)
    ensures Dot(Apply(ROT_Y, v), Apply(ROT_Y, v)) == Dot(v, v)
    ensures Apply(Transpose(ROT_Y), Apply(ROT_Y, v)) == v
    ensures Det(ROT_Y) == 1.0
  {
  }
}
