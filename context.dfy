/** Scene coordinates: stud-to-LDraw-unit scaling and the two reference Y planes.
    LDraw units (LDU): one stud is 20 LDU, a plate is 8 LDU high. */
module Context {

  const STUD: int := 20
  const PLATE_HEIGHT: int := 8
  /** 3811.dat (the 32x32 baseplate) is one plate thick. */
  const BASEPLATE_THICKNESS: int := 8

  /** Global scene parameters; ground_y defaults to 0. */
  datatype SceneContext = SceneContext(groundY: real) {

    /** Studs to LDU: an exact scaling, so the stud count is recovered by dividing back. */
    function Studs(v: real): (r: real)
      ensures r / STUD as real == v
    {
      v * STUD as real
    }

    /** Y of the origin (centre) of a 3811.dat baseplate. The baseplate is centred
        half a thickness from the ground plane on one side, the plane its top face
        lies in (where plates and tiles are placed) half a thickness on the other. */
    function BaseplateOriginY(): (r: real)
      ensures r - BaseplateTopOriginY() == BASEPLATE_THICKNESS as real
      ensures (r + BaseplateTopOriginY()) / 2.0 == groundY
    {
      groundY + BASEPLATE_THICKNESS as real / 2.0
    }

    /** Y used for plates and tiles sitting on a baseplate. */
    function BaseplateTopOriginY(): real {
      groundY - BASEPLATE_THICKNESS as real / 2.0
    }
  }

  /** Studs is linear: the distance between two stud positions scales by STUD. */
  lemma StudsLinear(ctx: SceneContext, u: real, v: real)
    ensures ctx.Studs(u + v) == ctx.Studs(u) + ctx.Studs(v)
    ensures ctx.Studs(u) - ctx.Studs(v) == ctx.Studs(u - v)
  {
  }

  /** The baseplate at grid index i (along one axis) is centred at origin + i * studsPerPlate. */
  function PlateCentreStud(origin: real, i: int, studsPerPlate: int): real {
    origin + (i * studsPerPlate) as real
  }

  /** grid_center_in_studs: the centre of a cols x rows baseplate grid in stud coordinates,
      which is the midpoint of the first and last baseplate centres on each axis. */
  function GridCenterInStuds(cols: int, rows: int, studsPerPlate: int, originX: real, originZ: real): (r: (real, real))
    ensures r.0 - PlateCentreStud(originX, 0, studsPerPlate) == PlateCentreStud(originX, cols - 1, studsPerPlate) - r.0
    ensures r.1 - PlateCentreStud(originZ, 0, studsPerPlate) == PlateCentreStud(originZ, rows - 1, studsPerPlate) - r.1
  {
    (originX + ((cols - 1) * studsPerPlate) as real / 2.0,
     originZ + ((rows - 1) * studsPerPlate) as real / 2.0)
  }

  /** With three columns of 32-stud plates the centres are 0, 32, 64 and the grid centre is 32. */
  lemma GridCenterThreeColumns(rows: int)
    ensures GridCenterInStuds(3, rows, 32, 0.0, 0.0).0 == 32.0
  {
  }
}
