/** minifig.py: load a minifig template and place it in the scene. build_minifig moves
    the template's X/Z centroid to the origin, turns it a quarter turn about the Y axis
    (positions and orientations alike), and moves it to the requested stud position
    with its feet 30 LDU above the baseplate origin plane. The output lines are modelled
    as the records they print (LDraw.FormatType1 of each record). */
module Minifig {
  import opened Wrappers
  import opened Numbers
  import opened Context
  import opened LDraw
  import opened Loader
  import opened Template

  /** The rotation validated for Studio minifigs: (x, y, z) becomes (-z, y, x). */
  const R: Mat3 := Mat3(0.0, 0.0, -1.0, 0.0, 1.0, 0.0, 1.0, 0.0, 0.0)

  /** The vertical correction: the placed template's origin plane is 30 LDU above the
      baseplate origin (LDraw's Y axis points down). */
  const FEET_LIFT: real := 30.0

  /** load_minifig_template: the same loop as load_template, with the same parser. */
  method LoadMinifigTemplate(lines: seq<string>) returns (r: Result<seq<Type1>>)
    ensures r == LoadRecords(lines, ParseType1)
    ensures r.Ok? ==> r.value != []
  {
    r := LoadType1Lines(lines, ParseType1);
  }

  /** Where the centred template's origin goes: (studs(stud_x), baseplate_origin_y - 30, studs(stud_z)). */
  function Offset(ctx: SceneContext, studX: real, studZ: real): Vec3 {
    Vec3(ctx.Studs(studX), ctx.BaseplateOriginY() - FEET_LIFT, ctx.Studs(studZ))
  }

  /** The first loop's value for one part: its position relative to the X/Z centroid
      (Y is not recentred), rotated by R. */
  function Rotated(p: Type1, cx: real, cz: real): Vec3 {
    Apply(R, Vec3(p.pos.x - cx, p.pos.y, p.pos.z - cz))
  }

  /** The second loop's output for one part: the rotated position moved by the offset,
      the orientation R * M, the colour and part id unchanged. */
  function Rebuilt(p: Type1, rv: Vec3, offset: Vec3): Type1 {
    Type1(p.color, Add(rv, offset), Compose(R, p.m), p.partId)
  }

  /** What build_minifig returns: an empty template fails (the centroid divides by its
      length); otherwise one record per part, in template order. */
  function Placed(ctx: SceneContext, template: seq<Type1>, studX: real, studZ: real): Result<seq<Type1>> {
    if template == [] then Err(EmptyAssembly)
    else
      var cx, cz, offset := Mean(Xs(template)), Mean(Zs(template)), Offset(ctx, studX, studZ);
      Ok(seq(|template|, k requires 0 <= k < |template| => Rebuilt(template[k], Rotated(template[k], cx, cz), offset)))
  }

  /** build_minifig: the centroid, then the transformation loop, then the reconstruction loop. */
  method BuildMinifig(ctx: SceneContext, template: seq<Type1>, studX: real, studZ: real) returns (r: Result<seq<Type1>>)
    ensures r == Placed(ctx, template, studX, studZ)
  {
    if template == [] {
      return Err(EmptyAssembly);
    }
    var cx := Mean(Xs(template));
    var cz := Mean(Zs(template));
    var offset := Offset(ctx, studX, studZ);
    var transformed := Transform(template, cx, cz);
    var out := Reconstruct(transformed, offset);
    assert forall k :: 0 <= k < |template| ==> out[k] == Placed(ctx, template, studX, studZ).value[k];
    assert out == Placed(ctx, template, studX, studZ).value;
    return Ok(out);
  }

  /** The first loop: each part paired with its centred, rotated position. */
  method Transform(parts: seq<Type1>, cx: real, cz: real) returns (transformed: seq<(Type1, Vec3)>)
    ensures |transformed| == |parts|
    ensures forall k :: 0 <= k < |parts| ==> transformed[k] == (parts[k], Rotated(parts[k], cx, cz))
  {
    transformed := [];
    for n := 0 to |parts|
      invariant |transformed| == n
      invariant forall k :: 0 <= k < n ==> transformed[k] == (parts[k], Rotated(parts[k], cx, cz))
    {
      var p := parts[n];
      var nx, ny, nz := p.pos.x - cx, p.pos.y, p.pos.z - cz;
      var rx := R.a * nx + R.b * ny + R.c * nz;
      var ry := R.d * nx + R.e * ny + R.f * nz;
      var rz := R.g * nx + R.h * ny + R.i * nz;
      transformed := transformed + [(p, Vec3(rx, ry, rz))];
    }
  }

  /** The second loop: each part at its final position with orientation R * M. */
  method Reconstruct(transformed: seq<(Type1, Vec3)>, offset: Vec3) returns (out: seq<Type1>)
    ensures |out| == |transformed|
    ensures forall k :: 0 <= k < |transformed| ==> out[k] == Rebuilt(transformed[k].0, transformed[k].1, offset)
  {
    out := [];
    for n := 0 to |transformed|
      invariant |out| == n
      invariant forall k :: 0 <= k < n ==> out[k] == Rebuilt(transformed[k].0, transformed[k].1, offset)
    {
      var (p, rv) := transformed[n];
      var m := p.m;
      var a := R.a * m.a + R.b * m.d + R.c * m.g;
      var b := R.a * m.b + R.b * m.e + R.c * m.h;
      var c := R.a * m.c + R.b * m.f + R.c * m.i;
      var d := R.d * m.a + R.e * m.d + R.f * m.g;
      var e := R.d * m.b + R.e * m.e + R.f * m.h;
      var f := R.d * m.c + R.e * m.f + R.f * m.i;
      var g := R.g * m.a + R.h * m.d + R.i * m.g;
      var h := R.g * m.b + R.h * m.e + R.i * m.h;
      var i := R.g * m.c + R.h * m.f + R.i * m.i;
      var pos := Vec3(rv.x + offset.x, rv.y + offset.y, rv.z + offset.z);
      out := out + [Type1(p.color, pos, Mat3(a, b, c, d, e, f, g, h, i), p.partId)];
    }
  }

  /** One output record per template part, in template order, with its colour and part id;
      an empty template is an error. */
  lemma PlacedShape(ctx: SceneContext, template: seq<Type1>, studX: real, studZ: real)
    ensures Placed(ctx, template, studX, studZ).Ok? <==> template != []
    ensures Placed(ctx, template, studX, studZ).Err? ==> Placed(ctx, template, studX, studZ).error == EmptyAssembly
    ensures var r := Placed(ctx, template, studX, studZ);
      r.Ok? ==> (|r.value| == |template| &&
        forall k :: 0 <= k < |template| ==> r.value[k].color == template[k].color && r.value[k].partId == template[k].partId)
  {
  }

  /** Part k ends up at (-(z - cz) + 20 * stud_x, y + ground_y + 4 - 30, (x - cx) + 20 * stud_z),
      with (cx, cz) the template's X/Z centroid. */
  lemma PlacedPosition(ctx: SceneContext, template: seq<Type1>, studX: real, studZ: real, k: nat)
    requires k < |template|
    ensures var p, cx, cz := template[k], Mean(Xs(template)), Mean(Zs(template));
      Placed(ctx, template, studX, studZ).Ok? &&
      Placed(ctx, template, studX, studZ).value[k].pos ==
        Vec3(-(p.pos.z - cz) + 20.0 * studX, p.pos.y + ctx.groundY + 4.0 - 30.0, (p.pos.x - cx) + 20.0 * studZ)
  {
  }

  /** Part k's orientation is R * M: the rows (-g, -h, -i), (d, e, f), (a, b, c) of its template matrix. */
  lemma PlacedMatrix(ctx: SceneContext, template: seq<Type1>, studX: real, studZ: real, k: nat)
    requires k < |template|
    ensures var m := template[k].m;
      Placed(ctx, template, studX, studZ).Ok? &&
      Placed(ctx, template, studX, studZ).value[k].m == Mat3(-m.g, -m.h, -m.i, m.d, m.e, m.f, m.a, m.b, m.c)
  {
  }

  /** R maps (x, y, z) to (-z, y, x). */
  lemma ApplyR(v: Vec3)
    ensures Apply(R, v) == Vec3(-v.z, v.y, v.x)
  {
  }

  /** R is a proper rotation: its transpose undoes it, it keeps lengths, and det R = 1. */
  lemma RIsRotation(v: Vec3)
    ensures Apply(Transpose(R), Apply(R, v)) == v
    ensures Dot(Apply(R, v), Apply(R, v)) == Dot(v, v)
    ensures Det(R) == 1.0
  {
    ApplyR(v);
  }

  /** R is the quarter turn about the Y axis that takes +X to +Z and +Z to -X. */
  lemma RTurnsAboutY()
    ensures Apply(R, Vec3(1.0, 0.0, 0.0)) == Vec3(0.0, 0.0, 1.0)
    ensures Apply(R, Vec3(0.0, 1.0, 0.0)) == Vec3(0.0, 1.0, 0.0)
    ensures Apply(R, Vec3(0.0, 0.0, 1.0)) == Vec3(-1.0, 0.0, 0.0)
  {
    ApplyR(Vec3(1.0, 0.0, 0.0));
    ApplyR(Vec3(0.0, 1.0, 0.0));
    ApplyR(Vec3(0.0, 0.0, 1.0));
  }

  /** Two turns are a half turn, (x, y, z) to (-x, y, -z); four turns give every vector back. */
  lemma RFourTurns(v: Vec3)
    ensures Apply(R, Apply(R, v)) == Vec3(-v.x, v.y, -v.z)
    ensures Apply(R, Apply(R, Apply(R, Apply(R, v)))) == v
  {
    ApplyR(v);
    ApplyR(Apply(R, v));
    ApplyR(Apply(R, Apply(R, v)));
    ApplyR(Apply(R, Apply(R, Apply(R, v))));
  }

  /** The scene position of the point v given in a part's own coordinates. */
  function World(p: Type1, v: Vec3): Vec3 {
    Add(p.pos, Apply(p.m, v))
  }

  /** The motion build_minifig applies to the scene: recentre X/Z on (cx, cz), turn by R,
      move by the offset. */
  function Motion(w: Vec3, cx: real, cz: real, offset: Vec3): Vec3 {
    Add(Apply(R, Vec3(w.x - cx, w.y, w.z - cz)), offset)
  }

  /** The whole template is moved by one rigid motion: every point of every part (any v in
      the part's own coordinates) goes to the Motion of where that point was in the template. */
  lemma PlacedIsRigidMotion(ctx: SceneContext, template: seq<Type1>, studX: real, studZ: real, k: nat, v: Vec3)
    requires k < |template|
    ensures var cx, cz := Mean(Xs(template)), Mean(Zs(template));
      Placed(ctx, template, studX, studZ).Ok? &&
      World(Placed(ctx, template, studX, studZ).value[k], v) == Motion(World(template[k], v), cx, cz, Offset(ctx, studX, studZ))
  {
    var m := template[k].m;
    assert Apply(Compose(R, m), v) == Apply(R, Apply(m, v));
  }

  /** The motion keeps distances. */
  lemma MotionKeepsDistances(a: Vec3, b: Vec3, cx: real, cz: real, offset: Vec3)
    ensures var d, d' := Sub(a, b), Sub(Motion(a, cx, cz, offset), Motion(b, cx, cz, offset));
      Dot(d', d') == Dot(d, d)
  {
    ApplyR(Vec3(a.x - cx, a.y, a.z - cz));
    ApplyR(Vec3(b.x - cx, b.y, b.z - cz));
    var d := Sub(a, b);
    assert Sub(Motion(a, cx, cz, offset), Motion(b, cx, cz, offset)) == Vec3(-d.z, d.y, d.x);
  }

  /** Placing a minifig keeps its shape: the distance between any two points of any two
      parts is the same before and after. */
  lemma PlacedKeepsDistances(ctx: SceneContext, template: seq<Type1>, studX: real, studZ: real,
                             j: nat, k: nat, u: Vec3, v: Vec3)
    requires j < |template| && k < |template|
    ensures Placed(ctx, template, studX, studZ).Ok?
    ensures var out := Placed(ctx, template, studX, studZ).value;
      var before, after := Sub(World(template[j], u), World(template[k], v)), Sub(World(out[j], u), World(out[k], v));
      Dot(after, after) == Dot(before, before)
  {
    PlacedIsRigidMotion(ctx, template, studX, studZ, j, u);
    PlacedIsRigidMotion(ctx, template, studX, studZ, k, v);
    MotionKeepsDistances(World(template[j], u), World(template[k], v), Mean(Xs(template)), Mean(Zs(template)), Offset(ctx, studX, studZ));
  }

  /** Shifting every template part horizontally by the same (tx, tz) changes nothing in the
      output: the centroid moves with the parts. */
  lemma PlacedTranslationInvariant(ctx: SceneContext, rs: seq<Type1>, ts: seq<Type1>, tx: real, tz: real, studX: real, studZ: real)
    requires |rs| == |ts|
    requires forall k :: 0 <= k < |rs| ==>
      ts[k] == rs[k].(pos := Vec3(rs[k].pos.x + tx, rs[k].pos.y, rs[k].pos.z + tz))
    ensures Placed(ctx, ts, studX, studZ).Ok? == Placed(ctx, rs, studX, studZ).Ok?
    ensures Placed(ctx, rs, studX, studZ).Ok? ==>
      forall k :: 0 <= k < |rs| ==> Placed(ctx, ts, studX, studZ).value[k] == Placed(ctx, rs, studX, studZ).value[k]
  {
    if rs != [] {
      ShiftedCentroid(rs, ts, tx, tz);
      var cx, cz := Mean(Xs(rs)), Mean(Zs(rs));
      forall k | 0 <= k < |rs|
        ensures Rotated(ts[k], cx + tx, cz + tz) == Rotated(rs[k], cx, cz)
      {
        assert (rs[k].pos.x + tx) - (cx + tx) == rs[k].pos.x - cx;
        assert (rs[k].pos.z + tz) - (cz + tz) == rs[k].pos.z - cz;
      }
    }
  }
}
