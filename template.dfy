/** template.py: the mutable type-1 record, its loader, and the in-place normaliser
    that recentres a template on its X/Z centroid, rounds positions to whole LDU and
    snaps orientation entries close to -1, 0 or 1. */
module Template {
  import opened Wrappers
  import opened Text
  import opened Numbers
  import opened LDraw
  import opened Loader

  /** LDrawType1 of template.py: a record whose fields the normaliser overwrites. */
  class Part {
    var color: int
    var x: real
    var y: real
    var z: real
    var a: real
    var b: real
    var c: real
    var d: real
    var e: real
    var f: real
    var g: real
    var h: real
    var i: real
    var partId: string

    /** The record's current contents as a value. */
    function Value(): Type1
      reads this
    {
      Type1(color, Vec3(x, y, z), Mat3(a, b, c, d, e, f, g, h, i), partId)
    }

    /** __init__: one field per argument, in the order parse passes them. */
    constructor (p: Type1)
      ensures Value() == p
    {
      color, x, y, z := p.color, p.pos.x, p.pos.y, p.pos.z;
      a, b, c := p.m.a, p.m.b, p.m.c;
      d, e, f := p.m.d, p.m.e, p.m.f;
      g, h, i := p.m.g, p.m.h, p.m.i;
      partId := p.partId;
    }

    /** One iteration of the normaliser's loop, on this record: recentre and round the
        position, clean the nine orientation entries. */
    method Normalize(cx: real, cz: real, eps: real)
      modifies this
      ensures Value() == NormalizeRecord(old(Value()), cx, cz, eps)
    {
      var q := NormalizeRecord(Value(), cx, cz, eps);
      SetPosition(q.pos);
      SetOrientation(q.m);
    }

    /** Overwrite the position fields; everything else stays. */
    method SetPosition(pos: Vec3)
      modifies this
      ensures Value() == old(Value()).(pos := pos)
    {
      x, y, z := pos.x, pos.y, pos.z;
    }

    /** Overwrite the nine orientation fields; everything else stays. */
    method SetOrientation(m: Mat3)
      modifies this
      ensures a == m.a && b == m.b && c == m.c && d == m.d && e == m.e && f == m.f && g == m.g && h == m.h && i == m.i
      ensures x == old(x) && y == old(y) && z == old(z) && color == old(color) && partId == old(partId)
    {
      a, b, c := m.a, m.b, m.c;
      d, e, f := m.d, m.e, m.f;
      g, h, i := m.g, m.h, m.i;
    }

    /** to_line: the line that parse reads back as this record (when its numbers print exactly). */
    function ToLine(): (s: string)
      reads this
      ensures RoundTrips(Value()) ==> ParseType1(s) == Ok(Value())
    {
      if RoundTrips(Value()) then ParseFormatType1(Value()); FormatType1(Value())
      else FormatType1(Value())
    }
  }

  /** The contents of a list of records, in order. */
  function Values(ps: seq<Part>): (vs: seq<Type1>)
    reads set p | p in ps
    ensures |vs| == |ps| && forall k :: 0 <= k < |ps| ==> vs[k] == ps[k].Value()
  {
    if ps == [] then [] else Values(ps[..|ps| - 1]) + [ps[|ps| - 1].Value()]
  }

  /** No record occurs twice in the list. */
  predicate Distinct(ps: seq<Part>) {
    ps == [] || (Distinct(ps[..|ps| - 1]) && ps[|ps| - 1] !in ps[..|ps| - 1])
  }

  lemma {:induction false} DistinctPairs(ps: seq<Part>)
    requires Distinct(ps)
    ensures forall j, k :: 0 <= j < k < |ps| ==> ps[j] != ps[k]
  {
    if ps != [] {
      var init := ps[..|ps| - 1];
      DistinctPairs(init);
      assert forall k :: 0 <= k < |init| ==> init[k] == ps[k];
    }
  }

  /** load_template over the lines of a file: the records of the record lines in order,
      as distinct new objects; the first line that does not parse is the error, and a
      source without record lines is NoType1Lines. */
  method LoadTemplate(lines: seq<string>) returns (r: Result<seq<Part>>)
    ensures r.Ok? <==> LoadRecords(lines, ParseType1).Ok?
    ensures r.Err? ==> r.error == LoadRecords(lines, ParseType1).error
    ensures r.Ok? ==> Values(r.value) == LoadRecords(lines, ParseType1).value && Distinct(r.value)
    ensures r.Ok? ==> forall p :: p in r.value ==> fresh(p)
  {
    var recs := LoadType1Lines(lines, ParseType1);
    if recs.Err? {
      return Err(recs.error);
    }
    var items := NewParts(recs.value);
    return Ok(items);
  }

  /** One new LDrawType1 object per record, in order. */
  method NewParts(recs: seq<Type1>) returns (items: seq<Part>)
    ensures Values(items) == recs && Distinct(items)
    ensures forall p :: p in items ==> fresh(p)
  {
    items := [];
    var n := 0;
    while n < |recs|
      invariant n == |items| <= |recs|
      invariant forall k :: 0 <= k < n ==> items[k].Value() == recs[k]
      invariant Distinct(items)
      invariant forall p :: p in items ==> fresh(p)
    {
      var p := new Part(recs[n]);
      assert p !in items;
      assert (items + [p])[..n] == items;
      items := items + [p];
      n := n + 1;
    }
  }

  /** The nested clean helper: a value within epsilon of 0, 1 or -1 (tested in that
      order) becomes exactly that value; every other value is kept. So the result is v
      itself, or -1, 0 or 1 less than epsilon away from v. */
  function Clean(v: real, eps: real): (r: real)
    ensures r == v || ((r == 0.0 || r == 1.0 || r == -1.0) && -eps < r - v < eps)
  {
    if -eps < v < eps then 0.0
    else if -eps < v - 1.0 < eps then 1.0
    else if -eps < v + 1.0 < eps then -1.0
    else v
  }

  /** clean keeps every v that is at least epsilon away from all of -1, 0 and 1. */
  lemma CleanKeepsFar(v: real, eps: real)
    ensures ((v <= -eps || eps <= v) && (v <= 1.0 - eps || 1.0 + eps <= v)
             && (v <= -1.0 - eps || -1.0 + eps <= v)) ==> Clean(v, eps) == v
  {
  }

  /** For epsilon at most 1/2 the three windows are disjoint, so a value in the window of
      t in {-1, 0, 1} is snapped to t itself. */
  lemma CleanSnaps(v: real, t: real, eps: real)
    requires 0.0 < eps <= 0.5 && (t == 0.0 || t == 1.0 || t == -1.0)
    requires -eps < v - t < eps
    ensures Clean(v, eps) == t
  {
  }

  /** clean is idempotent for every epsilon up to 1 (in particular for epsilon < 1/2). */
  lemma CleanIdempotent(v: real, eps: real)
    requires eps <= 1.0
    ensures Clean(Clean(v, eps), eps) == Clean(v, eps)
  {
  }

  /** Above 1 it is not: with epsilon 3/2, 12/5 snaps to 1 and 1 then snaps to 0. */
  lemma CleanNotIdempotentAboveOne()
    ensures Clean(2.4, 1.5) == 1.0 && Clean(1.0, 1.5) == 0.0
  {
  }

  function CleanMatrix(m: Mat3, eps: real): Mat3 {
    Mat3(Clean(m.a, eps), Clean(m.b, eps), Clean(m.c, eps),
         Clean(m.d, eps), Clean(m.e, eps), Clean(m.f, eps),
         Clean(m.g, eps), Clean(m.h, eps), Clean(m.i, eps))
  }

  function Xs(rs: seq<Type1>): (xs: seq<real>)
    ensures |xs| == |rs| && forall k :: 0 <= k < |rs| ==> xs[k] == rs[k].pos.x
  {
    seq(|rs|, k requires 0 <= k < |rs| => rs[k].pos.x)
  }

  function Zs(rs: seq<Type1>): (zs: seq<real>)
    ensures |zs| == |rs| && forall k :: 0 <= k < |rs| ==> zs[k] == rs[k].pos.z
  {
    seq(|rs|, k requires 0 <= k < |rs| => rs[k].pos.z)
  }

  /** One record after normalisation against the centroid (cx, cz). */
  function NormalizeRecord(p: Type1, cx: real, cz: real, eps: real): Type1 {
    Type1(p.color,
          Vec3(RoundHalfEven(p.pos.x - cx) as real, RoundHalfEven(p.pos.y) as real, RoundHalfEven(p.pos.z - cz) as real),
          CleanMatrix(p.m, eps), p.partId)
  }

  /** What normalize_template_inplace leaves in the records: nothing changes for an empty
      list; otherwise every record is normalised against the centroid of the original list. */
  function Normalized(rs: seq<Type1>, eps: real): seq<Type1> {
    if rs == [] then []
    else
      var cx, cz := Mean(Xs(rs)), Mean(Zs(rs));
      seq(|rs|, k requires 0 <= k < |rs| => NormalizeRecord(rs[k], cx, cz, eps))
  }

  /** normalize_template_inplace: computes the centroid first, then rewrites each record's
      position and orientation fields in place; no other object changes. */
  method NormalizeInPlace(parts: seq<Part>, eps: real)
    requires Distinct(parts)
    modifies set p | p in parts
    ensures Values(parts) == Normalized(old(Values(parts)), eps)
  {
    if parts == [] {
      return;
    }
    ghost var before := Values(parts);
    var cx := Mean(Xs(Values(parts)));
    var cz := Mean(Zs(Values(parts)));
    NormalizeEach(parts, cx, cz, eps);
    assert forall k :: 0 <= k < |parts| ==> Values(parts)[k] == Normalized(before, eps)[k];
  }

  /** The loop of normalize_template_inplace: each record in turn is normalised against
      the same centroid. */
  method NormalizeEach(parts: seq<Part>, cx: real, cz: real, eps: real)
    requires Distinct(parts)
    modifies set p | p in parts
    ensures forall k :: 0 <= k < |parts| ==> parts[k].Value() == NormalizeRecord(old(parts[k].Value()), cx, cz, eps)
  {
    DistinctPairs(parts);
    var n := 0;
    while n < |parts|
      invariant 0 <= n <= |parts|
      invariant forall k :: 0 <= k < n ==> parts[k].Value() == NormalizeRecord(old(parts[k].Value()), cx, cz, eps)
      invariant forall k :: n <= k < |parts| ==> parts[k].Value() == old(parts[k].Value())
    {
      parts[n].Normalize(cx, cz, eps);
      n := n + 1;
    }
  }

  predicate IsIntegral(v: real) {
    v.Floor as real == v
  }

  /** Every record keeps its colour and part id; positions become whole LDU, each within
      1/2 of the centred value (x, z) or the original value (y, which is never recentred). */
  lemma NormalizedFields(rs: seq<Type1>, eps: real)
    requires rs != []
    ensures var out, cx, cz := Normalized(rs, eps), Mean(Xs(rs)), Mean(Zs(rs));
      |out| == |rs| &&
      forall k :: 0 <= k < |rs| ==>
        out[k].color == rs[k].color && out[k].partId == rs[k].partId
        && IsIntegral(out[k].pos.x) && IsIntegral(out[k].pos.y) && IsIntegral(out[k].pos.z)
        && -0.5 <= out[k].pos.x - (rs[k].pos.x - cx) <= 0.5
        && -0.5 <= out[k].pos.y - rs[k].pos.y <= 0.5
        && -0.5 <= out[k].pos.z - (rs[k].pos.z - cz) <= 0.5
  {
  }

  /** Each of the nine matrix entries is either kept or moved by less than epsilon onto
      exactly -1, 0 or 1. */
  predicate CleanedFrom(v': real, v: real, eps: real) {
    v' == v || ((v' == -1.0 || v' == 0.0 || v' == 1.0) && -eps < v' - v < eps)
  }

  /** A matrix entry is left alone by normalisation unless it lies within epsilon of -1, 0
      or 1, and then it becomes exactly that value. */
  lemma NormalizedMatrix(rs: seq<Type1>, eps: real, k: nat)
    requires k < |rs|
    ensures var m, m' := rs[k].m, Normalized(rs, eps)[k].m;
      CleanedFrom(m'.a, m.a, eps) && CleanedFrom(m'.b, m.b, eps) && CleanedFrom(m'.c, m.c, eps)
      && CleanedFrom(m'.d, m.d, eps) && CleanedFrom(m'.e, m.e, eps) && CleanedFrom(m'.f, m.f, eps)
      && CleanedFrom(m'.g, m.g, eps) && CleanedFrom(m'.h, m.h, eps) && CleanedFrom(m'.i, m.i, eps)
  {
  }

  /** Shifting a record and the centroid by the same amount leaves its normal form unchanged. */
  lemma NormalizeRecordShift(p: Type1, tx: real, tz: real, cx: real, cz: real, eps: real)
    ensures NormalizeRecord(p.(pos := Vec3(p.pos.x + tx, p.pos.y, p.pos.z + tz)), cx + tx, cz + tz, eps)
         == NormalizeRecord(p, cx, cz, eps)
  {
    assert (p.pos.x + tx) - (cx + tx) == p.pos.x - cx;
    assert (p.pos.z + tz) - (cz + tz) == p.pos.z - cz;
  }

  /** Shifting every record shifts the centroid by the same amount. */
  lemma ShiftedCentroid(rs: seq<Type1>, ts: seq<Type1>, tx: real, tz: real)
    requires rs != [] && |rs| == |ts|
    requires forall k :: 0 <= k < |rs| ==>
      ts[k] == rs[k].(pos := Vec3(rs[k].pos.x + tx, rs[k].pos.y, rs[k].pos.z + tz))
    ensures Mean(Xs(ts)) == Mean(Xs(rs)) + tx && Mean(Zs(ts)) == Mean(Zs(rs)) + tz
  {
    MeanShift(Xs(rs), Xs(ts), tx);
    MeanShift(Zs(rs), Zs(ts), tz);
  }

  /** Shifting the whole template horizontally (every x by tx, every z by tz) does not change
      the normalised result: the centroid moves with it. */
  lemma NormalizedTranslationInvariant(rs: seq<Type1>, ts: seq<Type1>, tx: real, tz: real, eps: real)
    requires |rs| == |ts|
    requires forall k :: 0 <= k < |rs| ==>
      ts[k] == rs[k].(pos := Vec3(rs[k].pos.x + tx, rs[k].pos.y, rs[k].pos.z + tz))
    ensures |Normalized(ts, eps)| == |Normalized(rs, eps)|
    ensures forall k :: 0 <= k < |rs| ==> Normalized(ts, eps)[k] == Normalized(rs, eps)[k]
  {
    if rs != [] {
      ShiftedCentroid(rs, ts, tx, tz);
      var cx, cz := Mean(Xs(rs)), Mean(Zs(rs));
      forall k | 0 <= k < |rs| ensures Normalized(ts, eps)[k] == Normalized(rs, eps)[k] {
        NormalizeRecordShift(rs[k], tx, tz, cx, cz, eps);
      }
    }
  }

  /** After normalisation the X/Z centroid is within 1/2 LDU of the origin on each axis. */
  lemma NormalizedCentroidNearOrigin(rs: seq<Type1>, eps: real)
    requires rs != []
    ensures -0.5 <= Mean(Xs(Normalized(rs, eps))) <= 0.5
    ensures -0.5 <= Mean(Zs(Normalized(rs, eps))) <= 0.5
  {
    var out := Normalized(rs, eps);
    CentredMeanBound(Xs(rs), Xs(out), Mean(Xs(rs)));
    CentredMeanBound(Zs(rs), Zs(out), Mean(Zs(rs)));
  }

  /** If each ys[k] is within 1/2 of xs[k] - c with c the mean of xs, the mean of ys is within 1/2 of 0. */
  lemma CentredMeanBound(xs: seq<real>, ys: seq<real>, c: real)
    requires xs != [] && |xs| == |ys| && c == Mean(xs)
    requires forall k :: 0 <= k < |xs| ==> -0.5 <= ys[k] - (xs[k] - c) <= 0.5
    ensures -0.5 <= Mean(ys) <= 0.5
  {
    var n := |xs| as real;
    var centred := seq(|xs|, k requires 0 <= k < |xs| => xs[k] - c);
    MeanShift(xs, centred, -c);
    QuotientBound(Sum(centred), n, 0.0);
    SumBoundedAbove(centred, ys, 0.5);
    SumBoundedAbove(ys, centred, 0.5);
    QuotientBound(Sum(ys), n, 0.5);
  }

  /** Dividing by a positive n maps the interval [-n*e, n*e] onto [-e, e]. */
  lemma QuotientBound(s: real, n: real, e: real)
    requires n > 0.0
    ensures -n * e <= s <= n * e <==> -e <= s / n <= e
  {
    var q := s / n;
    assert s == q * n;
    assert n * e - s == n * (e - q);
    assert s + n * e == n * (q + e);
  }
}
