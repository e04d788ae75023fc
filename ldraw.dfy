/** The LDraw type-1 line ("1 color x y z a b c d e f g h i part"): the record,
    its parser and its serialiser, and the loader that reads a template's lines.
    The same record, parser and loader appear in template.py and minifig.py. */
module LDraw {
  import opened Wrappers
  import opened Text
  import opened Numbers

  datatype Vec3 = Vec3(x: real, y: real, z: real)

  /** A 3x3 orientation matrix, row by row: (a b c / d e f / g h i). */
  datatype Mat3 = Mat3(a: real, b: real, c: real, d: real, e: real, f: real, g: real, h: real, i: real)

  const IDENTITY: Mat3 := Mat3(1.0, 0.0, 0.0, 0.0, 1.0, 0.0, 0.0, 0.0, 1.0)

  function Add(u: Vec3, v: Vec3): Vec3 {
    Vec3(u.x + v.x, u.y + v.y, u.z + v.z)
  }

  function Sub(u: Vec3, v: Vec3): Vec3 {
    Vec3(u.x - v.x, u.y - v.y, u.z - v.z)
  }

  function Dot(u: Vec3, v: Vec3): real {
    u.x * v.x + u.y * v.y + u.z * v.z
  }

  /** The matrix applied to a column vector: (a*x + b*y + c*z, d*x + e*y + f*z, g*x + h*y + i*z). */
  function Apply(m: Mat3, v: Vec3): Vec3 {
    Vec3(m.a * v.x + m.b * v.y + m.c * v.z,
         m.d * v.x + m.e * v.y + m.f * v.z,
         m.g * v.x + m.h * v.y + m.i * v.z)
  }

  /** The matrix product r * m. */
  function Compose(r: Mat3, m: Mat3): Mat3 {
    Mat3(r.a * m.a + r.b * m.d + r.c * m.g, r.a * m.b + r.b * m.e + r.c * m.h, r.a * m.c + r.b * m.f + r.c * m.i,
         r.d * m.a + r.e * m.d + r.f * m.g, r.d * m.b + r.e * m.e + r.f * m.h, r.d * m.c + r.e * m.f + r.f * m.i,
         r.g * m.a + r.h * m.d + r.i * m.g, r.g * m.b + r.h * m.e + r.i * m.h, r.g * m.c + r.h * m.f + r.i * m.i)
  }

  function Transpose(m: Mat3): Mat3 {
    Mat3(m.a, m.d, m.g, m.b, m.e, m.h, m.c, m.f, m.i)
  }

  function Det(m: Mat3): real {
    m.a * (m.e * m.i - m.f * m.h) - m.b * (m.d * m.i - m.f * m.g) + m.c * (m.d * m.h - m.e * m.g)
  }

  /** One placed part: colour code, position in LDU, orientation, part reference. */
  datatype Type1 = Type1(color: int, pos: Vec3, m: Mat3, partId: string)

  /** The twelve numeric fields in line order: x y z a b c d e f g h i. */
  function NumericFields(p: Type1): seq<real> {
    [p.pos.x, p.pos.y, p.pos.z, p.m.a, p.m.b, p.m.c, p.m.d, p.m.e, p.m.f, p.m.g, p.m.h, p.m.i]
  }

  /** The record with the given colour, twelve numeric fields in line order, and part id. */
  function FromFields(color: int, v: seq<real>, partId: string): (p: Type1)
    requires |v| == 12
    ensures NumericFields(p) == v && p.color == color && p.partId == partId
  {
    Type1(color, Vec3(v[0], v[1], v[2]), Mat3(v[3], v[4], v[5], v[6], v[7], v[8], v[9], v[10], v[11]), partId)
  }

  /** float() of each token in order; the first token that is not a number is the error. */
  function ParseNumbers(ts: seq<string>): (r: Result<seq<real>>)
    ensures r.Ok? ==> |r.value| == |ts|
    ensures r.Err? ==> r.error.BadNumber?
  {
    if ts == [] then Ok([])
    else match ParseNumber(ts[0])
      case None => Err(BadNumber(ts[0]))
      case Some(v) =>
        match ParseNumbers(ts[1..])
        case Err(e) => Err(e)
        case Ok(vs) => Ok([v] + vs)
  }

  /** When every token reads as a number, ParseNumbers gives those numbers in order. */
  lemma {:induction false} ParseNumbersOk(ts: seq<string>, vs: seq<real>)
    requires |vs| == |ts| && forall k :: 0 <= k < |ts| ==> ParseNumber(ts[k]) == Some(vs[k])
    ensures ParseNumbers(ts) == Ok(vs)
  {
    if ts != [] {
      var ts', vs' := ts[1..], vs[1..];
      assert forall k :: 0 <= k < |ts'| ==> ts'[k] == ts[k + 1] && vs'[k] == vs[k + 1];
      ParseNumbersOk(ts', vs');
      assert vs == [vs[0]] + vs';
    }
  }

  /** A successful ParseNumbers read every token as a number. */
  lemma {:induction false} ParseNumbersValues(ts: seq<string>)
    ensures ParseNumbers(ts).Ok? ==> forall k :: 0 <= k < |ts| ==> ParseNumber(ts[k]) == Some(ParseNumbers(ts).value[k])
  {
    if ts != [] && ParseNumbers(ts).Ok? {
      var ts' := ts[1..];
      ParseNumbersValues(ts');
      assert forall k :: 1 <= k < |ts| ==> ts[k] == ts'[k - 1];
    }
  }

  /** ParseNumbers fails exactly when some token is not a number, and then reports the
      first such token. */
  lemma {:induction false} ParseNumbersFirstBad(ts: seq<string>)
    ensures ParseNumbers(ts).Err? <==> exists k :: 0 <= k < |ts| && ParseNumber(ts[k]).None?
    ensures ParseNumbers(ts).Err? ==>
      exists k :: 0 <= k < |ts| && ParseNumbers(ts).error == BadNumber(ts[k]) && ParseNumber(ts[k]).None?
                  && forall j :: 0 <= j < k ==> ParseNumber(ts[j]).Some?
  {
    if ts != [] {
      var ts' := ts[1..];
      ParseNumbersFirstBad(ts');
      if ParseNumber(ts[0]).None? {
        assert ParseNumbers(ts) == Err(BadNumber(ts[0]));
      } else if ParseNumbers(ts').Err? {
        var k :| 0 <= k < |ts'| && ParseNumbers(ts').error == BadNumber(ts'[k]) && ParseNumber(ts'[k]).None?
                 && forall j :: 0 <= j < k ==> ParseNumber(ts'[j]).Some?;
        assert ts[k + 1] == ts'[k];
        assert ParseNumbers(ts).error == BadNumber(ts[k + 1]) && ParseNumber(ts[k + 1]).None?;
        forall j | 0 <= j < k + 1 ensures ParseNumber(ts[j]).Some? {
          if j > 0 { assert ts[j] == ts'[j - 1]; }
        }
      } else {
        assert ParseNumbers(ts).Ok?;
        forall k | 0 <= k < |ts| ensures ParseNumber(ts[k]).Some? {
          if k > 0 { assert ts[k] == ts'[k - 1]; }
        }
      }
    }
  }

  /** The record read from the tokens of a line: tokens 1..14 as color, x, y, z, a..i,
      part id (int for the colour, float for the twelve numbers); further tokens are ignored. */
  function RecordOfTokens(line: string, ts: seq<string>): (r: Result<Type1>)
    ensures r.Err? ==> r.error.NotType1Line? || r.error.BadNumber?
    ensures r.Ok? ==>
      (|ts| >= 15 && ts[0] == "1"
       && ParseInt(ts[1]) == Some(r.value.color)
       && ParseNumbers(ts[2..14]) == Ok(NumericFields(r.value))
       && r.value.partId == ts[14])
    ensures (|ts| < 15 || ts[0] != "1") <==> r == Err(NotType1Line(line))
  {
    if |ts| < 15 || ts[0] != "1" then Err(NotType1Line(line))
    else match ParseInt(ts[1])
      case None => Err(BadNumber(ts[1]))
      case Some(color) =>
        match ParseNumbers(ts[2..14])
        case Err(e) => Err(e)
        case Ok(v) => Ok(FromFields(color, v, ts[14]))
  }

  /** LDrawType1.parse: split the stripped line on whitespace; reject fewer than 15 tokens
      or a first token other than "1"; otherwise read the record from the tokens. */
  function ParseType1(line: string): (r: Result<Type1>)
    ensures r.Ok? ==> IsWord(r.value.partId)
    ensures r.Err? ==> r.error.NotType1Line? || r.error.BadNumber?
  {
    RecordOfTokens(line, Tokens(Strip(line)))
  }

  /** The tokens of a serialised line: "1", the colour, the twelve numbers, the part id. */
  function LineTokens(p: Type1): seq<string> {
    ["1", ShowInt(p.color)] + seq(12, k requires 0 <= k < 12 => FormatNumber(NumericFields(p)[k])) + [p.partId]
  }

  /** to_line: "1" then the fourteen fields in the order parse reads them, separated by
      spaces. When the part id is one token, stripping and splitting the line gives those
      fifteen fields back. */
  function FormatType1(p: Type1): (line: string)
    ensures IsWord(p.partId) ==> Tokens(Strip(line)) == LineTokens(p)
  {
    var ts := LineTokens(p);
    if IsWord(p.partId) then
      LineTokensAreWords(p);
      JoinWordsEnds(ts);
      StripUnchanged(JoinWords(ts));
      TokensOfJoin(ts);
      JoinWords(ts)
    else JoinWords(ts)
  }

  /** A record that survives a round trip through its text: every number has at most six
      fractional digits (in particular every integer does) and the part id is one token. */
  predicate RoundTrips(p: Type1) {
    IsWord(p.partId) && forall k :: 0 <= k < 12 ==> IsSixDecimal(NumericFields(p)[k])
  }

  lemma ShowIntIsWord(n: int)
    ensures IsWord(ShowInt(n))
  {
    var ds := NatToDigits(if n < 0 then -n else n);
    AllDigitsAt(ds);
    assert forall k :: 0 <= k < |ds| ==> !IsSpace(ds[k]);
    if n < 0 {
      assert forall k :: 1 <= k < |ShowInt(n)| ==> ShowInt(n)[k] == ds[k - 1];
    }
  }

  lemma FormatNumberIsWord(x: real)
    ensures IsWord(FormatNumber(x))
  {
    var a := if x < 0.0 then -x else x;
    var n: nat := a.Floor;
    var ds := NatToDigits(n);
    var t := TrimZeros(PadDigits(SixDigitFraction(a), 6));
    var m := ds + "." + t;
    AllDigitsAt(ds);
    AllDigitsAt(t);
    assert m == FormatMagnitude(a);
    assert forall k :: 0 <= k < |m| ==> !IsSpace(m[k]) by {
      forall k | 0 <= k < |m| ensures !IsSpace(m[k]) {
        if k < |ds| { assert m[k] == ds[k]; }
        else if k > |ds| { assert m[k] == t[k - |ds| - 1]; }
      }
    }
    if x < 0.0 {
      assert forall k :: 1 <= k < |"-" + m| ==> ("-" + m)[k] == m[k - 1];
    }
  }

  /** Every token of a serialised record is one split() token. */
  lemma LineTokensAreWords(p: Type1)
    requires IsWord(p.partId)
    ensures |LineTokens(p)| == 15
    ensures forall k :: 0 <= k < 15 ==> IsWord(LineTokens(p)[k])
  {
    var ts := LineTokens(p);
    ShowIntIsWord(p.color);
    forall k | 2 <= k < 14 ensures IsWord(ts[k]) {
      FormatNumberIsWord(NumericFields(p)[k - 2]);
    }
  }

  /** The twelve formatted numbers read back as the record's numbers. */
  lemma ParseFormattedNumbers(p: Type1)
    requires RoundTrips(p)
    ensures ParseNumbers(LineTokens(p)[2..14]) == Ok(NumericFields(p))
  {
    var ns := LineTokens(p)[2..14];
    forall k | 0 <= k < 12 ensures ParseNumber(ns[k]) == Some(NumericFields(p)[k]) {
      ParseFormatNumber(NumericFields(p)[k]);
    }
    ParseNumbersOk(ns, NumericFields(p));
  }

  /** parse(to_line(p)) gives p back, for every record whose numbers print exactly. */
  lemma ParseFormatType1(p: Type1)
    requires RoundTrips(p)
    ensures ParseType1(FormatType1(p)) == Ok(p)
  {
    ParseFormattedNumbers(p);
    ParseShowInt(p.color);
    var ts := LineTokens(p);
    assert ts[0] == "1" && ts[14] == p.partId;
    var r := RecordOfTokens(FormatType1(p), ts);
    assert r.Ok?;
  }
}
