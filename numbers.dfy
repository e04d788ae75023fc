/** Numbers as the program reads, writes and rounds them: Python's int(token),
    float(token), str(float) and round(x), and the sum and mean of a list.
    Python floats are modelled as exact reals. */
module Numbers {
  import opened Wrappers

  predicate IsDigit(c: char) {
    '0' <= c <= '9'
  }

  /** Every character is a decimal digit. */
  predicate AllDigits(s: string) {
    s == [] || (AllDigits(s[..|s| - 1]) && IsDigit(s[|s| - 1]))
  }

  lemma {:induction false} AllDigitsAt(s: string)
    ensures AllDigits(s) <==> forall k :: 0 <= k < |s| ==> IsDigit(s[k])
  {
    if s != [] {
      var init := s[..|s| - 1];
      AllDigitsAt(init);
      assert forall k :: 0 <= k < |init| ==> init[k] == s[k];
    }
  }

  function DigitChar(d: nat): (c: char)
    requires d < 10
    ensures IsDigit(c) && c as int - '0' as int == d
  {
    ('0' as int + d) as char
  }

  function Pow10(k: nat): (p: nat)
    ensures p >= 1
  {
    if k == 0 then 1 else 10 * Pow10(k - 1)
  }

  /** The value of a string of decimal digits, most significant first ("" is 0). */
  function DigitsValue(s: string): nat
    requires AllDigits(s)
  {
    if s == [] then 0 else 10 * DigitsValue(s[..|s| - 1]) + (s[|s| - 1] as int - '0' as int)
  }

  /** The decimal rendering of n without leading zeros ("0" for zero). */
  function NatToDigits(n: nat): (s: string)
    ensures s != [] && AllDigits(s)
    ensures DigitsValue(s) == n
    ensures s[0] == '0' ==> n == 0
  {
    if n < 10 then [DigitChar(n)]
    else
      var s := NatToDigits(n / 10) + [DigitChar(n % 10)];
      assert s[..|s| - 1] == NatToDigits(n / 10);
      s
  }

  /** r rendered with exactly k digits, zero-padded on the left. */
  function PadDigits(r: nat, k: nat): (s: string)
    requires r < Pow10(k)
    ensures |s| == k && AllDigits(s)
    ensures DigitsValue(s) == r
  {
    if k == 0 then ""
    else
      var s := PadDigits(r / 10, k - 1) + [DigitChar(r % 10)];
      assert s[..|s| - 1] == PadDigits(r / 10, k - 1);
      s
  }

  /** The value of the digits after a decimal point. */
  function FracValue(s: string): real
    requires AllDigits(s)
  {
    DigitsValue(s) as real / Pow10(|s|) as real
  }

  /** A trailing zero does not change the value of a fraction. */
  lemma FracValueTrailingZero(s: string)
    requires AllDigits(s) && s != [] && s[|s| - 1] == '0'
    ensures AllDigits(s[..|s| - 1]) && FracValue(s) == FracValue(s[..|s| - 1])
  {
    var p := s[..|s| - 1];
    var d, q := DigitsValue(p) as real, Pow10(|p|) as real;
    assert DigitsValue(s) as real == 10.0 * d;
    assert Pow10(|s|) as real == 10.0 * q;
    var v := d / q;
    assert 10.0 * d == v * (10.0 * q);
  }

  /** Drop trailing zeros of a fraction, keeping at least one digit. */
  function TrimZeros(s: string): (t: string)
    requires AllDigits(s) && s != []
    ensures AllDigits(t) && t != []
  {
    if |s| > 1 && s[|s| - 1] == '0' then TrimZeros(s[..|s| - 1]) else s
  }

  /** Dropping trailing zeros keeps the value of the fraction. */
  lemma {:induction false} TrimZerosValue(s: string)
    requires AllDigits(s) && s != []
    ensures FracValue(TrimZeros(s)) == FracValue(s)
  {
    if |s| > 1 && s[|s| - 1] == '0' {
      FracValueTrailingZero(s);
      TrimZerosValue(s[..|s| - 1]);
    }
  }

  /** int(n) printed by str(): optional minus sign and the digits. */
  function ShowInt(n: int): string {
    if n < 0 then "-" + NatToDigits(-n) else NatToDigits(n)
  }

  /** int(token): an optional sign followed by at least one digit. */
  function ParseInt(tok: string): Option<int> {
    var neg := tok != [] && tok[0] == '-';
    var body := if tok != [] && (tok[0] == '-' || tok[0] == '+') then tok[1..] else tok;
    if body != [] && AllDigits(body) then
      var v: int := DigitsValue(body);
      Some(if neg then -v else v)
    else None
  }

  lemma ParseShowInt(n: int)
    ensures ParseInt(ShowInt(n)) == Some(n)
  {
    AllDigitsAt(NatToDigits(if n < 0 then -n else n));
    if n < 0 {
      assert ShowInt(n)[1..] == NatToDigits(-n);
    }
  }

  /** The position of the first '.' in s. */
  function DotIndex(s: string): (r: Option<nat>)
    ensures r.Some? ==> r.value < |s|
  {
    if s == [] then None
    else if s[0] == '.' then Some(0)
    else match DotIndex(s[1..])
      case None => None
      case Some(i) => Some(i + 1)
  }

  /** After a run of digits, the first '.' is the one that ends the run. */
  lemma {:induction false} DotIndexAfterDigits(ds: string, rest: string)
    requires AllDigits(ds) && rest != [] && rest[0] == '.'
    ensures DotIndex(ds + rest) == Some(|ds|)
  {
    if ds != [] {
      AllDigitsAt(ds);
      AllDigitsAt(ds[1..]);
      assert (ds + rest)[0] == ds[0];
      assert (ds + rest)[1..] == ds[1..] + rest;
      DotIndexAfterDigits(ds[1..], rest);
    } else {
      assert ds + rest == rest;
    }
  }

  /** An unsigned decimal literal: digits with an optional fraction ("12", "3.", ".25"). */
  function ParseMagnitude(body: string): Option<real> {
    match DotIndex(body)
    case None =>
      if body != [] && AllDigits(body) then Some(DigitsValue(body) as real) else None
    case Some(i) =>
      var ip, fp := body[..i], body[i + 1..];
      if AllDigits(ip) && AllDigits(fp) && (ip != [] || fp != [])
      then Some(DigitsValue(ip) as real + FracValue(fp))
      else None
  }

  /** float(token) for decimal literals: an optional sign, then an unsigned decimal
      literal ("12", "-0.5", "+3.", ".25"); anything else is not a number. */
  function ParseNumber(tok: string): Option<real> {
    var neg := tok != [] && tok[0] == '-';
    var body := if tok != [] && (tok[0] == '-' || tok[0] == '+') then tok[1..] else tok;
    match ParseMagnitude(body)
    case None => None
    case Some(m) => Some(if neg then -m else m)
  }

  lemma ParseMagnitudeDecimal(ds: string, t: string)
    requires ds != [] && AllDigits(ds) && AllDigits(t)
    ensures ParseMagnitude(ds + "." + t) == Some(DigitsValue(ds) as real + FracValue(t))
  {
    var body := ds + ("." + t);
    assert body == ds + "." + t;
    DotIndexAfterDigits(ds, "." + t);
    assert body[..|ds|] == ds && body[|ds| + 1..] == t;
  }

  /** x has at most six digits after the decimal point. */
  predicate IsSixDecimal(x: real) {
    (x * 1000000.0).Floor as real == x * 1000000.0
  }

  /** The digits of |x| after the decimal point, to six places. */
  function SixDigitFraction(a: real): (f: nat)
    requires a >= 0.0
    ensures f < Pow10(6)
  {
    Pow10Six();
    ((a - a.Floor as real) * 1000000.0).Floor
  }

  /** |x| printed: integer digits, '.', and the fraction without trailing zeros but
      with at least one digit. */
  function FormatMagnitude(a: real): string
    requires a >= 0.0
  {
    var n: nat := a.Floor;
    NatToDigits(n) + "." + TrimZeros(PadDigits(SixDigitFraction(a), 6))
  }

  /** str(x) for a float: an optional minus sign and the magnitude ("4.0", "-30.0",
      "0.5"). Exact for values with at most six fractional digits; others are cut to six
      digits. */
  function FormatNumber(x: real): string {
    if x < 0.0 then "-" + FormatMagnitude(-x) else FormatMagnitude(x)
  }

  lemma SixDecimalFraction(a: real)
    requires a >= 0.0 && IsSixDecimal(a)
    ensures SixDigitFraction(a) as real == (a - a.Floor as real) * 1000000.0
  {
    var m := (a * 1000000.0).Floor;
    var n := a.Floor;
    var g := (a - n as real) * 1000000.0;
    assert g == m as real - (n * 1000000) as real;
    assert g.Floor == m - n * 1000000;
  }

  lemma Pow10Six()
    ensures Pow10(6) == 1000000
  {
  }

  /** Six zero-padded digits of f are worth f millionths. */
  lemma PadSixValue(f: nat)
    requires f < 1000000
    ensures Pow10(6) == 1000000 && FracValue(PadDigits(f, 6)) == f as real / 1000000.0
  {
    Pow10Six();
  }

  /** The printed fraction digits of a six-decimal value are worth its fractional part. */
  lemma FractionDigitsValue(a: real)
    requires a >= 0.0 && IsSixDecimal(a)
    ensures FracValue(TrimZeros(PadDigits(SixDigitFraction(a), 6))) == a - a.Floor as real
  {
    var f := SixDigitFraction(a);
    SixDecimalFraction(a);
    PadSixValue(f);
    TrimZerosValue(PadDigits(f, 6));
  }

  lemma ParseFormatMagnitude(a: real)
    requires a >= 0.0 && IsSixDecimal(a)
    ensures ParseMagnitude(FormatMagnitude(a)) == Some(a)
  {
    FractionDigitsValue(a);
    ParseMagnitudeDecimal(NatToDigits(a.Floor), TrimZeros(PadDigits(SixDigitFraction(a), 6)));
  }

  /** A printed magnitude starts with a digit, never with a sign. */
  lemma FormatMagnitudeUnsigned(a: real)
    requires a >= 0.0
    ensures FormatMagnitude(a) != [] && IsDigit(FormatMagnitude(a)[0])
  {
    var ds := NatToDigits(a.Floor);
    AllDigitsAt(ds);
    assert FormatMagnitude(a)[0] == ds[0];
  }

  lemma SixDecimalNegate(x: real)
    requires IsSixDecimal(x)
    ensures IsSixDecimal(-x)
  {
    var m := (x * 1000000.0).Floor;
    assert (-x) * 1000000.0 == (-m) as real;
  }

  /** float() of a signed literal is the literal's magnitude with the sign applied. */
  lemma ParseNumberSigned(body: string)
    requires body != [] && body[0] != '-' && body[0] != '+'
    ensures ParseNumber(body) == ParseMagnitude(body)
    ensures ParseNumber("-" + body) == match ParseMagnitude(body) case None => None case Some(m) => Some(-m)
  {
    assert ("-" + body)[1..] == body;
  }

  /** Reading back a printed number gives the number, for at most six fractional digits. */
  lemma ParseFormatNumber(x: real)
    requires IsSixDecimal(x)
    ensures ParseNumber(FormatNumber(x)) == Some(x)
  {
    var a := if x < 0.0 then -x else x;
    if x < 0.0 {
      SixDecimalNegate(x);
    }
    ParseFormatMagnitude(a);
    FormatMagnitudeUnsigned(a);
    ParseNumberSigned(FormatMagnitude(a));
  }

  lemma IntegralIsSixDecimal(k: int)
    ensures IsSixDecimal(k as real)
  {
    var m := k * 1000000;
    assert k as real * 1000000.0 == m as real;
    assert (m as real).Floor == m;
  }

  /** Python's round(v) for one argument: the nearest integer, ties to the even one. */
  function RoundHalfEven(v: real): (r: int)
    ensures -0.5 <= r as real - v <= 0.5
    ensures (r as real - v == 0.5 || r as real - v == -0.5) ==> r % 2 == 0
  {
    var f := v.Floor;
    var d := v - f as real;
    if d < 0.5 then f
    else if d > 0.5 then f + 1
    else if f % 2 == 0 then f
    else f + 1
  }

  /** The two properties of RoundHalfEven determine it: any integer within 1/2 of v that
      is even on a tie is RoundHalfEven(v). */
  lemma RoundHalfEvenUnique(v: real, k: int)
    requires -0.5 <= k as real - v <= 0.5
    requires (k as real - v == 0.5 || k as real - v == -0.5) ==> k % 2 == 0
    ensures RoundHalfEven(v) == k
  {
  }

  lemma RoundOfInteger(k: int)
    ensures RoundHalfEven(k as real) == k
  {
    RoundHalfEvenUnique(k as real, k);
  }

  /** Python's sum() of a list of floats. */
  function Sum(xs: seq<real>): real {
    if xs == [] then 0.0 else Sum(xs[..|xs| - 1]) + xs[|xs| - 1]
  }

  /** The arithmetic mean, sum(xs) / len(xs); Python fails on an empty list. */
  function Mean(xs: seq<real>): real
    requires xs != []
  {
    Sum(xs) / |xs| as real
  }

  /** Adding t to every element adds len * t to the sum. */
  lemma {:induction false} SumShift(xs: seq<real>, ys: seq<real>, t: real)
    requires |xs| == |ys|
    requires forall k :: 0 <= k < |xs| ==> ys[k] == xs[k] + t
    ensures Sum(ys) == Sum(xs) + |xs| as real * t
  {
    if xs != [] {
      var n := |xs|;
      SumShift(xs[..n - 1], ys[..n - 1], t);
      assert (n - 1) as real * t + t == n as real * t;
    }
  }

  lemma MeanShift(xs: seq<real>, ys: seq<real>, t: real)
    requires xs != [] && |xs| == |ys|
    requires forall k :: 0 <= k < |xs| ==> ys[k] == xs[k] + t
    ensures Mean(ys) == Mean(xs) + t
  {
    SumShift(xs, ys, t);
    var n := |xs| as real;
    assert Sum(ys) / n == (Sum(xs) + n * t) / n;
  }

  /** Each element of ys exceeds its counterpart in xs by at most e, so the sums do by at most len * e. */
  lemma {:induction false} SumBoundedAbove(xs: seq<real>, ys: seq<real>, e: real)
    requires |xs| == |ys|
    requires forall k :: 0 <= k < |xs| ==> ys[k] - xs[k] <= e
    ensures Sum(ys) - Sum(xs) <= |xs| as real * e
  {
    if xs != [] {
      var n := |xs|;
      SumBoundedAbove(xs[..n - 1], ys[..n - 1], e);
      assert (n - 1) as real * e + e == n as real * e;
    }
  }
}
