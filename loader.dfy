/** The line loop shared by load_template (template.py) and load_minifig_template
    (minifig.py): strip each line, skip blank lines and "0" lines, parse "1 " lines in
    order, and fail when no record was read. The record parser is a parameter (both
    loaders pass LDrawType1.parse, LDraw.ParseType1), so the loop's properties hold for
    any parser; the lemmas at the end specialise them to ParseType1. */
module Loader {
  import opened Wrappers
  import opened Text
  import opened LDraw

  /** The lines a loader parses. After strip(), a blank line or one starting with "0" is
      skipped, one starting with "1 " is parsed, and every other line is ignored. */
  predicate IsRecordLine(line: string) {
    var raw := Strip(line);
    if raw == [] || raw[0] == '0' then false
    else StartsWith(raw, "1 ")
  }

  /** The loop over the lines: the record lines are parsed (stripped) and kept in order;
      the first one that fails to parse is the error. */
  function LoadLines(lines: seq<string>, parse: string -> Result<Type1>): Result<seq<Type1>> {
    if lines == [] then Ok([])
    else
      match LoadLines(lines[..|lines| - 1], parse)
      case Err(e) => Err(e)
      case Ok(items) =>
        var line := lines[|lines| - 1];
        if IsRecordLine(line) then
          match parse(Strip(line))
          case Err(e) => Err(e)
          case Ok(p) => Ok(items + [p])
        else Ok(items)
  }

  /** A loader's result: the records, or NoType1Lines when there are none. */
  function LoadRecords(lines: seq<string>, parse: string -> Result<Type1>): Result<seq<Type1>> {
    match LoadLines(lines, parse)
    case Err(e) => Err(e)
    case Ok(items) => if items == [] then Err(NoType1Lines) else Ok(items)
  }

  /** The loop itself: strip, skip, parse in order, fail on an empty result. */
  method LoadType1Lines(lines: seq<string>, parse: string -> Result<Type1>) returns (r: Result<seq<Type1>>)
    ensures r == LoadRecords(lines, parse)
  {
    var items: seq<Type1> := [];
    var n := 0;
    while n < |lines|
      invariant 0 <= n <= |lines|
      invariant LoadLines(lines[..n], parse) == Ok(items)
    {
      LoadLinesStep(lines, n, parse);
      var raw := Strip(lines[n]);
      if raw == [] || raw[0] == '0' {
        assert !IsRecordLine(lines[n]);
        assert LoadLines(lines[..n + 1], parse) == Ok(items);
      } else if StartsWith(raw, "1 ") {
        assert IsRecordLine(lines[n]);
        var rec := parse(raw);
        if rec.Err? {
          LoadLinesErrPersists(lines, n + 1, parse);
          return Err(rec.error);
        }
        assert LoadLines(lines[..n + 1], parse) == Ok(items + [rec.value]);
        items := items + [rec.value];
      } else {
        assert !IsRecordLine(lines[n]);
        assert LoadLines(lines[..n + 1], parse) == Ok(items);
      }
      n := n + 1;
    }
    assert lines[..n] == lines;
    if items == [] {
      return Err(NoType1Lines);
    }
    return Ok(items);
  }

  /** One step of the loop: line n is skipped, or parsed and appended. */
  lemma LoadLinesStep(lines: seq<string>, n: nat, parse: string -> Result<Type1>)
    requires n < |lines|
    ensures var line, before, after := lines[n], LoadLines(lines[..n], parse), LoadLines(lines[..n + 1], parse);
      (!IsRecordLine(line) ==> after == before)
      && (IsRecordLine(line) && before.Ok? ==>
            after == match parse(Strip(line)) case Err(e) => Err(e) case Ok(p) => Ok(before.value + [p]))
  {
    assert lines[..n + 1][..n] == lines[..n];
  }

  /** Once a prefix of the source fails to load, the whole source fails with the same error. */
  lemma {:induction false} LoadLinesErrPersists(lines: seq<string>, i: nat, parse: string -> Result<Type1>)
    requires i <= |lines| && LoadLines(lines[..i], parse).Err?
    ensures LoadLines(lines, parse) == LoadLines(lines[..i], parse)
    decreases |lines| - i
  {
    if i < |lines| {
      assert lines[..i + 1][..i] == lines[..i];
      LoadLinesErrPersists(lines, i + 1, parse);
    } else {
      assert lines[..i] == lines;
    }
  }

  /** The record lines of a source, stripped, in order. */
  function RecordLines(lines: seq<string>): (rs: seq<string>)
    ensures forall k :: 0 <= k < |rs| ==> StartsWith(rs[k], "1 ")
  {
    if lines == [] then []
    else RecordLines(lines[..|lines| - 1]) + (if IsRecordLine(lines[|lines| - 1]) then [Strip(lines[|lines| - 1])] else [])
  }

  /** Every record line of the source appears, stripped, among the record lines. */
  lemma {:induction false} RecordLinesMember(lines: seq<string>, k: nat) returns (i: nat)
    requires k < |lines| && IsRecordLine(lines[k])
    ensures i < |RecordLines(lines)| && RecordLines(lines)[i] == Strip(lines[k])
  {
    var init := lines[..|lines| - 1];
    if k < |lines| - 1 {
      assert init[k] == lines[k];
      i := RecordLinesMember(init, k);
      assert RecordLines(lines)[..|RecordLines(init)|] == RecordLines(init);
    } else {
      i := |RecordLines(init)|;
    }
  }

  /** The records of a sequence of parse outcomes: all of them when every outcome is a
      record, otherwise the error of the first outcome that is not. */
  function Collect(ps: seq<Result<Type1>>): (r: Result<seq<Type1>>)
    ensures r.Ok? <==> forall k :: 0 <= k < |ps| ==> ps[k].Ok?
    ensures r.Ok? ==> |r.value| == |ps| && forall k :: 0 <= k < |ps| ==> ps[k] == Ok(r.value[k])
    ensures r.Err? ==> exists k :: 0 <= k < |ps| && ps[k] == Err(r.error) && forall j :: 0 <= j < k ==> ps[j].Ok?
  {
    if ps == [] then Ok([])
    else
      var init := ps[..|ps| - 1];
      assert forall k :: 0 <= k < |init| ==> init[k] == ps[k];
      match Collect(init)
      case Err(e) => Err(e)
      case Ok(items) =>
        match ps[|ps| - 1]
        case Err(e) => Err(e)
        case Ok(p) => Ok(items + [p])
  }

  /** Collecting one more outcome: an earlier error stays, otherwise the new outcome's
      error or its record is added. */
  lemma CollectSnoc(ps: seq<Result<Type1>>, q: Result<Type1>)
    ensures Collect(ps + [q]) ==
      match Collect(ps)
      case Err(e) => Err(e)
      case Ok(items) => (match q case Err(e) => Err(e) case Ok(p) => Ok(items + [p]))
  {
    assert (ps + [q])[..|ps|] == ps;
  }

  /** The parse outcome of each line. */
  function ParseEach(rs: seq<string>, parse: string -> Result<Type1>): (ps: seq<Result<Type1>>)
    ensures |ps| == |rs| && forall k :: 0 <= k < |rs| ==> ps[k] == parse(rs[k])
  {
    seq(|rs|, k requires 0 <= k < |rs| => parse(rs[k]))
  }

  /** Loading is filtering then parsing: the load result collects the parses of the
      record lines, in order (with Collect's contract: it fails exactly when some record
      line does not parse, and then with the first such line's error). */
  lemma {:induction false} LoadLinesIsFilterThenParse(lines: seq<string>, parse: string -> Result<Type1>)
    ensures LoadLines(lines, parse) == Collect(ParseEach(RecordLines(lines), parse))
  {
    if lines != [] {
      var init := lines[..|lines| - 1];
      var last := lines[|lines| - 1];
      LoadLinesIsFilterThenParse(init, parse);
      var rs0 := RecordLines(init);
      if IsRecordLine(last) {
        assert RecordLines(lines) == rs0 + [Strip(last)];
        assert ParseEach(rs0 + [Strip(last)], parse) == ParseEach(rs0, parse) + [parse(Strip(last))];
        CollectSnoc(ParseEach(rs0, parse), parse(Strip(last)));
      } else {
        assert RecordLines(lines) == rs0;
      }
    }
  }

  /** With LDrawType1.parse as the parser, a loader fails with NoType1Lines exactly when
      the source has no record line (parse reports only NotType1Line and BadNumber). */
  lemma LoadRecordsEmpty(lines: seq<string>)
    ensures LoadRecords(lines, ParseType1) == Err(NoType1Lines) <==> RecordLines(lines) == []
  {
    LoadLinesIsFilterThenParse(lines, ParseType1);
  }

  /** A record line with fewer than 15 tokens makes the whole load fail. */
  lemma LoadRecordsShortLine(lines: seq<string>, k: nat)
    requires k < |lines| && IsRecordLine(lines[k]) && |Tokens(Strip(lines[k]))| < 15
    ensures LoadRecords(lines, ParseType1).Err?
  {
    LoadLinesIsFilterThenParse(lines, ParseType1);
    var i := RecordLinesMember(lines, k);
    StripUnchanged(Strip(lines[k]));
    assert ParseType1(RecordLines(lines)[i]).Err?;
  }
}
