/** waterquality/forms.py: `MeasurementBulkForm.clean_data`, which turns
    pasted text, one measurement per line, into measurement records. */
module BulkForm {
  import opened Wrappers
  import opened Text
  import opened Decimal

  /** The cleaned `data` value the method starts from: text, or some other
      value the field produced. */
  datatype Input = Text(text: string) | Other

  /** One parsed line. */
  datatype Row = Row(parameter: string, value: real, unit: string, measuredOn: string)

  /** What `clean_data` returns: the input unchanged when it was not text, or
      the parsed rows. */
  datatype Cleaned = Unchanged | Rows(rows: seq<Row>)

  const FieldCountMessage: string := "Each line must contain exactly 4 fields."

  function NotANumberMessage(value: string): string {
    "Value '" + value + "' is not a valid number."
  }

  /** A line of whitespace only, which is what `not line.strip()` tests
      (see `BlankIsStrippedEmpty`). */
  predicate IsBlank(line: string) {
    forall i :: 0 <= i < |line| ==> IsPySpace(line[i])
  }

  lemma BlankIsStrippedEmpty(line: string)
    ensures IsBlank(line) <==> PyStrip(line) == []
  {
  }

  /** `line.split("\t") if "\t" in line else line.split(",")`. */
  function Fields(line: string): seq<string> {
    if HasChar(line, '\t') then Split(line, '\t') else Split(line, ',')
  }

  /** One non-blank line: exactly four fields, a value `float()` accepts, the
      text fields stripped (the value field is not stripped before `float()`,
      which strips by itself, and is quoted unstripped in the message). */
  function ParseLine(line: string): (r: Result<Row, string>)
    ensures r.Success? <==> |Fields(line)| == 4 && PyFloat(Fields(line)[1]).Some?
    ensures r.Success? ==> r.value.value == PyFloat(Fields(line)[1]).value
    ensures |Fields(line)| != 4 ==> r == Failure(FieldCountMessage)
  {
    var f := Fields(line);
    if |f| != 4 then Failure(FieldCountMessage)
    else match PyFloat(f[1])
      case None => Failure(NotANumberMessage(f[1]))
      case Some(v) => Success(Row(PyStrip(f[0]), v, PyStrip(f[2]), PyStrip(f[3])))
  }

  /** The three outcomes of a line: too few or too many fields, a value that
      is not a number, or the row. */
  lemma ParseLineCases(line: string)
    ensures |Fields(line)| != 4 ==> ParseLine(line) == Failure(FieldCountMessage)
    ensures |Fields(line)| == 4 && PyFloat(Fields(line)[1]).None? ==> ParseLine(line) == Failure(NotANumberMessage(Fields(line)[1]))
    ensures |Fields(line)| == 4 && PyFloat(Fields(line)[1]).Some? ==>
      var f := Fields(line);
      ParseLine(line) == Success(Row(PyStrip(f[0]), PyFloat(f[1]).value, PyStrip(f[2]), PyStrip(f[3])))
  {
  }

  /** The lines that are not blank, in order. */
  function NonBlank(lines: seq<string>): (r: seq<string>)
    ensures |r| <= |lines|
    ensures forall k :: 0 <= k < |r| ==> !IsBlank(r[k])
  {
    if lines == [] then []
    else if IsBlank(lines[0]) then NonBlank(lines[1..])
    else [lines[0]] + NonBlank(lines[1..])
  }

  /** The loop over `lines`, as a recursion: blank lines skipped, each other
      line read by `parse` (`ParseLine` in `clean_data`), the first error
      raised. */
  function CleanLines(lines: seq<string>, parse: string -> Result<Row, string>): (r: Result<seq<Row>, string>)
    ensures r.Success? ==> |r.value| == |NonBlank(lines)|
    ensures r.Failure? ==> exists k :: 0 <= k < |lines| && !IsBlank(lines[k]) && parse(lines[k]) == Failure(r.error)
  {
    if lines == [] then Success([])
    else if IsBlank(lines[0]) then CleanLines(lines[1..], parse)
    else match parse(lines[0])
      case Failure(e) => Failure(e)
      case Success(row) => Prepend([row], CleanLines(lines[1..], parse))
  }

  /** `r` with `rows` in front of its rows; a failure stays as it is. */
  function Prepend(rows: seq<Row>, r: Result<seq<Row>, string>): Result<seq<Row>, string> {
    match r
    case Success(rest) => Success(rows + rest)
    case Failure(e) => Failure(e)
  }

  /** `clean_data`: a `ValidationError` is the `Failure`; input that is not
      text comes back unchanged. */
  function CleanData(data: Input): (r: Result<Cleaned, string>)
    ensures data.Other? ==> r == Success(Unchanged)
    ensures data.Text? ==> (r.Success? <==> CleanLines(SplitLines(data.text), ParseLine).Success?)
    ensures data.Text? && r.Success? ==> r.value == Rows(CleanLines(SplitLines(data.text), ParseLine).value)
    ensures data.Text? && r.Failure? ==> r.error == CleanLines(SplitLines(data.text), ParseLine).error
  {
    match data
    case Other => Success(Unchanged)
    case Text(s) =>
      match CleanLines(SplitLines(s), ParseLine)
      case Success(rows) => Success(Rows(rows))
      case Failure(e) => Failure(e)
  }

  /** The loop itself, appending to `cleaned_data` and raising on the first
      bad line. */
  method CleanDataLoop(data: Input) returns (r: Result<Cleaned, string>)
    ensures r == CleanData(data)
  {
    if data.Other? {
      return Success(Unchanged);
    }
    var rows := CleanLinesLoop(SplitLines(data.text));
    if rows.Failure? {
      return Failure(rows.error);
    }
    return Success(Rows(rows.value));
  }

  method CleanLinesLoop(lines: seq<string>) returns (r: Result<seq<Row>, string>)
    ensures r == CleanLines(lines, ParseLine)
  {
    var cleaned: seq<Row> := [];
    var i := 0;
    assert lines[0..] == lines;
    PrependNothing(CleanLines(lines, ParseLine));
    while i < |lines|
      invariant 0 <= i <= |lines|
      invariant CleanLines(lines, ParseLine) == Prepend(cleaned, CleanLines(lines[i..], ParseLine))
    {
      CleanStep(lines, i);
      var line := lines[i];
      i := i + 1;
      if PyStrip(line) == [] {
        continue;
      }
      var fields := if HasChar(line, '\t') then Split(line, '\t') else Split(line, ',');
      assert fields == Fields(line);
      ParseLineCases(line);
      if |fields| != 4 {
        assert ParseLine(line) == Failure(FieldCountMessage);
        return Failure(FieldCountMessage);
      }
      var value := PyFloat(fields[1]);
      if value.None? {
        assert ParseLine(line) == Failure(NotANumberMessage(fields[1]));
        return Failure(NotANumberMessage(fields[1]));
      }
      var row := Row(PyStrip(fields[0]), value.value, PyStrip(fields[2]), PyStrip(fields[3]));
      PrependTwice(cleaned, row, CleanLines(lines[i..], ParseLine));
      cleaned := cleaned + [row];
    }
    assert lines[i..] == [];
    assert cleaned + [] == cleaned;
    return Success(cleaned);
  }

  lemma CleanStep(lines: seq<string>, i: nat)
    requires i < |lines|
    ensures CleanLines(lines[i..], ParseLine) ==
      if IsBlank(lines[i]) then CleanLines(lines[i + 1..], ParseLine)
      else match ParseLine(lines[i])
        case Failure(e) => Failure(e)
        case Success(row) => Prepend([row], CleanLines(lines[i + 1..], ParseLine))
  {
    assert lines[i..][1..] == lines[i + 1..];
  }

  lemma PrependNothing(r: Result<seq<Row>, string>)
    ensures Prepend([], r) == r
  {
    if r.Success? {
      assert [] + r.value == r.value;
    }
  }

  lemma PrependTwice(rows: seq<Row>, row: Row, r: Result<seq<Row>, string>)
    ensures Prepend(rows, Prepend([row], r)) == Prepend(rows + [row], r)
  {
    if r.Success? {
      assert rows + ([row] + r.value) == rows + [row] + r.value;
    }
  }

  /** Blank lines make no difference: the result is that of the non-blank
      lines alone. */
  lemma {:induction false} BlankLinesSkipped(lines: seq<string>, parse: string -> Result<Row, string>)
    ensures CleanLines(lines, parse) == CleanLines(NonBlank(lines), parse)
    decreases |lines|
  {
    if lines != [] {
      BlankLinesSkipped(lines[1..], parse);
      if !IsBlank(lines[0]) {
        var nb := NonBlank(lines);
        assert nb[0] == lines[0] && nb[1..] == NonBlank(lines[1..]);
      }
    }
  }

  /** One step of the loop on a line that is not blank. */
  lemma HeadStep(ls: seq<string>, parse: string -> Result<Row, string>)
    requires ls != [] && !IsBlank(ls[0])
    ensures CleanLines(ls, parse).Success? <==> parse(ls[0]).Success? && CleanLines(ls[1..], parse).Success?
    ensures CleanLines(ls, parse).Success? ==> CleanLines(ls, parse).value == [parse(ls[0]).value] + CleanLines(ls[1..], parse).value
    ensures parse(ls[0]).Failure? ==> CleanLines(ls, parse) == Failure(parse(ls[0]).error)
    ensures parse(ls[0]).Success? && CleanLines(ls[1..], parse).Failure? ==> CleanLines(ls, parse) == CleanLines(ls[1..], parse)
  {
  }

  predicate NoBlankLines(ls: seq<string>) {
    forall k :: 0 <= k < |ls| ==> !IsBlank(ls[k])
  }

  lemma NoBlankTail(ls: seq<string>)
    requires ls != [] && NoBlankLines(ls)
    ensures !IsBlank(ls[0]) && NoBlankLines(ls[1..])
  {
    forall k | 0 <= k < |ls[1..]|
      ensures !IsBlank(ls[1..][k])
    {
      assert ls[1..][k] == ls[k + 1];
    }
  }

  /** On lines none of which is blank, the result is a success exactly when
      every line parses. */
  lemma {:induction false} AllLinesParse(ls: seq<string>, parse: string -> Result<Row, string>)
    requires NoBlankLines(ls)
    ensures CleanLines(ls, parse).Success? <==> forall k :: 0 <= k < |ls| ==> parse(ls[k]).Success?
    decreases |ls|
  {
    if ls != [] {
      NoBlankTail(ls);
      AllLinesParse(ls[1..], parse);
      HeadStep(ls, parse);
      if !parse(ls[0]).Success? {
      } else if !CleanLines(ls[1..], parse).Success? {
        var k :| 0 <= k < |ls[1..]| && !parse(ls[1..][k]).Success?;
        assert ls[1..][k] == ls[k + 1];
      } else {
        forall k | 0 < k < |ls|
          ensures parse(ls[k]).Success?
        {
          assert ls[k] == ls[1..][k - 1];
        }
      }
    }
  }

  /** A success holds one row per line, in input order. */
  lemma {:induction false} RowsFollowLines(ls: seq<string>, parse: string -> Result<Row, string>)
    requires NoBlankLines(ls)
    requires CleanLines(ls, parse).Success?
    ensures |CleanLines(ls, parse).value| == |ls|
    ensures forall k :: 0 <= k < |ls| ==> parse(ls[k]).Success? && CleanLines(ls, parse).value[k] == parse(ls[k]).value
    decreases |ls|
  {
    if ls != [] {
      NoBlankTail(ls);
      HeadStep(ls, parse);
      RowsFollowLines(ls[1..], parse);
      var rows := CleanLines(ls, parse).value;
      forall k | 0 < k < |ls|
        ensures parse(ls[k]).Success? && rows[k] == parse(ls[k]).value
      {
        assert ls[k] == ls[1..][k - 1];
      }
    }
  }

  /** On lines none of which is blank, a failure is the error of the first
      line that does not parse: earlier lines leave no partial result. */
  lemma {:induction false} FirstBadLineFails(ls: seq<string>, parse: string -> Result<Row, string>)
    requires NoBlankLines(ls)
    requires CleanLines(ls, parse).Failure?
    ensures exists j :: (0 <= j < |ls| && parse(ls[j]).Failure? && CleanLines(ls, parse).error == parse(ls[j]).error
      && forall k :: 0 <= k < j ==> parse(ls[k]).Success?)
    decreases |ls|
  {
    NoBlankTail(ls);
    HeadStep(ls, parse);
    if parse(ls[0]).Failure? {
      assert parse(ls[0]).Failure? && CleanLines(ls, parse).error == parse(ls[0]).error;
    } else {
      FirstBadLineFails(ls[1..], parse);
      var j :| 0 <= j < |ls[1..]| && parse(ls[1..][j]).Failure? && CleanLines(ls[1..], parse).error == parse(ls[1..][j]).error
        && forall k :: 0 <= k < j ==> parse(ls[1..][k]).Success?;
      assert ls[1..][j] == ls[j + 1];
      forall k | 0 <= k < j + 1
        ensures parse(ls[k]).Success?
      {
        if k > 0 {
          assert ls[k] == ls[1..][k - 1];
        }
      }
    }
  }

  /** The loop over any lines: it succeeds exactly when every non-blank line
      parses, and then holds one row per non-blank line, in order; a failure
      carries the error of the first non-blank line that does not parse. */
  lemma LinesFollowNonBlank(lines: seq<string>, parse: string -> Result<Row, string>)
    ensures var nb := NonBlank(lines);
      CleanLines(lines, parse).Success? <==> forall k :: 0 <= k < |nb| ==> parse(nb[k]).Success?
    ensures var nb := NonBlank(lines);
      CleanLines(lines, parse).Success? ==>
        |CleanLines(lines, parse).value| == |nb| &&
        forall k :: 0 <= k < |nb| ==> CleanLines(lines, parse).value[k] == parse(nb[k]).value
    ensures var nb := NonBlank(lines);
      CleanLines(lines, parse).Failure? ==>
        exists j :: 0 <= j < |nb| && parse(nb[j]).Failure? && CleanLines(lines, parse).error == parse(nb[j]).error
          && forall k :: 0 <= k < j ==> parse(nb[k]).Success?
  {
    var nb := NonBlank(lines);
    BlankLinesSkipped(lines, parse);
    AllLinesParse(nb, parse);
    if CleanLines(nb, parse).Success? {
      RowsFollowLines(nb, parse);
    } else {
      FirstBadLineFails(nb, parse);
    }
  }

  /** A line whose four fields are known parses to them. */
  lemma ParseFour(line: string, parts: seq<string>)
    requires Fields(line) == parts && |parts| == 4
    requires PyFloat(parts[1]).Some?
    ensures ParseLine(line) == Success(Row(PyStrip(parts[0]), PyFloat(parts[1]).value, PyStrip(parts[2]), PyStrip(parts[3])))
  {
  }

  /** A tab-separated line of four tab-free fields parses to those fields,
      stripped, whatever commas they hold. */
  lemma TabSeparated(parts: seq<string>)
    requires |parts| == 4
    requires forall k :: 0 <= k < 4 ==> !HasChar(parts[k], '\t')
    requires PyFloat(parts[1]).Some?
    ensures ParseLine(Join(parts, '\t')) == Success(Row(PyStrip(parts[0]), PyFloat(parts[1]).value, PyStrip(parts[2]), PyStrip(parts[3])))
  {
    TabFields(parts);
    ParseFour(Join(parts, '\t'), parts);
  }

  /** Tab-joined fields, at least two and none holding a tab, split back
      into them. */
  lemma TabFields(parts: seq<string>)
    requires |parts| >= 2
    requires forall k :: 0 <= k < |parts| ==> !HasChar(parts[k], '\t')
    ensures Fields(Join(parts, '\t')) == parts
  {
    var line := Join(parts, '\t');
    assert line == parts[0] + ['\t'] + Join(parts[1..], '\t');
    assert line[|parts[0]|] == '\t';
    SplitJoin(parts, '\t');
  }

  /** Comma-joined fields holding no tab and no comma split back into them. */
  lemma CommaFields(parts: seq<string>)
    requires parts != []
    requires forall k :: 0 <= k < |parts| ==> !HasChar(parts[k], '\t') && !HasChar(parts[k], ',')
    ensures Fields(Join(parts, ',')) == parts
  {
    JoinFree(parts, ',', '\t');
    SplitJoin(parts, ',');
  }

  /** A comma-separated line of four fields with neither tabs nor commas
      parses to those fields, stripped. */
  lemma CommaSeparated(parts: seq<string>)
    requires |parts| == 4
    requires forall k :: 0 <= k < 4 ==> !HasChar(parts[k], '\t') && !HasChar(parts[k], ',')
    requires PyFloat(parts[1]).Some?
    ensures ParseLine(Join(parts, ',')) == Success(Row(PyStrip(parts[0]), PyFloat(parts[1]).value, PyStrip(parts[2]), PyStrip(parts[3])))
  {
    CommaFields(parts);
    ParseFour(Join(parts, ','), parts);
  }
}
