/** static/js/project.js: the CSV file `downloadCSV` offers for a series of
    measurements, the temporary download link, the reset of a JSON editor's
    element in `reinitializeJSONEditor`, and the submit listener that copies
    the editor's value into the form's hidden field. */
module ProjectScript {
  import opened Wrappers
  import opened Text

  /** One measurement as the page hands it over: each property as the text
      `Array.prototype.join` writes for it, or `None` for `null` and
      `undefined`, which it writes as nothing. */
  datatype Measurement = Measurement(timestamp: Option<string>, value: Option<string>, kind: Option<string>, unit: Option<string>)

  const CsvPrefix: string := "data:text/csv;charset=utf-8,"
  const Headers: seq<string> := ["timestamp", "value", "type", "unit"]

  /** What `join` writes for one array element. */
  function CellText(c: Option<string>): string {
    if c.Some? then c.value else ""
  }

  /** The four fields of a row, in column order. */
  function Cells(m: Measurement): (r: seq<string>)
    ensures |r| == 4
  {
    [CellText(m.timestamp), CellText(m.value), CellText(m.kind), CellText(m.unit)]
  }

  /** One row without its line end: the fields joined by commas, with no
      quoting or escaping. */
  function Line(m: Measurement): string {
    Join(Cells(m), ',')
  }

  /** The data rows, one line per measurement, in the given order. */
  function Rows(data: seq<Measurement>): string {
    if data == [] then "" else Line(data[0]) + "\n" + Rows(data[1..])
  }

  /** The whole `csvContent` string. */
  function CsvContent(data: seq<Measurement>): string {
    CsvPrefix + Join(Headers, ',') + "\n" + Rows(data)
  }

  /** The rows of `data` as separate lines. */
  function LinesOf(data: seq<Measurement>): (r: seq<string>)
    ensures |r| == |data| && forall i :: 0 <= i < |data| ==> r[i] == Line(data[i])
  {
    seq(|data|, i requires 0 <= i < |data| => Line(data[i]))
  }

  /** No field contains `c`. */
  predicate FieldsFree(m: Measurement, c: char) {
    forall k :: 0 <= k < 4 ==> !HasChar(Cells(m)[k], c)
  }

  /** The prefix and the header line. */
  function Head(): string {
    CsvPrefix + Join(Headers, ',') + "\n"
  }

  /** The click handler's string building: the prefix, the header line, then
      one line per record appended in a loop. */
  method BuildCsv(data: seq<Measurement>) returns (csv: string)
    ensures csv == CsvContent(data)
  {
    csv := CsvPrefix;
    csv := csv + Join(Headers, ',') + "\n";
    ghost var head := csv;
    for i := 0 to |data|
      invariant csv == head + Rows(data[..i])
    {
      AppendRow(head, data, i);
      csv := csv + Join(Cells(data[i]), ',') + "\n";
    }
    assert data[..|data|] == data;
  }

  /** One pass of the `forEach`: the string built so far gains the next line. */
  lemma AppendRow(head: string, data: seq<Measurement>, i: nat)
    requires i < |data|
    ensures head + Rows(data[..i + 1]) == head + Rows(data[..i]) + Join(Cells(data[i]), ',') + "\n"
  {
    assert data[..i + 1] == data[..i] + [data[i]];
    RowsAppend(data[..i], data[i]);
  }

  /** Appending a record appends its line. */
  lemma {:induction false} RowsAppend(data: seq<Measurement>, m: Measurement)
    ensures Rows(data + [m]) == Rows(data) + Line(m) + "\n"
    decreases |data|
  {
    if data == [] {
      assert data + [m] == [m];
    } else {
      assert (data + [m])[0] == data[0] && (data + [m])[1..] == data[1..] + [m];
      RowsAppend(data[1..], m);
      Regroup(Line(data[0]) + "\n", Rows(data[1..]), Line(m) + "\n");
    }
  }

  lemma Regroup(a: string, b: string, c: string)
    ensures a + (b + c) == a + b + c
  {
  }

  /** The header line with the prefix in front of it. */
  const FirstLine: string := "data:text/csv;charset=utf-8,timestamp,value,type,unit"

  lemma HeaderLine()
    ensures Join(Headers, ',') == "timestamp,value,type,unit"
    ensures CsvPrefix + "timestamp,value,type,unit" == FirstLine
  {
    assert Join(Headers[3..], ',') == "unit";
    assert Join(Headers[2..], ',') == "type" + [','] + "unit";
    assert Join(Headers[1..], ',') == "value" + [','] + "type,unit";
  }

  /** The content opens with the prefix and the header line; with no data it
      is just those. */
  lemma CsvStartsWithHeader(data: seq<Measurement>)
    ensures CsvContent(data) == FirstLine + "\n" + Rows(data)
    ensures StartsWith(CsvContent(data), CsvPrefix + "timestamp,value,type,unit\n")
    ensures CsvContent([]) == CsvPrefix + "timestamp,value,type,unit\n"
  {
    HeaderLine();
    var h := CsvPrefix + "timestamp,value,type,unit\n";
    assert CsvContent(data) == h + Rows(data);
    assert (h + Rows(data))[..|h|] == h;
  }

  /** The data rows are the lines of `data` joined with line ends, with an
      empty piece after the last line end. */
  lemma {:induction false} RowsAsJoin(data: seq<Measurement>)
    ensures Rows(data) == Join(LinesOf(data) + [""], '\n')
    decreases |data|
  {
    if data != [] {
      RowsAsJoin(data[1..]);
      assert LinesOf(data) + [""] == [Line(data[0])] + (LinesOf(data[1..]) + [""]);
    }
  }

  /** Split at line ends, the content is the header line, then one line per
      record in input order, then the empty piece after the final line end,
      provided no field contains a line end. */
  lemma CsvLines(data: seq<Measurement>)
    requires forall i :: 0 <= i < |data| ==> FieldsFree(data[i], '\n')
    ensures Split(CsvContent(data), '\n') == [FirstLine] + LinesOf(data) + [""]
  {
    CsvStartsWithHeader(data);
    RowsAsJoin(data);
    var pieces := [FirstLine] + LinesOf(data) + [""];
    assert pieces == [FirstLine] + (LinesOf(data) + [""]);
    assert Join(pieces, '\n') == CsvContent(data);
    forall k | 0 <= k < |pieces|
      ensures !HasChar(pieces[k], '\n')
    {
      if 0 < k <= |data| {
        JoinFree(Cells(data[k - 1]), ',', '\n');
      } else if k == 0 {
        FirstLineFree();
      }
    }
    SplitJoin(pieces, '\n');
  }

  lemma FirstLineFree()
    ensures !HasChar(FirstLine, '\n')
  {
    assert '\n' !in CsvPrefix && '\n' !in "timestamp,value,type,unit";
    HeaderLine();
    assert '\n' !in FirstLine;
  }

  /** The content holds one line end per record plus the header's. */
  lemma CsvLineCount(data: seq<Measurement>)
    requires forall i :: 0 <= i < |data| ==> FieldsFree(data[i], '\n')
    ensures CountChar(CsvContent(data), '\n') == |data| + 1
  {
    CsvLines(data);
    SplitCount(CsvContent(data), '\n');
  }

  /** A row splits at commas back into its four fields, in column order,
      provided no field contains a comma (nothing is quoted). */
  lemma LineFields(m: Measurement)
    requires FieldsFree(m, ',')
    ensures Split(Line(m), ',') == Cells(m)
  {
    SplitJoin(Cells(m), ',');
  }

  /** `s` without node `n`. */
  function RemoveNode(s: seq<nat>, n: nat): (r: seq<nat>)
    ensures n !in r
    ensures forall x :: x in r <==> x in s && x != n
    ensures n in s ==> |r| < |s|
    ensures n !in s ==> r == s
  {
    if s == [] then []
    else if s[0] == n then RemoveNode(s[1..], n)
    else [s[0]] + RemoveNode(s[1..], n)
  }

  /** An upper bound of the node ids in `s`. */
  function MaxNode(s: seq<nat>): (m: nat)
    ensures forall x :: x in s ==> x <= m
  {
    if s == [] then 0
    else
      var t := MaxNode(s[1..]);
      assert forall x :: x in s ==> x == s[0] || x in s[1..];
      if s[0] > t then s[0] else t
  }

  /** A node id not among `s`, as `document.createElement` makes. */
  function FreshNode(s: seq<nat>): (n: nat)
    ensures n !in s
  {
    MaxNode(s) + 1
  }

  /** Appending a node that was not a child and removing it again restores
      the child list. */
  lemma {:induction false} AppendThenRemove(s: seq<nat>, n: nat)
    requires n !in s
    ensures RemoveNode(s + [n], n) == s
    decreases |s|
  {
    if s != [] {
      assert (s + [n])[1..] == s[1..] + [n];
      AppendThenRemove(s[1..], n);
    } else {
      assert RemoveNode([n], n) == RemoveNode([], n);
    }
  }

  /** A DOM element's list of child nodes. */
  class Element {
    var children: seq<nat>

    constructor (kids: seq<nat>)
      ensures children == kids
    {
      children := kids;
    }

    /** `appendChild(n)`: a node that already is a child moves to the end. */
    method AppendChild(n: nat)
      modifies this
      ensures children == RemoveNode(old(children), n) + [n]
    {
      children := RemoveNode(children, n) + [n];
    }

    /** `removeChild(n)`: throws `NotFoundError` when `n` is not a child. */
    method RemoveChild(n: nat) returns (threw: bool)
      modifies this
      ensures threw <==> n !in old(children)
      ensures children == RemoveNode(old(children), n)
    {
      if n !in children {
        return true;
      }
      children := RemoveNode(children, n);
      return false;
    }
  }

  /** The temporary download link: its `href` and `download` attributes. */
  datatype Anchor = Anchor(href: string, download: string)

  /** The click handler `downloadCSV` installs: it builds the content, makes a
      link to its encoding (`encodeURI` is the parameter `encode`), appends
      the link to the body, clicks it and removes it again. */
  method DownloadClick(body: Element, data: seq<Measurement>, fileName: string, encode: string -> string) returns (link: Anchor)
    modifies body
    ensures link == Anchor(encode(CsvContent(data)), fileName)
    ensures body.children == old(body.children)
  {
    var csv := BuildCsv(data);
    link := Anchor(encode(csv), fileName);
    var node := FreshNode(body.children);
    body.AppendChild(node);
    AppendThenRemove(old(body.children), node);
    var threw := body.RemoveChild(node);
  }

  /** The loop at the top of `reinitializeJSONEditor`: while the element has a
      first child, remove it. A missing element makes `element.firstChild`
      throw. */
  method ClearChildren(element: Element?) returns (threw: bool)
    modifies element
    ensures threw <==> element == null
    ensures element != null ==> element.children == []
  {
    if element == null {
      return true;
    }
    while element.children != []
      decreases |element.children|
    {
      var removed := element.RemoveChild(element.children[0]);
    }
    return false;
  }

  /** A form holding JSON editors: the current value of every `JSONEditor`
      made so far, the form's `submit` listeners (each bound to the editor
      whose callback added it), and the hidden field's value. */
  class EditorForm<V> {
    var editors: seq<V>
    var listeners: seq<nat>
    var hidden: string

    /** Every listener refers to an editor. */
    predicate Valid()
      reads this
    {
      forall i :: 0 <= i < |listeners| ==> listeners[i] < |editors|
    }

    constructor (hidden0: string)
      ensures Valid() && editors == [] && listeners == [] && hidden == hidden0
    {
      editors, listeners, hidden := [], [], hidden0;
    }

    /** The `$.getJSON` callback of `initializeJSONEditor`: a new editor
        starting at `initial` renders into `element`, and a submit listener
        for it is added after the existing ones. */
    method SchemaLoaded(element: Element, initial: V)
      requires Valid()
      modifies this, element
      ensures Valid()
      ensures editors == old(editors) + [initial]
      ensures listeners == old(listeners) + [|old(editors)|]
      ensures hidden == old(hidden)
      ensures element.children == old(element.children) + [FreshNode(old(element.children))]
    {
      editors := editors + [initial];
      listeners := listeners + [|editors| - 1];
      element.AppendChild(FreshNode(element.children));
    }

    /** The user edits editor `i`. */
    method Edit(i: nat, v: V)
      requires Valid() && i < |editors|
      modifies this
      ensures Valid()
      ensures editors == old(editors)[i := v] && listeners == old(listeners) && hidden == old(hidden)
    {
      editors := editors[i := v];
    }

    /** The form is submitted: the listeners run in the order they were added,
        each writing `JSON.stringify` (the parameter `stringify`) of its
        editor's value at this moment; the last one's write is what stays. */
    method Submit(stringify: V -> string)
      requires Valid()
      modifies this
      ensures editors == old(editors) && listeners == old(listeners)
      ensures listeners == [] ==> hidden == old(hidden)
      ensures listeners != [] ==> hidden == stringify(editors[listeners[|listeners| - 1]])
    {
      var i := 0;
      while i < |listeners|
        invariant 0 <= i <= |listeners|
        invariant editors == old(editors) && listeners == old(listeners)
        invariant i == 0 ==> hidden == old(hidden)
        invariant i > 0 ==> hidden == stringify(editors[listeners[i - 1]])
      {
        hidden := stringify(editors[listeners[i]]);
        i := i + 1;
      }
    }
  }

  /** `reinitializeJSONEditor`: the element is emptied; the new editor arrives
      with the schema, in `SchemaLoaded`. */
  method ReinitializeJsonEditor(element: Element?) returns (threw: bool)
    modifies element
    ensures threw <==> element == null
    ensures element != null ==> element.children == []
  {
    threw := ClearChildren(element);
  }

  /** Re-initialising with `newData` and submitting before any edit leaves
      the hidden field holding `newData`'s serialisation: the listeners of
      the earlier editors still run, but the new editor's runs last. The
      element then holds only the new editor. */
  method ReinitializeThenSubmit<V>(form: EditorForm<V>, element: Element, newData: V, stringify: V -> string)
    requires form.Valid()
    modifies form, element
    ensures form.hidden == stringify(newData)
    ensures |element.children| == 1
    ensures |form.listeners| == |old(form.listeners)| + 1
  {
    var threw := ReinitializeJsonEditor(element);
    form.SchemaLoaded(element, newData);
    form.Submit(stringify);
  }
}
