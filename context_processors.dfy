/** core/context_processors.py: what every template gets. The URL's keyword
    arguments are `None` without a resolver match; object lookups are sets
    of stored pks; a view's model docstring is a parameter. */
module ContextProcessors {
  import opened Wrappers
  import Text

  /** The value a current-object processor puts in the context: nothing,
      the object found, or the falsy URL value itself (an empty string is
      passed through untouched). */
  datatype Current = Nothing | Found(pk: string) | Raw(value: string)

  predicate Truthy(c: Current) {
    c.Found? || (c.Raw? && c.value != [])
  }

  /** `current_project` and `current_location` alike: the argument `key` of
      the resolver match, looked up when truthy, `None` when it is not
      stored. */
  function CurrentObject(kwargs: Option<map<string, string>>, key: string, stored: set<string>): (r: Current)
    ensures r.Found? <==> kwargs.Some? && key in kwargs.value && kwargs.value[key] in stored && kwargs.value[key] != []
    ensures r.Found? ==> r.pk == kwargs.value[key]
    ensures !r.Found? ==> !Truthy(r)
  {
    if kwargs.None? || key !in kwargs.value then Nothing
    else
      var v := kwargs.value[key];
      if v == [] then Raw(v)
      else if v in stored then Found(v)
      else Nothing
  }

  function CurrentProject(kwargs: Option<map<string, string>>, projects: set<string>): Current {
    CurrentObject(kwargs, "project_pk", projects)
  }

  function CurrentLocation(kwargs: Option<map<string, string>>, locations: set<string>): Current {
    CurrentObject(kwargs, "location_pk", locations)
  }

  /** The project in the context is the stored project the URL names, and
      falsy otherwise: without a resolver match, without `project_pk`, or
      for an unknown pk. The location follows the same rule on
      `location_pk`. */
  lemma CurrentProjectRule(kwargs: Option<map<string, string>>, projects: set<string>, locations: set<string>)
    ensures kwargs.None? ==> CurrentProject(kwargs, projects) == Nothing && CurrentLocation(kwargs, locations) == Nothing
    ensures kwargs.Some? && "project_pk" in kwargs.value && kwargs.value["project_pk"] in projects && kwargs.value["project_pk"] != [] ==>
      CurrentProject(kwargs, projects) == Found(kwargs.value["project_pk"])
    ensures kwargs.Some? && "project_pk" in kwargs.value && kwargs.value["project_pk"] !in projects ==>
      !Truthy(CurrentProject(kwargs, projects))
    ensures kwargs.Some? && "location_pk" !in kwargs.value ==> CurrentLocation(kwargs, locations) == Nothing
  {
  }

  /** `base_template`: a block request gets the blank layout wherever it
      is; otherwise the project dashboard under "projects" and the base
      dashboard elsewhere. */
  function BaseTemplate(hxContext: Option<string>, path: string): (r: string)
    ensures r == "layouts/blank.html" <==> hxContext == Some("block")
    ensures hxContext != Some("block") ==>
      (r == "layouts/project_dashboard.html" <==> Text.Contains(path, "projects"))
      && (r == "layouts/base_dashboard.html" <==> !Text.Contains(path, "projects"))
  {
    if hxContext == Some("block") then "layouts/blank.html"
    else if Text.Contains(path, "projects") then "layouts/project_dashboard.html"
    else "layouts/base_dashboard.html"
  }

  /** A request for a block gets the blank layout on every path, a
      project's pages included. */
  lemma BlockWinsOverProject(path: string)
    ensures BaseTemplate(Some("block"), path) == "layouts/blank.html"
  {
  }

  /** The length of the separator `\n\n|\r\n\r\n` at position `i` of `s`,
      0 when none starts there; the first alternative is tried first. */
  function SeparatorAt(s: string, i: nat): (n: nat)
    ensures n == 0 || n == 2 || n == 4
    ensures n > 0 ==> i + n <= |s|
  {
    if i + 2 <= |s| && s[i] == '\n' && s[i + 1] == '\n' then 2
    else if i + 4 <= |s| && s[i] == '\r' && s[i + 1] == '\n' && s[i + 2] == '\r' && s[i + 3] == '\n' then 4
    else 0
  }

  /** No separator starts at any position from `from` up to `i`. */
  predicate Clear(s: string, from: nat, i: nat) {
    forall k :: from <= k < i ==> SeparatorAt(s, k) == 0
  }

  /** The first piece of `re.split(r'\n\n|\r\n\r\n', s)` from position
      `from`, and what follows its separator when there is one. */
  function SplitFrom(s: string, from: nat, i: nat): (r: (string, Option<string>))
    requires from <= i <= |s|
    requires Clear(s, from, i)
    ensures from + |r.0| <= |s| && r.0 == s[from..from + |r.0|]
    ensures Clear(s, from, from + |r.0|)
    ensures r.1.None? ==> r.0 == s[from..]
    ensures r.1.Some? ==> SeparatorAt(s, from + |r.0|) > 0 && r.1.value == s[from + |r.0| + SeparatorAt(s, from + |r.0|)..]
    decreases |s| - i
  {
    if i == |s| then (s[from..], None)
    else if SeparatorAt(s, i) > 0 then (s[from..i], Some(s[i + SeparatorAt(s, i)..]))
    else
      assert Clear(s, from, i + 1);
      SplitFrom(s, from, i + 1)
  }

  /** The first piece of a split and the rest after its separator. */
  function SplitFirst(s: string): (string, Option<string>) {
    SplitFrom(s, 0, 0)
  }

  /** What `model_documentation` adds for a docstring: the first piece as
      `explanation`, the second (or `None`) as `explanation_detail`. */
  datatype Documentation = Documentation(explanation: string, explanationDetail: Option<string>)

  function DocumentationOf(doc: string): (r: Documentation)
    ensures |r.explanation| <= |doc| && doc[..|r.explanation|] == r.explanation
    ensures r.explanationDetail.None? ==> r.explanation == doc
  {
    var (first, rest) := SplitFirst(doc);
    Documentation(first, if rest.Some? then Some(SplitFirst(rest.value).0) else None)
  }

  /** `model_documentation`: nothing without a view, a model or a non-empty
      docstring. */
  function ModelDocumentation(modelDoc: Option<Option<string>>): (r: Option<Documentation>)
    ensures r.Some? <==> modelDoc.Some? && modelDoc.value.Some? && modelDoc.value.value != []
  {
    if modelDoc.Some? && modelDoc.value.Some? && modelDoc.value.value != [] then Some(DocumentationOf(modelDoc.value.value))
    else None
  }

  /** A string with no separator anywhere. */
  predicate NoSeparator(s: string) {
    forall k :: 0 <= k < |s| ==> SeparatorAt(s, k) == 0
  }

  /** The explanation is the docstring up to its first separator; with no
      separator it is the whole docstring and there is no detail. */
  lemma ExplanationIsFirstParagraph(doc: string)
    ensures var d := DocumentationOf(doc);
      |d.explanation| <= |doc| && doc[..|d.explanation|] == d.explanation
      && (forall k :: 0 <= k < |d.explanation| ==> SeparatorAt(doc, k) == 0)
      && (d.explanationDetail.None? <==> NoSeparator(doc))
      && (NoSeparator(doc) ==> d.explanation == doc)
  {
    var (first, rest) := SplitFirst(doc);
    if rest.Some? {
      assert SeparatorAt(doc, |first|) > 0;
    }
  }

  /** With a separator, the docstring reads explanation, separator, rest;
      the detail is the rest up to the rest's own first separator. */
  lemma DetailIsSecondParagraph(doc: string)
    requires !NoSeparator(doc)
    ensures var d := DocumentationOf(doc);
      var n := SeparatorAt(doc, |d.explanation|);
      var rest := doc[|d.explanation| + n..];
      d.explanationDetail.Some? && n > 0
      && doc == d.explanation + doc[|d.explanation|..|d.explanation| + n] + rest
      && |d.explanationDetail.value| <= |rest| && rest[..|d.explanationDetail.value|] == d.explanationDetail.value
      && (forall k :: 0 <= k < |d.explanationDetail.value| ==> SeparatorAt(rest, k) == 0)
  {
    ExplanationIsFirstParagraph(doc);
  }

  /** A string with no line break characters at all. */
  predicate NoBreak(s: string) {
    forall k :: 0 <= k < |s| ==> s[k] != '\n' && s[k] != '\r'
  }

  /** The scan from `i` stops at the first separator at or after `i`, or at
      the end of the string. */
  lemma {:induction false} SplitStopsAt(s: string, from: nat, i: nat, j: nat)
    requires from <= i <= j <= |s| && Clear(s, from, i) && Clear(s, i, j)
    requires j == |s| || SeparatorAt(s, j) > 0
    ensures SplitFrom(s, from, i) == (s[from..j], if j == |s| then None else Some(s[j + SeparatorAt(s, j)..]))
    decreases j - i
  {
    if i < j {
      assert SeparatorAt(s, i) == 0;
      assert Clear(s, from, i + 1);
      SplitStopsAt(s, from, i + 1, j);
    }
  }

  /** A prefix without line breaks holds no separator. */
  lemma NoBreakClear(s: string, n: nat)
    requires n <= |s| && NoBreak(s[..n])
    ensures Clear(s, 0, n)
  {
    forall k | 0 <= k < n
      ensures SeparatorAt(s, k) == 0
    {
      assert s[..n][k] == s[k];
    }
  }

  /** A docstring whose first `n` characters hold no line break and are
      followed by a separator or the end splits there. */
  lemma FirstParagraph(s: string, n: nat)
    requires n <= |s| && NoBreak(s[..n])
    requires n == |s| || SeparatorAt(s, n) > 0
    ensures SplitFirst(s) == (s[..n], if n == |s| then None else Some(s[n + SeparatorAt(s, n)..]))
  {
    NoBreakClear(s, n);
    SplitStopsAt(s, 0, 0, n);
  }

  /** Paragraphs after the second are dropped: for paragraphs `a` and `b`
      without line breaks, `a\n\nb\n\n` followed by anything explains `a`
      with the detail `b`. */
  lemma LaterParagraphsDropped(a: string, b: string, c: string)
    requires NoBreak(a) && NoBreak(b)
    ensures DocumentationOf(a + "\n\n" + b + "\n\n" + c) == Documentation(a, Some(b))
  {
    var t := b + "\n\n" + c;
    assert t[..|b|] == b && t[|b|] == '\n' && t[|b| + 1] == '\n';
    FirstParagraph(t, |b|);
    var s := a + "\n\n" + t;
    assert s == a + "\n\n" + b + "\n\n" + c;
    assert s[..|a|] == a && s[|a|] == '\n' && s[|a| + 1] == '\n';
    assert s[|a| + 2..] == t;
    FirstParagraph(s, |a|);
  }

  /** The Windows separator splits too: for paragraphs `a` and `b` without
      line breaks, `a\r\n\r\nb` explains `a` with the detail `b`. */
  lemma WindowsParagraphs(a: string, b: string)
    requires NoBreak(a) && NoBreak(b)
    ensures DocumentationOf(a + "\r\n\r\n" + b) == Documentation(a, Some(b))
  {
    assert b[..|b|] == b;
    FirstParagraph(b, |b|);
    var s := a + "\r\n\r\n" + b;
    assert s[..|a|] == a;
    assert s[|a|] == '\r' && s[|a| + 1] == '\n' && s[|a| + 2] == '\r' && s[|a| + 3] == '\n';
    assert s[|a| + 4..] == b;
    FirstParagraph(s, |a|);
  }
}
