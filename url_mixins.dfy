/** core/generics/mixins.py: the naming conventions a view derives from its
    model's metadata (URL names, the HTMX trigger, the item placeholder), the
    URL keyword arguments every link shares, the detail-form choice, the
    `hx-get` attribute added to a form's type field, and the CSV export. */
module UrlMixins {
  import opened Wrappers
  import opened Text

  /** The parts of a model's `_meta` these rules read. */
  datatype Meta = Meta(modelName: string, verboseNamePlural: string, appLabel: string, fieldNames: seq<string>)

  /** `model_name`: "" when the model has no `_meta`. */
  function ModelName(meta: Option<Meta>): string {
    if meta.Some? then meta.value.modelName else ""
  }

  /** `model_name_plural`: the verbose plural with its spaces removed. */
  function ModelNamePlural(meta: Option<Meta>): (r: string)
    ensures !HasChar(r, ' ')
  {
    if meta.Some? then RemoveChar(meta.value.verboseNamePlural, ' ') else ""
  }

  /** `model_verbose_name_plural`. */
  function VerboseNamePlural(meta: Option<Meta>): string {
    if meta.Some? then meta.value.verboseNamePlural else ""
  }

  /** `app_label`. */
  function AppLabel(meta: Option<Meta>): string {
    if meta.Some? then meta.value.appLabel else ""
  }

  /** `htmx_trigger`: the event a change to this model's records fires. */
  function HtmxTrigger(meta: Option<Meta>): string {
    ModelName(meta) + "Changed"
  }

  /** `_get_url_name`: `app:plural` for the list, `app:action-model` for
      every other action. */
  function UrlName(meta: Option<Meta>, action: string): (r: string)
    ensures |r| > |AppLabel(meta)| && r[..|AppLabel(meta)|] == AppLabel(meta) && r[|AppLabel(meta)|] == ':'
    ensures action == "list" ==> !HasChar(r[|AppLabel(meta)| + 1..], ' ')
  {
    if action == "list" then AppLabel(meta) + ":" + ModelNamePlural(meta)
    else AppLabel(meta) + ":" + action + "-" + ModelName(meta)
  }

  /** `item_pk_name`. */
  function ItemPkName(meta: Option<Meta>): string {
    ModelName(meta) + "_pk"
  }

  /** `item`: the URL arguments with the placeholder standing for the pk. */
  function Item(meta: Option<Meta>): map<string, string> {
    map[ItemPkName(meta) := "__placeholder__"]
  }

  /** `item_pk`: `kwargs.get(item_pk_name)`. */
  function ItemPk(meta: Option<Meta>, kwargs: map<string, string>): Option<string> {
    if ItemPkName(meta) in kwargs then Some(kwargs[ItemPkName(meta)]) else None
  }

  /** The placeholder item is what `item_pk` reads back as the pk. */
  lemma ItemReadsBack(meta: Option<Meta>)
    ensures ItemPk(meta, Item(meta)) == Some("__placeholder__")
    ensures Item(meta).Keys == {ItemPkName(meta)}
  {
  }

  /** Every name takes the app label as its namespace: what precedes the
      first ":" is the app label, when the label has no ":" itself. */
  lemma UrlNamespace(meta: Option<Meta>, action: string)
    requires !HasChar(AppLabel(meta), ':')
    ensures Split(UrlName(meta, action), ':')[0] == AppLabel(meta)
  {
    var rest := if action == "list" then ModelNamePlural(meta) else action + "-" + ModelName(meta);
    assert UrlName(meta, action) == AppLabel(meta) + [':'] + rest;
    SplitAtFirst(AppLabel(meta), rest, ':');
  }

  /** Different actions other than "list" name different URLs. */
  lemma ActionNamesDistinct(meta: Option<Meta>, a: string, b: string)
    requires a != "list" && b != "list" && a != b
    ensures UrlName(meta, a) != UrlName(meta, b)
  {
    var p := AppLabel(meta) + ":";
    var s := "-" + ModelName(meta);
    assert UrlName(meta, a) == p + a + s;
    assert UrlName(meta, b) == p + b + s;
    Middle(p, a, s);
    Middle(p, b, s);
  }

  lemma Middle(p: string, m: string, s: string)
    ensures |p + m + s| == |p| + |m| + |s|
    ensures (p + m + s)[|p|..|p| + |m|] == m
  {
  }

  /** Without `_meta`, every name degenerates to its punctuation. */
  lemma NoMetaNames(action: string)
    ensures UrlName(None, action) == if action == "list" then ":" else ":" + action + "-"
    ensures HtmxTrigger(None) == "Changed" && ItemPkName(None) == "_pk"
  {
  }

  /** `Http404` from `get_object_or_404`. */
  datatype NotFound = Http404

  /** `get_project`: only on a path containing "projects" is the project
      looked up, by the `project_pk` argument, among the stored `projects`;
      a missing argument or an unknown pk is a 404. */
  function GetProject(path: string, kwargs: map<string, string>, projects: set<string>): (r: Result<Option<string>, NotFound>)
    ensures r.Failure? <==> Contains(path, "projects") && !("project_pk" in kwargs && kwargs["project_pk"] in projects)
    ensures r.Success? ==> (r.value.Some? <==> Contains(path, "projects"))
    ensures r.Success? && r.value.Some? ==> r.value.value in projects && r.value.value == kwargs["project_pk"]
  {
    if !Contains(path, "projects") then Success(None)
    else if "project_pk" in kwargs && kwargs["project_pk"] in projects then Success(Some(kwargs["project_pk"]))
    else Failure(Http404)
  }

  /** `get_base_url_kwargs`: `project_pk` when there is a project and the
      view's model is not the project itself. */
  function BaseUrlKwargs(meta: Option<Meta>, path: string, kwargs: map<string, string>, projects: set<string>): (r: Result<map<string, string>, NotFound>)
    ensures r.Failure? <==> GetProject(path, kwargs, projects).Failure?
    ensures r.Success? ==> r.value.Keys <= {"project_pk"}
    ensures r.Success? && "project_pk" in r.value ==> r.value["project_pk"] in projects
  {
    match GetProject(path, kwargs, projects)
    case Failure(e) => Failure(e)
    case Success(project) =>
      if project.Some? && ModelName(meta) != "project" then Success(map["project_pk" := project.value])
      else Success(map[])
  }

  /** The base arguments hold `project_pk` exactly when the path is under
      "projects" and the model is not "project", and then it is the pk from
      the URL; they hold nothing else. */
  lemma BaseUrlKwargsRule(meta: Option<Meta>, path: string, kwargs: map<string, string>, projects: set<string>)
    requires BaseUrlKwargs(meta, path, kwargs, projects).Success?
    ensures var r := BaseUrlKwargs(meta, path, kwargs, projects).value;
      r.Keys <= {"project_pk"}
      && ("project_pk" in r <==> Contains(path, "projects") && ModelName(meta) != "project")
      && ("project_pk" in r ==> r["project_pk"] == kwargs["project_pk"])
  {
  }

  /** The lookup fails only under "projects", and then exactly when the pk
      is missing or unknown. */
  lemma BaseUrlKwargsFails(meta: Option<Meta>, path: string, kwargs: map<string, string>, projects: set<string>)
    ensures BaseUrlKwargs(meta, path, kwargs, projects).Failure?
      <==> Contains(path, "projects") && !("project_pk" in kwargs && kwargs["project_pk"] in projects)
  {
  }

  /** What `get_detail_form_class` returns: a form class, or an empty
      response. */
  datatype DetailChoice = FormClass(name: string) | EmptyResponse

  /** `get_detail_form_class`: the form registered for the `type` query
      parameter; a missing or empty type, or one with no registered form,
      gives an empty response. */
  function DetailFormClass(typeParam: Option<string>, detailForms: map<string, string>): (r: DetailChoice)
    ensures r.FormClass? <==> typeParam.Some? && typeParam.value != [] && typeParam.value in detailForms
    ensures r.FormClass? ==> r.name == detailForms[typeParam.value]
  {
    if typeParam.None? || typeParam.value == [] then EmptyResponse
    else if typeParam.value in detailForms then FormClass(detailForms[typeParam.value])
    else EmptyResponse
  }

  /** A form field's widget, whose `attrs` the view writes. */
  class Widget {
    var attrs: map<string, string>

    constructor (attrs: map<string, string>)
      ensures this.attrs == attrs
    {
      this.attrs := attrs;
    }
  }

  /** The response a view produced: a template response, possibly already
      rendered, whose context may hold a form (its fields by name), or some
      other response. */
  datatype Response =
    | TemplateResponse(isRendered: bool, form: Option<map<string, Widget>>)
    | OtherResponse

  /** The condition under which `add_hx_get` writes: an unrendered template
      response whose form has both a `detail` and a `type` field. */
  predicate ContextIsRight(r: Response) {
    r.TemplateResponse? && !r.isRendered && r.form.Some?
    && "detail" in r.form.value && "type" in r.form.value
  }

  /** The widgets `add_hx_get` may write: the type field's, when it writes. */
  function HxGetTarget(r: Response): set<Widget> {
    if ContextIsRight(r) then {r.form.value["type"]} else {}
  }

  /** `add_hx_get`: points the type field at the current path, so that
      choosing a type fetches its detail form; any other response is left
      alone. */
  method AddHxGet(response: Response, path: string) returns (r: Response)
    modifies HxGetTarget(response)
    ensures r == response
    ensures ContextIsRight(response) ==>
      response.form.value["type"].attrs == old(response.form.value["type"].attrs)["hx-get" := path]
  {
    if response.TemplateResponse? && !response.isRendered && response.form.Some? {
      var fields := response.form.value;
      if "detail" in fields && "type" in fields {
        var widget := fields["type"];
        widget.attrs := widget.attrs["hx-get" := path];
      }
    }
    return response;
  }

  /** What `export_as_csv` builds: its headers and the rows handed to the
      CSV writer. */
  datatype CsvResponse = CsvResponse(headers: map<string, string>, rows: seq<seq<string>>)

  /** The headers of the export: CSV content, named after the model's label,
      announcing `csvDownloaded` to HTMX. */
  function CsvHeaders(meta: Meta): map<string, string> {
    map[
      "Content-Type" := "text/csv",
      "Content-Disposition" := "attachment; filename=" + meta.appLabel + "." + meta.modelName + ".csv",
      "HX-Trigger" := "csvDownloaded"
    ]
  }

  /** One object's row: its attributes in header order. */
  function CsvRow(obj: map<string, string>, fieldNames: seq<string>): (r: seq<string>)
    requires forall k :: 0 <= k < |fieldNames| ==> fieldNames[k] in obj
    ensures |r| == |fieldNames|
    ensures forall k :: 0 <= k < |fieldNames| ==> r[k] == obj[fieldNames[k]]
  {
    seq(|fieldNames|, k requires 0 <= k < |fieldNames| => obj[fieldNames[k]])
  }

  /** `export_as_csv`: a header row of the model's field names, then one row
      per object, in queryset order, each with the object's attributes in
      header order. Every object of the model has every field. */
  method ExportAsCsv(meta: Meta, queryset: seq<map<string, string>>) returns (response: CsvResponse)
    requires forall i, k :: 0 <= i < |queryset| && 0 <= k < |meta.fieldNames| ==> meta.fieldNames[k] in queryset[i]
    ensures response.headers == CsvHeaders(meta)
    ensures |response.rows| == |queryset| + 1 && response.rows[0] == meta.fieldNames
    ensures forall i :: 1 <= i < |response.rows| ==> |response.rows[i]| == |meta.fieldNames|
    ensures forall i, k :: 1 <= i < |response.rows| && 0 <= k < |meta.fieldNames| ==>
      response.rows[i][k] == queryset[i - 1][meta.fieldNames[k]]
  {
    var rows := [meta.fieldNames];
    var i := 0;
    while i < |queryset|
      invariant 0 <= i <= |queryset|
      invariant |rows| == i + 1 && rows[0] == meta.fieldNames
      invariant forall j :: 1 <= j < |rows| ==> |rows[j]| == |meta.fieldNames|
      invariant forall j, k :: 1 <= j < |rows| && 0 <= k < |meta.fieldNames| ==> rows[j][k] == queryset[j - 1][meta.fieldNames[k]]
    {
      rows := rows + [CsvRow(queryset[i], meta.fieldNames)];
      i := i + 1;
    }
    return CsvResponse(CsvHeaders(meta), rows);
  }
}
