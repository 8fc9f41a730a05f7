/** core/views/base.py: the older list view's naming conventions and the
    context it adds for its templates. URL reversal is a parameter
    (`reverse(name, kwargs)`); the project lookup is a set of stored pks. */
module BaseViews {
  import opened Wrappers
  import opened Text

  /** The parts of a model's `_meta` the view reads; this view assumes the
      model has one. */
  datatype Meta = Meta(modelName: string, verboseNamePlural: string, appLabel: string)

  /** `action`: the HTMX event a change to the list fires. */
  function Action(meta: Meta): string {
    meta.modelName + "Changed"
  }

  /** `list_url`: the verbose plural is used as it is, spaces included. */
  function ListUrl(meta: Meta): string {
    meta.appLabel + ":" + meta.verboseNamePlural
  }

  /** `add_url`, `update_url`, `delete_url`, `detail_url`: `app:verb-model`. */
  function VerbUrl(meta: Meta, verb: string): string {
    meta.appLabel + ":" + verb + "-" + meta.modelName
  }

  function ItemPkName(meta: Meta): string {
    meta.modelName + "_pk"
  }

  /** `item`: the pk argument with a placeholder the template replaces. */
  function Item(meta: Meta): map<string, string> {
    map[ItemPkName(meta) := "__placeholder__"]
  }

  /** The list's URLs and settings handed to the template. Exactly one of
      `detailUrl` and `detailPageUrl` is set. */
  datatype ListContext = ListContext(
    addUrl: string, listUrl: string, updateUrl: string, deleteUrl: string,
    action: string, columns: seq<string>,
    detailUrl: Option<string>, detailPageUrl: Option<string>)

  /** What `get_context_data` adds: the layout, the project under a
      "projects" path, and the list context. */
  datatype Context = Context(baseTemplate: string, project: Option<string>, listContext: ListContext)

  datatype NotFound = Http404

  /** The URL arguments every link shares: the user always, and the project
      when the path is under "projects". */
  function BaseUrlKwargs(userId: string, project: Option<string>): map<string, string> {
    if project.Some? then map["user_id" := userId, "project_pk" := project.value]
    else map["user_id" := userId]
  }

  /** `get_context_data`. Under "projects" the project is fetched by its
      `project_pk` argument, and a missing or unknown one is a 404. */
  function GetContextData(
    meta: Meta, path: string, userId: string, kwargs: map<string, string>, projects: set<string>,
    detailType: string, columns: seq<string>, reverse: (string, map<string, string>) -> string
  ): (r: Result<Context, NotFound>)
    ensures r.Failure? <==> Contains(path, "projects") && !("project_pk" in kwargs && kwargs["project_pk"] in projects)
    ensures r.Success? ==> r.value.listContext.action == Action(meta) && r.value.listContext.columns == columns
    ensures r.Success? ==> (r.value.listContext.detailUrl.Some? <==> r.value.listContext.detailPageUrl.None?)
  {
    var underProjects := Contains(path, "projects");
    if underProjects && !("project_pk" in kwargs && kwargs["project_pk"] in projects) then Failure(Http404)
    else
      var project := if underProjects then Some(kwargs["project_pk"]) else None;
      var base := BaseUrlKwargs(userId, project);
      var itemKwargs := base + Item(meta);
      var lc := ListContext(
        reverse(VerbUrl(meta, "add"), base), reverse(ListUrl(meta), base),
        reverse(VerbUrl(meta, "update"), itemKwargs), reverse(VerbUrl(meta, "delete"), itemKwargs),
        Action(meta), columns, None, None);
      var detail := reverse(VerbUrl(meta, "detail"), itemKwargs);
      var lc' := if detailType == "page" then lc.(detailPageUrl := Some(detail)) else lc.(detailUrl := Some(detail));
      Success(Context(if underProjects then "project_dashboard.html" else "base_dashboard.html", project, lc'))
  }

  /** The layout is the project dashboard exactly under "projects"; the
      links carry `user_id` always and `project_pk` exactly under "projects",
      and the project is then the one the URL names. */
  lemma ContextLayout(
    meta: Meta, path: string, userId: string, kwargs: map<string, string>, projects: set<string>,
    detailType: string, columns: seq<string>, reverse: (string, map<string, string>) -> string)
    requires GetContextData(meta, path, userId, kwargs, projects, detailType, columns, reverse).Success?
    ensures var c := GetContextData(meta, path, userId, kwargs, projects, detailType, columns, reverse).value;
      (c.baseTemplate == "project_dashboard.html" <==> Contains(path, "projects"))
      && (c.baseTemplate == "base_dashboard.html" <==> !Contains(path, "projects"))
      && (c.project.Some? <==> Contains(path, "projects"))
      && (c.project.Some? ==> c.project.value == kwargs["project_pk"] && c.project.value in projects)
      && c.listContext.listUrl == reverse(ListUrl(meta), BaseUrlKwargs(userId, c.project))
  {
  }

  /** A "page" detail type links a detail page, any other value a detail
      view; never both. */
  lemma DetailLinkChoice(
    meta: Meta, path: string, userId: string, kwargs: map<string, string>, projects: set<string>,
    detailType: string, columns: seq<string>, reverse: (string, map<string, string>) -> string)
    requires GetContextData(meta, path, userId, kwargs, projects, detailType, columns, reverse).Success?
    ensures var c := GetContextData(meta, path, userId, kwargs, projects, detailType, columns, reverse).value;
      var detail := reverse(VerbUrl(meta, "detail"), BaseUrlKwargs(userId, c.project) + Item(meta));
      (detailType == "page" ==> c.listContext.detailPageUrl == Some(detail) && c.listContext.detailUrl.None?)
      && (detailType != "page" ==> c.listContext.detailUrl == Some(detail) && c.listContext.detailPageUrl.None?)
  {
  }

  /** Links to one item carry the shared arguments plus the placeholder pk. */
  lemma ItemKwargs(meta: Meta, userId: string, project: Option<string>)
    requires ItemPkName(meta) != "user_id" && ItemPkName(meta) != "project_pk"
    ensures var k := BaseUrlKwargs(userId, project) + Item(meta);
      k.Keys == BaseUrlKwargs(userId, project).Keys + {ItemPkName(meta)}
      && k[ItemPkName(meta)] == "__placeholder__" && k["user_id"] == userId
  {
  }

  /** Unlike the newer convention, the list URL keeps the plural's spaces:
      every character of the verbose plural, a space included, appears
      unchanged after the app label and the colon. */
  lemma ListUrlKeepsSpaces(meta: Meta, k: nat)
    requires k < |meta.verboseNamePlural|
    ensures |ListUrl(meta)| == |meta.appLabel| + 1 + |meta.verboseNamePlural|
    ensures ListUrl(meta)[|meta.appLabel| + 1 + k] == meta.verboseNamePlural[k]
  {
  }
}
