/** core/generics/views.py: the decisions the generic list, create, delete
    and detail views take from the request: which template, whether to
    export, which detail link, which form class and arguments, where to go
    after a delete, and the history of a record paired with its diffs. */
module GenericViews {
  import opened Wrappers
  import opened Text
  import UrlMixins

  /** `determine_template_name`: the bare list for an HX-Context of "block",
      the full page otherwise. */
  function DetermineTemplateName(hxContext: Option<string>): (r: string)
    ensures r == "list.html" <==> hxContext == Some("block")
    ensures r == "list_page.html" <==> hxContext != Some("block")
  {
    if hxContext == Some("block") then "list.html" else "list_page.html"
  }

  /** What a list GET answers with. */
  datatype ListGet = CsvExport | ListPage

  /** `get`: a non-empty HX-Download header turns the request into a CSV
      export of the queryset. */
  function ListViewGet(hxDownload: Option<string>): (r: ListGet)
    ensures r == CsvExport <==> hxDownload.Some? && hxDownload.value != []
  {
    if hxDownload.Some? && hxDownload.value != [] then CsvExport else ListPage
  }

  /** The list context object the templates read; the detail fields start
      unset. */
  class ListContext {
    var detailUrl: Option<string>
    var detailPopover: Option<bool>
    var detailPageUrl: Option<string>

    constructor ()
      ensures detailUrl.None? && detailPopover.None? && detailPageUrl.None?
    {
      detailUrl := None;
      detailPopover := None;
      detailPageUrl := None;
    }
  }

  /** `_configure_detail_context`: "page" links the overview page,
      "popover" turns the popover on, "modal" links the detail view; any
      other type (such as "offcanvas") sets nothing. */
  method ConfigureDetailContext(lc: ListContext, detailType: string, overviewUrl: string, detailUrl: string)
    modifies lc
    ensures detailType == "page" ==> lc.detailPageUrl == Some(overviewUrl)
    ensures detailType != "page" ==> lc.detailPageUrl == old(lc.detailPageUrl)
    ensures detailType == "popover" ==> lc.detailPopover == Some(true)
    ensures detailType != "popover" ==> lc.detailPopover == old(lc.detailPopover)
    ensures detailType == "modal" ==> lc.detailUrl == Some(detailUrl)
    ensures detailType != "modal" ==> lc.detailUrl == old(lc.detailUrl)
  {
    if detailType == "page" {
      lc.detailPageUrl := Some(overviewUrl);
    } else if detailType == "popover" {
      lc.detailPopover := Some(true);
    } else if detailType == "modal" {
      lc.detailUrl := Some(detailUrl);
    }
  }

  /** On a fresh list context at most one detail field is set, and none for
      a type other than the three. */
  method FreshDetailContext(detailType: string, overviewUrl: string, detailUrl: string) returns (lc: ListContext)
    ensures fresh(lc)
    ensures (lc.detailPageUrl.Some? ==> lc.detailPopover.None? && lc.detailUrl.None?)
    ensures (lc.detailPopover.Some? ==> lc.detailUrl.None?)
    ensures detailType !in {"page", "popover", "modal"} ==>
      lc.detailPageUrl.None? && lc.detailPopover.None? && lc.detailUrl.None?
  {
    lc := new ListContext();
    ConfigureDetailContext(lc, detailType, overviewUrl, detailUrl);
  }

  /** `AttributeError` for a view without `bulk_form_class`. */
  datatype AttributeError = NoBulkFormClass

  /** Whether the request asks for the bulk form: a `bulk` query parameter,
      whatever its value, or a posted `bulk` of "true". */
  predicate BulkRequested(getKeys: set<string>, postBulk: Option<string>) {
    "bulk" in getKeys || postBulk == Some("true")
  }

  /** `get_form_class`. */
  function GetFormClass(formClass: string, bulkFormClass: Option<string>, getKeys: set<string>, postBulk: Option<string>): (r: Result<string, AttributeError>)
    ensures r.Failure? <==> BulkRequested(getKeys, postBulk) && bulkFormClass.None?
    ensures r.Success? ==> r.value == if BulkRequested(getKeys, postBulk) then bulkFormClass.value else formClass
  {
    if BulkRequested(getKeys, postBulk) then
      if bulkFormClass.Some? then Success(bulkFormClass.value) else Failure(NoBulkFormClass)
    else Success(formClass)
  }

  /** `get_form_kwargs`: `instance` is dropped when the chosen class is the
      bulk form class. */
  function GetFormKwargs<V>(kwargs: map<string, V>, formClass: string, bulkFormClass: Option<string>, getKeys: set<string>, postBulk: Option<string>): (r: map<string, V>)
    ensures r.Keys <= kwargs.Keys
    ensures forall k :: k in kwargs && k != "instance" ==> k in r && r[k] == kwargs[k]
    ensures bulkFormClass.None? ==> r == kwargs
  {
    if bulkFormClass.None? then kwargs
    else if GetFormClass(formClass, bulkFormClass, getKeys, postBulk) == Success(bulkFormClass.value) then kwargs - {"instance"}
    else kwargs
  }

  /** With a bulk form class distinct from the regular one, `instance` is
      dropped exactly for a bulk request, and nothing else changes. */
  lemma InstanceDroppedForBulk<V>(kwargs: map<string, V>, formClass: string, bulkFormClass: string, getKeys: set<string>, postBulk: Option<string>)
    requires formClass != bulkFormClass
    ensures var r := GetFormKwargs(kwargs, formClass, Some(bulkFormClass), getKeys, postBulk);
      ("instance" in r <==> "instance" in kwargs && !BulkRequested(getKeys, postBulk))
      && forall k :: k in kwargs && k != "instance" ==> k in r && r[k] == kwargs[k]
  {
  }

  /** When both names are the same class, `instance` is dropped on every
      request, bulk or not. */
  lemma SameClassAlwaysDrops<V>(kwargs: map<string, V>, formClass: string, getKeys: set<string>, postBulk: Option<string>)
    ensures "instance" !in GetFormKwargs(kwargs, formClass, Some(formClass), getKeys, postBulk)
  {
  }

  /** The tests `get_redirect_url` makes on the page the delete came from. */
  predicate FromObjectPage(currentUrl: string, pk: nat, modelName: string) {
    EndsWith(currentUrl, "/" + NatToString(pk) + "/")
    || EndsWith(currentUrl, "/" + NatToString(pk) + "/overview/")
    || modelName == "location"
  }

  /** Why a delete fails: `Http404` from the object or project lookup,
      `AttributeError` from `current_url.endswith` when the request carries
      no HX-Current-URL header (`current_url` is then `None`), and
      `ImproperlyConfigured` from the framework delete of a view without a
      success URL, and `ProtectedError` from deleting an object that a
      `PROTECT` foreign key still references (a project with locations, a
      location or sensor with deployments, a location with groundwater
      measurements). */
  datatype DeleteError = PageNotFound | CurrentUrlMissing | SuccessUrlMissing | ProtectedError

  /** `get_redirect_url`: the list URL (reversed with the base arguments)
      when the delete came from the object's own detail or overview page, or
      the model is the location; `None` otherwise. The base arguments are
      computed first, so a bad project pk is a 404 whatever the current URL;
      then a missing current URL raises before any test is made. */
  function GetRedirectUrl(
    meta: Option<UrlMixins.Meta>, path: string, kwargs: map<string, string>, projects: set<string>,
    currentUrl: Option<string>, pk: nat, reverse: (string, map<string, string>) -> string
  ): (r: Result<Option<string>, DeleteError>)
    ensures UrlMixins.BaseUrlKwargs(meta, path, kwargs, projects).Failure? ==> r == Failure(PageNotFound)
    ensures UrlMixins.BaseUrlKwargs(meta, path, kwargs, projects).Success? && currentUrl.None? ==> r == Failure(CurrentUrlMissing)
    ensures r.Success? <==> UrlMixins.BaseUrlKwargs(meta, path, kwargs, projects).Success? && currentUrl.Some?
  {
    match UrlMixins.BaseUrlKwargs(meta, path, kwargs, projects)
    case Failure(_) => Failure(PageNotFound)
    case Success(listKwargs) =>
      if currentUrl.None? then Failure(CurrentUrlMissing)
      else if !FromObjectPage(currentUrl.value, pk, UrlMixins.ModelName(meta)) then Success(None)
      else Success(Some(reverse(UrlMixins.UrlName(meta, "list"), listKwargs)))
  }

  /** A delete from the object's own page leads back to the list; one from
      anywhere else stays put (the list refreshes on `configRequest`). */
  lemma RedirectRule(
    meta: Option<UrlMixins.Meta>, path: string, kwargs: map<string, string>, projects: set<string>,
    currentUrl: string, pk: nat, reverse: (string, map<string, string>) -> string)
    requires UrlMixins.BaseUrlKwargs(meta, path, kwargs, projects).Success?
    ensures var r := GetRedirectUrl(meta, path, kwargs, projects, Some(currentUrl), pk, reverse);
      r.Success?
      && (r.value.Some? <==> FromObjectPage(currentUrl, pk, UrlMixins.ModelName(meta)))
      && (r.value.Some? ==> r.value.value == reverse(UrlMixins.UrlName(meta, "list"), UrlMixins.BaseUrlKwargs(meta, path, kwargs, projects).value))
  {
  }

  /** The detail page of the deleted object counts as its own page. */
  lemma DetailPageRedirects(prefix: string, pk: nat, modelName: string)
    ensures FromObjectPage(prefix + "/" + NatToString(pk) + "/", pk, modelName)
  {
    var suffix := "/" + NatToString(pk) + "/";
    assert (prefix + suffix)[|prefix + suffix| - |suffix|..] == suffix;
  }

  /** The test only reads the end of the URL: a page of another kind whose
      URL ends in the deleted object's pk, such as the page "/projects/5/"
      of project 5 when a sensor with pk 5 is deleted from it, counts as the
      deleted object's own page. */
  lemma SuffixTestOnly(prefix: string, pk: nat, modelName: string)
    ensures FromObjectPage(prefix + "/" + NatToString(pk) + "/", pk, modelName)
    ensures FromObjectPage(prefix + "/" + NatToString(pk) + "/overview/", pk, modelName)
  {
    DetailPageRedirects(prefix, pk, modelName);
    var suffix := "/" + NatToString(pk) + "/overview/";
    assert (prefix + suffix)[|prefix + suffix| - |suffix|..] == suffix;
  }

  /** The stored objects, by pk. */
  class Store {
    var pks: set<nat>

    constructor (pks: set<nat>)
      ensures this.pks == pks
    {
      this.pks := pks;
    }
  }

  /** The answer to a delete: for HTMX a bodiless response with headers,
      otherwise the framework's redirect to the success URL. */
  datatype DeleteResponse =
    | Htmx(status: nat, headers: map<string, string>)
    | Redirect(url: string)

  /** `delete`: the object is looked up first (a 404 when it is gone) and
      the redirect is decided while it still exists. For HTMX the object is
      deleted and the answer is a 204 asking the page to refresh, with a
      redirect header exactly when there is a redirect URL. Otherwise the
      framework's delete looks up the success URL (`ImproperlyConfigured`
      when the view has none), deletes and redirects there. `protected`
      says that a `PROTECT` foreign key references the object: its delete
      raises and nothing is removed. The object is deleted exactly when the
      delete succeeds. */
  method Delete(
    store: Store, pk: nat, isHtmx: bool, currentUrl: Option<string>, successUrl: Option<string>, protected: bool,
    meta: Option<UrlMixins.Meta>, path: string, kwargs: map<string, string>, projects: set<string>,
    reverse: (string, map<string, string>) -> string
  ) returns (r: Result<DeleteResponse, DeleteError>)
    modifies store
    ensures store.pks == if r.Success? then old(store.pks) - {pk} else old(store.pks)
    ensures pk !in old(store.pks) ==> r == Failure(PageNotFound)
    ensures pk in old(store.pks) ==>
      var redirect := GetRedirectUrl(meta, path, kwargs, projects, currentUrl, pk, reverse);
      (redirect.Failure? ==> r == Failure(redirect.error))
      && (redirect.Success? && isHtmx ==>
            r == if protected then Failure(ProtectedError) else Success(Htmx(204, DeleteHeaders(redirect.value))))
      && (redirect.Success? && !isHtmx ==>
            r == if successUrl.None? then Failure(SuccessUrlMissing)
                 else if protected then Failure(ProtectedError)
                 else Success(Redirect(successUrl.value)))
  {
    if pk !in store.pks {
      return Failure(PageNotFound);
    }
    var redirect := GetRedirectUrl(meta, path, kwargs, projects, currentUrl, pk, reverse);
    if redirect.Failure? {
      return Failure(redirect.error);
    }
    if isHtmx {
      if protected {
        return Failure(ProtectedError);
      }
      store.pks := store.pks - {pk};
      var headers := map["HX-Trigger" := "configRequest"];
      if redirect.value.Some? && redirect.value.value != [] {
        headers := headers["HX-Redirect" := redirect.value.value];
      }
      return Success(Htmx(204, headers));
    }
    if successUrl.None? {
      return Failure(SuccessUrlMissing);
    }
    if protected {
      return Failure(ProtectedError);
    }
    store.pks := store.pks - {pk};
    return Success(Redirect(successUrl.value));
  }

  /** The headers of an HTMX delete. */
  function DeleteHeaders(redirectUrl: Option<string>): (h: map<string, string>)
    ensures "HX-Trigger" in h && h["HX-Trigger"] == "configRequest"
    ensures "HX-Redirect" in h <==> redirectUrl.Some? && redirectUrl.value != []
    ensures "HX-Redirect" in h ==> h["HX-Redirect"] == redirectUrl.value
    ensures h.Keys <= {"HX-Trigger", "HX-Redirect"}
  {
    if redirectUrl.Some? && redirectUrl.value != [] then
      map["HX-Trigger" := "configRequest", "HX-Redirect" := redirectUrl.value]
    else map["HX-Trigger" := "configRequest"]
  }

  /** One entry of the history list: a record, the record before it (the
      next one, history being newest first), and their diff. */
  datatype HistoryEntry<R, C> = HistoryEntry(record: R, prevRecord: Option<R>, changes: Option<C>)

  /** `handle_history`: nothing for an object without history; otherwise
      one entry per record, in order, each paired with the record after it
      and their diff, the last one with neither. */
  method HandleHistory<R, C>(history: Option<seq<R>>, diff: (R, R) -> C) returns (entries: seq<HistoryEntry<R, C>>)
    ensures history.None? ==> entries == []
    ensures history.Some? ==> |entries| == |history.value|
    ensures history.Some? ==> forall i :: 0 <= i < |entries| ==> entries[i].record == history.value[i]
    ensures history.Some? ==> forall i :: 0 <= i < |entries| - 1 ==>
      entries[i].prevRecord == Some(history.value[i + 1]) && entries[i].changes == Some(diff(history.value[i], history.value[i + 1]))
    ensures history.Some? && entries != [] ==> entries[|entries| - 1].prevRecord.None? && entries[|entries| - 1].changes.None?
  {
    if history.None? {
      return [];
    }
    var h := history.value;
    entries := [];
    var i := 0;
    while i < |h|
      invariant 0 <= i <= |h| && |entries| == i
      invariant forall j :: 0 <= j < i ==> entries[j] == EntryAt(h, j, diff)
    {
      var prev: Option<R> := if i + 1 < |h| then Some(h[i + 1]) else None;
      var changes: Option<C> := None;
      if prev.Some? {
        changes := Some(diff(h[i], prev.value));
      }
      var entry := HistoryEntry(h[i], prev, changes);
      assert entry == EntryAt(h, i, diff);
      entries := entries + [entry];
      i := i + 1;
    }
  }

  /** Entry `j` of the history list of `h`. */
  function EntryAt<R, C>(h: seq<R>, j: nat, diff: (R, R) -> C): HistoryEntry<R, C>
    requires j < |h|
  {
    if j + 1 < |h| then HistoryEntry(h[j], Some(h[j + 1]), Some(diff(h[j], h[j + 1])))
    else HistoryEntry(h[j], None, None)
  }
}
