/** core/mixins.py: the older HTMX mixins. HTMX is recognised by a non-empty
    `HX-Request` header; a valid form is saved and answered with a bare
    status (204 by default) and an optional `HX-Trigger` header; a delete
    always asks the page to refresh. */
module CoreMixins {
  import opened Wrappers
  import HtmxForms

  /** `is_htmx_request`: the `HX-Request` header is present and non-empty. */
  predicate IsHtmxRequest(hxRequest: Option<string>) {
    hxRequest.Some? && hxRequest.value != []
  }

  datatype Rendered = HtmxTemplate | DefaultRender

  /** `render_to_response`. */
  function RenderToResponse(hxRequest: Option<string>): (r: Rendered)
    ensures r == HtmxTemplate <==> IsHtmxRequest(hxRequest)
  {
    if IsHtmxRequest(hxRequest) then HtmxTemplate else DefaultRender
  }

  /** The class defaults. */
  const DefaultTrigger: Option<string> := None
  const DefaultResponseStatus: int := 204
  const DefaultInvalidStatus: int := 400

  /** The steps `form_valid` takes, in order. */
  datatype Step = UpdateFormInstance | Save

  function FormValidSteps(hasSave: bool): (steps: seq<Step>)
    ensures |steps| >= 1 && steps[0] == UpdateFormInstance
    ensures Save in steps <==> hasSave
    ensures hasSave ==> |steps| == 2 && steps[|steps| - 1] == Save
  {
    [UpdateFormInstance] + (if hasSave then [Save] else [])
  }

  datatype Response =
    | Http(status: int, headers: map<string, string>)
    | Json(message: string, status: int)

  /** `form_valid`'s answer: the `HX-Trigger` header for HTMX exactly when
      the trigger is non-empty; JSON with the same status otherwise. */
  function FormValidResponse(hxRequest: Option<string>, trigger: Option<string>, status: int): (r: Response)
    ensures r.Http? <==> IsHtmxRequest(hxRequest)
    ensures r.status == status
    ensures r.Http? ==> ("HX-Trigger" in r.headers <==> trigger.Some? && trigger.value != [])
    ensures r.Http? ==> r.headers.Keys <= {"HX-Trigger"}
    ensures r.Http? && "HX-Trigger" in r.headers ==> r.headers["HX-Trigger"] == trigger.value
    ensures r.Json? ==> r.message == "Success"
  {
    if IsHtmxRequest(hxRequest) then
      Http(status, if trigger.Some? && trigger.value != [] then map["HX-Trigger" := trigger.value] else map[])
    else Json("Success", status)
  }

  /** `form_valid` on a form whose model instance is `instance`; a form
      without one (null) is a plain form, which has no `save` either. The
      hook `update_form_instance` is the base class's, which changes nothing.
      `steps` lists the steps taken, in order: the instance is saved once,
      as the hook left it, and the answer follows. */
  method FormValid(instance: HtmxForms.Instance?, hxRequest: Option<string>, trigger: Option<string>, status: int)
    returns (r: Response, steps: seq<Step>)
    modifies instance
    ensures steps == FormValidSteps(instance != null)
    ensures r == FormValidResponse(hxRequest, trigger, status)
    ensures instance != null ==>
      instance.saves == old(instance.saves) + 1 && instance.stored == Some(instance.Columns())
      && instance.user == old(instance.user) && instance.project == old(instance.project)
      && instance.location == old(instance.location)
  {
    steps := [UpdateFormInstance];
    if instance != null {
      steps := steps + [Save];
      instance.Save();
    }
    r := FormValidResponse(hxRequest, trigger, status);
  }

  /** With the class defaults, an HTMX success is a bare 204 without any
      header, and a JSON success is also 204. */
  lemma DefaultSuccess(hxRequest: Option<string>)
    ensures var r := FormValidResponse(hxRequest, DefaultTrigger, DefaultResponseStatus);
      r.status == 204 && (r.Http? ==> r.headers == map[])
  {
  }

  datatype Invalid = Rerendered(status: int, contentType: string, steps: seq<Step>) | DefaultInvalid

  /** `form_invalid`: HTMX gets the form again as HTML with the invalid
      status, after the instance hook. */
  function FormInvalid(hxRequest: Option<string>, invalidStatus: int): (r: Invalid)
    ensures r.Rerendered? <==> IsHtmxRequest(hxRequest)
    ensures r.Rerendered? ==> r.status == invalidStatus && r.contentType == "text/html" && r.steps == [UpdateFormInstance]
  {
    if IsHtmxRequest(hxRequest) then Rerendered(invalidStatus, "text/html", [UpdateFormInstance]) else DefaultInvalid
  }

  /** The stored objects, by pk. */
  class Store {
    var pks: set<nat>

    constructor (pks: set<nat>)
      ensures this.pks == pks
    {
      this.pks := pks;
    }
  }

  /** What a delete answers. `DeletedThenNotFound` is the 404 of the
      framework's delete looking up again an object already gone;
      `ProtectedError` is the 500 of deleting an object that a `PROTECT`
      foreign key still references; `SuccessUrlMissing` is
      `ImproperlyConfigured` for a view without a success URL. */
  datatype DeleteResponse =
    | HtmxDeleted(status: int, headers: map<string, string>)
    | Redirect(url: string)
    | NotFound
    | ProtectedError
    | SuccessUrlMissing
    | DeletedThenNotFound

  /** The stored objects after a delete, and its answer. */
  datatype DeleteOutcome = DeleteOutcome(pks: set<nat>, response: DeleteResponse)

  /** The answers that report a completed delete. */
  predicate Deleted(r: DeleteResponse) {
    r.HtmxDeleted? || r.Redirect?
  }

  /** The headers of an HTMX delete: the refresh trigger always, the
      redirect exactly when the view defines `htmx_redirect`. */
  function DeleteHeaders(htmxRedirect: Option<string>): (h: map<string, string>)
    ensures "HX-Trigger" in h && h["HX-Trigger"] == "configRequest"
    ensures "HX-Redirect" in h <==> htmxRedirect.Some?
    ensures htmxRedirect.Some? ==> h["HX-Redirect"] == htmxRedirect.value
    ensures h.Keys <= {"HX-Trigger", "HX-Redirect"}
  {
    if htmxRedirect.Some? then map["HX-Trigger" := "configRequest", "HX-Redirect" := htmxRedirect.value]
    else map["HX-Trigger" := "configRequest"]
  }

  /** `DeleteHTMX.delete` as written. The object is looked up (404) and
      deleted before the request is looked at; a protected object raises and
      nothing is deleted. HTMX then gets 204 with the headers. Any other
      request reaches the framework's `DeletionMixin.delete` (the views put
      `DeleteHTMX` before `DeleteView`), whose first step is `get_object()`
      on the row just deleted: a 404 after the delete. */
  function DeleteAsWritten(pks: set<nat>, pk: nat, hxRequest: Option<string>, htmxRedirect: Option<string>, protected: bool): (r: DeleteOutcome)
    ensures r.pks == pks || r.pks == pks - {pk}
    ensures pk in r.pks <==> pk in pks && protected
    ensures r.response == NotFound <==> pk !in pks
    ensures r.response == ProtectedError <==> pk in pks && protected
    ensures pk in pks && !protected ==> (Deleted(r.response) <==> IsHtmxRequest(hxRequest))
    ensures Deleted(r.response) ==> r.response == HtmxDeleted(204, DeleteHeaders(htmxRedirect))
  {
    if pk !in pks then DeleteOutcome(pks, NotFound)
    else if protected then DeleteOutcome(pks, ProtectedError)
    else if IsHtmxRequest(hxRequest) then DeleteOutcome(pks - {pk}, HtmxDeleted(204, DeleteHeaders(htmxRedirect)))
    else DeleteOutcome(pks - {pk}, DeletedThenNotFound)
  }

  /** As written, a delete that is not an HTMX request removes the row and
      answers 404: the answer says nothing was found although the row is
      gone. */
  lemma NonHtmxDeleteAnswers404(pks: set<nat>, pk: nat, hxRequest: Option<string>, htmxRedirect: Option<string>)
    requires pk in pks && !IsHtmxRequest(hxRequest)
    ensures var r := DeleteAsWritten(pks, pk, hxRequest, htmxRedirect, false);
      pk !in r.pks && r.pks != pks && r.response == DeletedThenNotFound && !Deleted(r.response)
  {
  }

  /** The delete as the mixin evidently means it: HTMX as written, and any
      other request handed to `DeletionMixin.delete` with the object still
      there, which reads the success URL (`ImproperlyConfigured` without
      one), deletes and redirects there. The row is removed exactly when the
      answer reports a delete. */
  function DeleteIntended(pks: set<nat>, pk: nat, hxRequest: Option<string>, htmxRedirect: Option<string>, successUrl: Option<string>, protected: bool): (r: DeleteOutcome)
    ensures r.pks == if Deleted(r.response) then pks - {pk} else pks
    ensures Deleted(r.response) <==> pk in pks && !protected && (IsHtmxRequest(hxRequest) || successUrl.Some?)
    ensures r.response == NotFound <==> pk !in pks
    ensures r.response.Redirect? ==> successUrl == Some(r.response.url) && !IsHtmxRequest(hxRequest)
    ensures !r.response.DeletedThenNotFound?
  {
    if pk !in pks then DeleteOutcome(pks, NotFound)
    else if IsHtmxRequest(hxRequest) then
      if protected then DeleteOutcome(pks, ProtectedError)
      else DeleteOutcome(pks - {pk}, HtmxDeleted(204, DeleteHeaders(htmxRedirect)))
    else if successUrl.None? then DeleteOutcome(pks, SuccessUrlMissing)
    else if protected then DeleteOutcome(pks, ProtectedError)
    else DeleteOutcome(pks - {pk}, Redirect(successUrl.value))
  }

  /** The correction changes only requests that are not HTMX. */
  lemma IntendedAgreesOnHtmx(pks: set<nat>, pk: nat, hxRequest: Option<string>, htmxRedirect: Option<string>, successUrl: Option<string>, protected: bool)
    requires IsHtmxRequest(hxRequest)
    ensures DeleteIntended(pks, pk, hxRequest, htmxRedirect, successUrl, protected) == DeleteAsWritten(pks, pk, hxRequest, htmxRedirect, protected)
  {
  }

  /** `DeleteHTMX.delete` on the stored objects, with the effect and answer
      of `DeleteAsWritten`. */
  method Delete(store: Store, pk: nat, hxRequest: Option<string>, htmxRedirect: Option<string>, protected: bool) returns (r: DeleteResponse)
    modifies store
    ensures var o := DeleteAsWritten(old(store.pks), pk, hxRequest, htmxRedirect, protected);
      store.pks == o.pks && r == o.response
  {
    if pk !in store.pks {
      return NotFound;
    }
    if protected {
      return ProtectedError;
    }
    store.pks := store.pks - {pk};
    if hxRequest.Some? && hxRequest.value != [] {
      var headers := map["HX-Trigger" := "configRequest"];
      if htmxRedirect.Some? {
        headers := headers["HX-Redirect" := htmxRedirect.value];
      }
      return HtmxDeleted(204, headers);
    }
    return DeletedThenNotFound;
  }
}
