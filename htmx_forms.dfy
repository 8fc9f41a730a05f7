/** core/generics/htmx.py: the form mixins of the generic views. Before a
    form is saved they fill in the project, the location and the requesting
    user; after it is saved they answer HTMX with a bare status and a trigger
    header, anyone else with JSON. Object lookups are sets of stored pks. */
module HtmxForms {
  import opened Wrappers

  /** `render_to_response`: the HTMX template for an HTMX request. */
  datatype Rendered = HtmxTemplate | DefaultRender

  function RenderToResponse(isHtmx: bool): (r: Rendered)
    ensures r == HtmxTemplate <==> isHtmx
  {
    if isHtmx then HtmxTemplate else DefaultRender
  }

  datatype NotFound = Http404

  /** `get_initial`: the project from the URL, unless the model is the
      project itself, and the location from the URL, looked up (404 when it
      does not exist). Values are pks. */
  function GetInitial(initial: map<string, string>, kwargs: map<string, string>, modelName: string, locations: set<string>): (r: Result<map<string, string>, NotFound>)
    ensures r.Failure? <==> "location_pk" in kwargs && kwargs["location_pk"] !in locations
    ensures r.Success? ==> r.value.Keys <= initial.Keys + {"project", "location"}
    ensures r.Success? ==> forall k :: k in initial && k != "project" && k != "location" ==> k in r.value && r.value[k] == initial[k]
  {
    var withProject := if "project_pk" in kwargs && modelName != "project" then initial["project" := kwargs["project_pk"]] else initial;
    if "location_pk" in kwargs then
      if kwargs["location_pk"] in locations then Success(withProject["location" := kwargs["location_pk"]])
      else Failure(Http404)
    else Success(withProject)
  }

  /** The initial data gains `project` exactly when the URL names a project
      and the model is not "project", and `location` exactly when the URL
      names a location; everything else is kept. */
  lemma InitialRule(initial: map<string, string>, kwargs: map<string, string>, modelName: string, locations: set<string>)
    requires "location_pk" in kwargs ==> kwargs["location_pk"] in locations
    ensures var r := GetInitial(initial, kwargs, modelName, locations);
      r.Success?
      && ("project_pk" in kwargs && modelName != "project" ==> "project" in r.value && r.value["project"] == kwargs["project_pk"])
      && ("location_pk" in kwargs ==> "location" in r.value && r.value["location"] == kwargs["location_pk"])
      && (forall k :: k in initial && k != "project" && k != "location" ==> k in r.value && r.value[k] == initial[k])
      && (forall k :: k in r.value ==> k in initial || k == "project" || k == "location")
  {
  }

  /** The unknown location is the only failure. */
  lemma InitialFails(initial: map<string, string>, kwargs: map<string, string>, modelName: string, locations: set<string>)
    ensures GetInitial(initial, kwargs, modelName, locations).Failure?
      <==> "location_pk" in kwargs && kwargs["location_pk"] !in locations
  {
  }

  /** A user, by id. */
  type User = nat

  /** An instance's `user` field: absent, a many-to-many set, or a foreign
      key that may be empty. */
  datatype UserField = NoUserField | ManyToMany(users: set<User>) | ForeignKey(user: Option<User>)

  /** `update_user` on the field: nothing without a requesting user; a
      many-to-many set gains the requester; an empty foreign key takes it;
      a set foreign key is never overwritten. */
  function UserAfter(field: UserField, requester: Option<User>): (r: UserField)
    ensures requester.None? ==> r == field
    ensures r.NoUserField? <==> field.NoUserField?
    ensures field.ManyToMany? && requester.Some? ==> r.ManyToMany? && r.users == field.users + {requester.value}
    ensures field.ForeignKey? && requester.Some? ==> r.ForeignKey? && r.user.Some? && (field.user.Some? ==> r == field)
  {
    if requester.None? then field
    else match field
      case NoUserField => field
      case ManyToMany(users) => if requester.value in users then field else ManyToMany(users + {requester.value})
      case ForeignKey(user) => if user.None? then ForeignKey(requester) else field
  }

  /** Updating twice is updating once. */
  lemma UpdateUserIdempotent(field: UserField, requester: Option<User>)
    ensures UserAfter(UserAfter(field, requester), requester) == UserAfter(field, requester)
  {
  }

  /** With a requester, a many-to-many field ends up holding it, losing no
      one. */
  lemma RequesterJoinsUsers(users: set<User>, requester: User)
    ensures UserAfter(ManyToMany(users), Some(requester)) == ManyToMany(users + {requester})
  {
  }

  /** A foreign key already set keeps its user; an empty one gets the
      requester. */
  lemma ForeignKeyKept(user: Option<User>, requester: User)
    ensures UserAfter(ForeignKey(user), Some(requester)) == ForeignKey(if user.Some? then user else Some(requester))
  {
  }

  /** The columns a save writes: the project, the location and, for a
      foreign-key user field, the user. A many-to-many user set lives in a
      table of its own, which `add` writes at once. */
  datatype Row = Row(project: Option<string>, location: Option<string>, user: Option<User>)

  /** The model instance a form edits, with the row its last save wrote. */
  class Instance {
    var user: UserField
    var hasProject: bool
    var project: Option<string>
    var location: Option<string>
    var saves: nat
    var stored: Option<Row>

    constructor (user: UserField, hasProject: bool)
      ensures this.user == user && this.hasProject == hasProject
      ensures project.None? && location.None? && saves == 0 && stored.None?
    {
      this.user := user;
      this.hasProject := hasProject;
      project := None;
      location := None;
      saves := 0;
      stored := None;
    }

    /** The columns as they are now. */
    function Columns(): Row
      reads this
    {
      Row(project, location, if user.ForeignKey? then user.user else None)
    }

    /** `save()`: the columns are written. */
    method Save()
      modifies this
      ensures stored == Some(old(Columns())) && saves == old(saves) + 1
      ensures user == old(user) && hasProject == old(hasProject) && project == old(project) && location == old(location)
    {
      stored := Some(Columns());
      saves := saves + 1;
    }
  }

  /** `update_user` fills an empty foreign key: the case that saves. */
  predicate FillsForeignKey(field: UserField, requester: Option<User>) {
    field.ForeignKey? && field.user.None? && requester.Some?
  }

  /** `update_user`: a null instance is left alone; a foreign key that gets
      the requester is saved. */
  method UpdateUser(instance: Instance?, requester: Option<User>)
    modifies instance
    ensures instance != null ==> instance.user == UserAfter(old(instance.user), requester)
    ensures instance != null ==> instance.saves == old(instance.saves) + (if FillsForeignKey(old(instance.user), requester) then 1 else 0)
    ensures instance != null ==> instance.stored == if FillsForeignKey(old(instance.user), requester) then Some(instance.Columns()) else old(instance.stored)
    ensures instance != null ==> instance.project == old(instance.project) && instance.location == old(instance.location) && instance.hasProject == old(instance.hasProject)
  {
    if instance == null {
      return;
    }
    if instance.user.NoUserField? || requester.None? {
      return;
    } else if instance.user.ManyToMany? && requester.value !in instance.user.users {
      instance.user := ManyToMany(instance.user.users + {requester.value});
    } else if instance.user.ForeignKey? && instance.user.user.None? {
      instance.user := ForeignKey(requester);
      instance.Save();
    }
  }

  /** `update_project`: a form without an instance, or an instance without a
      project field, is left alone; otherwise the project becomes what
      `get_project` returns, which is `None` outside "projects". */
  method UpdateProject(instance: Instance?, project: Result<Option<string>, NotFound>) returns (r: Result<(), NotFound>)
    modifies instance
    ensures instance == null || !old(instance.hasProject) ==> r.Success? && (instance != null ==> unchanged(instance))
    ensures instance != null && old(instance.hasProject) && project.Failure? ==> r.Failure? && unchanged(instance)
    ensures instance != null && old(instance.hasProject) && project.Success? ==>
      r.Success? && instance.project == project.value
      && instance.user == old(instance.user) && instance.location == old(instance.location)
      && instance.hasProject && instance.saves == old(instance.saves) && instance.stored == old(instance.stored)
  {
    if instance == null || !instance.hasProject {
      return Success(());
    }
    if project.Failure? {
      return Failure(project.error);
    }
    instance.project := project.value;
    return Success(());
  }

  /** `update_location`: with an instance, a `location_pk` in the URL and a
      model other than the location, the location is looked up (404 when
      missing) and set; the instance's fields are not consulted. */
  method UpdateLocation(instance: Instance?, kwargs: map<string, string>, modelName: string, locations: set<string>) returns (r: Result<(), NotFound>)
    modifies instance
    ensures instance == null || "location_pk" !in kwargs || modelName == "location" ==>
      r.Success? && (instance != null ==> unchanged(instance))
    ensures instance != null && "location_pk" in kwargs && modelName != "location" ==>
      (r.Success? <==> kwargs["location_pk"] in locations)
      && (r.Success? ==> instance.location == Some(kwargs["location_pk"]))
      && (r.Failure? ==> instance.location == old(instance.location))
      && instance.user == old(instance.user) && instance.project == old(instance.project)
      && instance.hasProject == old(instance.hasProject) && instance.saves == old(instance.saves)
      && instance.stored == old(instance.stored)
  {
    if instance == null || "location_pk" !in kwargs || modelName == "location" {
      return Success(());
    }
    if kwargs["location_pk"] !in locations {
      return Failure(Http404);
    }
    instance.location := Some(kwargs["location_pk"]);
    return Success(());
  }

  /** The steps `form_valid` takes, in order. */
  datatype Step = UpdateFormInstance | UpdateProjectStep | UpdateLocationStep | Save | SaveM2M | HandleBulkCreate | UpdateUserStep

  /** The steps of `form_valid`: the instance hooks, then the save (when the
      form can save), the many-to-many save (when it has one), the bulk
      handler (for a posted `bulk` of "true"), and last the user. */
  function FormValidSteps(hasSave: bool, hasSaveM2M: bool, bulk: Option<string>): seq<Step> {
    [UpdateFormInstance, UpdateProjectStep, UpdateLocationStep]
    + (if hasSave then [Save] else [])
    + (if hasSaveM2M then [SaveM2M] else [])
    + (if bulk == Some("true") then [HandleBulkCreate] else [])
    + [UpdateUserStep]
  }

  /** Position of a step in a sequence, `|steps|` when absent. */
  function IndexOf(steps: seq<Step>, s: Step): (i: nat)
    ensures i <= |steps|
    ensures i < |steps| ==> steps[i] == s
    ensures forall k :: 0 <= k < i ==> steps[k] != s
  {
    if steps == [] then 0 else if steps[0] == s then 0 else 1 + IndexOf(steps[1..], s)
  }

  /** The instance hooks run before the save, the save and the many-to-many
      save before the user update, which comes last; the bulk handler runs
      exactly for a posted `bulk` of "true". */
  lemma FormValidOrder(hasSave: bool, hasSaveM2M: bool, bulk: Option<string>)
    ensures var steps := FormValidSteps(hasSave, hasSaveM2M, bulk);
      steps[..3] == [UpdateFormInstance, UpdateProjectStep, UpdateLocationStep]
      && steps[|steps| - 1] == UpdateUserStep
      && (hasSave ==> steps[3] == Save)
      && (hasSaveM2M ==> IndexOf(steps, SaveM2M) < IndexOf(steps, UpdateUserStep) < |steps|)
      && (HandleBulkCreate in steps <==> bulk == Some("true"))
  {
    var steps := FormValidSteps(hasSave, hasSaveM2M, bulk);
    var head := [UpdateFormInstance, UpdateProjectStep, UpdateLocationStep] + (if hasSave then [Save] else []);
    var mid := (if hasSaveM2M then [SaveM2M] else []) + (if bulk == Some("true") then [HandleBulkCreate] else []);
    assert steps == head + mid + [UpdateUserStep];
    StepsShape(head, mid, steps);
    if hasSaveM2M {
      assert mid[0] == SaveM2M;
      FirstAt(steps, SaveM2M, |head|);
    }
    assert HandleBulkCreate in steps <==> HandleBulkCreate in mid;
  }

  /** Where the user update and the steps before it sit. */
  lemma StepsShape(head: seq<Step>, mid: seq<Step>, steps: seq<Step>)
    requires steps == head + mid + [UpdateUserStep] && UpdateUserStep !in head + mid
    ensures IndexOf(steps, UpdateUserStep) == |steps| - 1
    ensures forall k :: 0 <= k < |head| ==> steps[k] == head[k]
    ensures forall k :: 0 <= k < |mid| ==> steps[|head| + k] == mid[k]
  {
    assert forall k :: 0 <= k < |steps| - 1 ==> steps[k] == (head + mid)[k];
    FirstAt(steps, UpdateUserStep, |steps| - 1);
  }

  /** The first occurrence is where `IndexOf` points. */
  lemma FirstAt(steps: seq<Step>, s: Step, i: nat)
    requires i < |steps| && steps[i] == s
    requires forall k :: 0 <= k < i ==> steps[k] != s
    ensures IndexOf(steps, s) == i
  {
  }

  /** The answer to a valid form. */
  datatype Response =
    | Http(status: int, headers: map<string, string>)
    | Json(message: string, status: int)

  /** The answer of `form_valid`: for HTMX the configured status, with the
      `Hx-Trigger` header only for a non-empty trigger; otherwise the JSON
      success message. */
  function FormValidResponse(isHtmx: bool, trigger: Option<string>, status: int): (r: Response)
    ensures isHtmx <==> r.Http?
    ensures r.status == status
    ensures r.Http? ==> ("Hx-Trigger" in r.headers <==> trigger.Some? && trigger.value != [])
    ensures r.Http? ==> r.headers.Keys <= {"Hx-Trigger"}
    ensures r.Http? && "Hx-Trigger" in r.headers ==> r.headers["Hx-Trigger"] == trigger.value
    ensures r.Json? ==> r.message == "Success"
  {
    if isHtmx then Http(status, if trigger.Some? && trigger.value != [] then map["Hx-Trigger" := trigger.value] else map[])
    else Json("Success", status)
  }

  /** `update_location` looks the location up: the URL names one and the
      model is not the location itself. */
  predicate LocationLookedUp(kwargs: map<string, string>, modelName: string) {
    "location_pk" in kwargs && modelName != "location"
  }

  /** `form_valid` on a form whose model instance is `instance`; a form
      without one (null) is a plain form, which has no `save` either. The
      subclass hooks `update_form_instance` and `handle_bulk_create` are the
      base class's, which change nothing, and `save_m2m` writes nothing this
      model keeps. `steps` lists the steps begun, in order. A 404 from the
      project or the location lookup stops everything before the save, so
      nothing is written; otherwise the row written last holds the project
      and location the hooks set and the user `update_user` filled in, at
      the cost of a second save when that was an empty foreign key. */
  method FormValid(
    instance: Instance?, hasSaveM2M: bool, bulk: Option<string>,
    project: Result<Option<string>, NotFound>, kwargs: map<string, string>, modelName: string, locations: set<string>,
    requester: Option<User>, isHtmx: bool, trigger: Option<string>, status: int
  ) returns (r: Result<Response, NotFound>, steps: seq<Step>)
    modifies instance
    ensures r.Success? ==> r.value == FormValidResponse(isHtmx, trigger, status) && steps == FormValidSteps(instance != null, hasSaveM2M, bulk)
    ensures instance == null ==> r.Success?
    ensures instance != null ==>
      (r.Failure? <==> (old(instance.hasProject) && project.Failure?)
                       || (LocationLookedUp(kwargs, modelName) && kwargs["location_pk"] !in locations))
    ensures r.Failure? ==> steps == FormValidSteps(true, hasSaveM2M, bulk)[..if old(instance.hasProject) && project.Failure? then 2 else 3]
    ensures instance != null && r.Failure? ==>
      instance.saves == old(instance.saves) && instance.stored == old(instance.stored) && instance.user == old(instance.user)
    ensures instance != null && r.Success? ==>
      instance.user == UserAfter(old(instance.user), requester)
      && instance.project == (if old(instance.hasProject) then project.value else old(instance.project))
      && instance.location == (if LocationLookedUp(kwargs, modelName) then Some(kwargs["location_pk"]) else old(instance.location))
      && instance.saves == old(instance.saves) + (if FillsForeignKey(old(instance.user), requester) then 2 else 1)
      && instance.stored == Some(instance.Columns())
  {
    steps := [UpdateFormInstance, UpdateProjectStep];
    var p := UpdateProject(instance, project);
    if p.Failure? {
      return Failure(p.error), steps;
    }
    steps := steps + [UpdateLocationStep];
    var l := UpdateLocation(instance, kwargs, modelName, locations);
    if l.Failure? {
      return Failure(l.error), steps;
    }
    var saved: Instance? := null;
    if instance != null {
      steps := steps + [Save];
      instance.Save();
      saved := instance;
    }
    if hasSaveM2M {
      steps := steps + [SaveM2M];
    }
    if bulk == Some("true") {
      steps := steps + [HandleBulkCreate];
    }
    steps := steps + [UpdateUserStep];
    UpdateUser(saved, requester);
    r := Success(FormValidResponse(isHtmx, trigger, status));
  }

  /** The default status is 204. */
  const DefaultResponseStatus: int := 204
  const DefaultInvalidStatus: int := 400

  /** An invalid form: for HTMX the form is re-rendered with the invalid
      status as HTML, after the instance hook; otherwise the framework's
      own answer. */
  datatype Invalid = Rerendered(status: int, contentType: string, steps: seq<Step>) | DefaultInvalid

  function FormInvalid(isHtmx: bool, invalidStatus: int): (r: Invalid)
    ensures r.Rerendered? <==> isHtmx
    ensures r.Rerendered? ==> r.status == invalidStatus && r.contentType == "text/html" && r.steps == [UpdateFormInstance]
  {
    if isHtmx then Rerendered(invalidStatus, "text/html", [UpdateFormInstance]) else DefaultInvalid
  }
}
