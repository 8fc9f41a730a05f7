/** core/views.py: `add_requesting_user_to_form` and the two project views
    that use it. As written the helper appends to the form's cleaned `user`
    value, which for the project's many-to-many field is a queryset and has
    no `append`; the corrected helper reads it as a list, and `set()` makes
    the instance's users exactly that list. */
module ProjectUsers {
  import opened Wrappers
  import HtmxForms

  type User = HtmxForms.User

  /** `cleaned_data["user"]` on a form without that key. */
  datatype KeyError = KeyError

  /** The users of a list, as the many-to-many `set()` stores them. */
  function Members(users: seq<User>): (s: set<User>)
    ensures forall u :: u in s <==> u in users
  {
    set u | u in users
  }

  /** The instance the form edits; `users` is `None` when the model has no
      `user` field. A many-to-many relation is written as soon as it
      changes, so `users` is also what is stored. */
  class Instance {
    var users: Option<set<User>>
    var saves: nat

    constructor (users: Option<set<User>>)
      ensures this.users == users && saves == 0
    {
      this.users := users;
      saves := 0;
    }
  }

  /** The form: its instance and the cleaned `user` list (`None` when the
      key is absent). */
  class Form {
    const instance: Instance
    var cleanedUsers: Option<seq<User>>

    constructor (instance: Instance, cleanedUsers: Option<seq<User>>)
      ensures this.instance == instance && this.cleanedUsers == cleanedUsers
    {
      this.instance := instance;
      this.cleanedUsers := cleanedUsers;
    }
  }

  /** Whether the helper acts: the model has a user field and the requester
      is not among the cleaned users (an absent key reads as an empty list). */
  predicate Acts(hasUserField: bool, cleaned: Option<seq<User>>, requester: User) {
    hasUserField && !(cleaned.Some? && requester in cleaned.value)
  }

  /** The cleaned list after the helper acts. */
  function WithRequester(cleaned: seq<User>, requester: User): (r: seq<User>)
    ensures requester in r && |r| == |cleaned| + 1
    ensures r[..|cleaned|] == cleaned
  {
    cleaned + [requester]
  }

  /** After the helper, the requester is among the stored users, and so is
      everyone the form selected, and no one else. */
  lemma RequesterStored(cleaned: seq<User>, requester: User)
    ensures Members(WithRequester(cleaned, requester)) == Members(cleaned) + {requester}
  {
  }

  /** `add_requesting_user_to_form`: when it acts, the requester is appended
      to the cleaned list and the instance's users become that list (a form
      without the `user` key fails there); otherwise nothing changes. The
      instance is returned. */
  method AddRequestingUser(form: Form, requester: User) returns (r: Result<Instance, KeyError>)
    modifies form, form.instance
    ensures !Acts(old(form.instance.users).Some?, old(form.cleanedUsers), requester) ==>
      r == Success(form.instance) && form.cleanedUsers == old(form.cleanedUsers) && form.instance.users == old(form.instance.users)
    ensures Acts(old(form.instance.users).Some?, old(form.cleanedUsers), requester) && old(form.cleanedUsers).None? ==>
      r == Failure(KeyError) && form.cleanedUsers == old(form.cleanedUsers) && form.instance.users == old(form.instance.users)
    ensures Acts(old(form.instance.users).Some?, old(form.cleanedUsers), requester) && old(form.cleanedUsers).Some? ==>
      r == Success(form.instance)
      && form.cleanedUsers == Some(WithRequester(old(form.cleanedUsers).value, requester))
      && form.instance.users == Some(Members(form.cleanedUsers.value))
    ensures form.instance.saves == old(form.instance.saves)
  {
    var hasUserField := form.instance.users.Some?;
    var current := if form.cleanedUsers.Some? then form.cleanedUsers.value else [];
    if hasUserField && requester !in current {
      if form.cleanedUsers.None? {
        return Failure(KeyError);
      }
      form.cleanedUsers := Some(form.cleanedUsers.value + [requester]);
      form.instance.users := Some(Members(form.cleanedUsers.value));
      return Success(form.instance);
    }
    return Success(form.instance);
  }

  /** What escapes the helper as written. */
  datatype Raised = KeyErrorRaised | AttributeErrorRaised

  /** `add_requesting_user_to_form` as written: when it acts, the cleaned
      `user` value of the project form is the queryset its many-to-many
      field cleans to, and `append` raises `AttributeError` before anything
      is changed (`KeyError` when the key is absent); when it does not act
      the instance is returned. */
  method AddRequestingUserAsWritten(form: Form, requester: User) returns (r: Result<Instance, Raised>)
    ensures !Acts(form.instance.users.Some?, form.cleanedUsers, requester) ==> r == Success(form.instance)
    ensures Acts(form.instance.users.Some?, form.cleanedUsers, requester) ==>
      r == Failure(if form.cleanedUsers.None? then KeyErrorRaised else AttributeErrorRaised)
  {
    var hasUserField := form.instance.users.Some?;
    var current := if form.cleanedUsers.Some? then form.cleanedUsers.value else [];
    if hasUserField && requester !in current {
      if form.cleanedUsers.None? {
        return Failure(KeyErrorRaised);
      }
      return Failure(AttributeErrorRaised);
    }
    return Success(form.instance);
  }

  /** As written, a project saved by someone who did not select themselves
      fails: for the selection [2] and requester 1 the helper raises. */
  method RequesterNotSelectedRaises() returns (r: Result<Instance, Raised>)
    ensures r == Failure(AttributeErrorRaised)
  {
    var instance := new Instance(Some({2}));
    var form := new Form(instance, Some([2]));
    r := AddRequestingUserAsWritten(form, 1);
  }

  /** A second call with the same requester changes nothing. */
  lemma SecondCallActsNot(cleaned: seq<User>, requester: User)
    ensures !Acts(true, Some(WithRequester(cleaned, requester)), requester)
  {
  }

  /** `form.save()` of the project form: the project is saved and then its
      many-to-many users are set to the cleaned selection. */
  method SaveForm(form: Form)
    modifies form.instance
    ensures form.instance.saves == old(form.instance.saves) + 1
    ensures form.instance.users ==
      if old(form.instance.users).Some? && form.cleanedUsers.Some? then Some(Members(form.cleanedUsers.value)) else old(form.instance.users)
  {
    form.instance.saves := form.instance.saves + 1;
    if form.instance.users.Some? && form.cleanedUsers.Some? {
      form.instance.users := Some(Members(form.cleanedUsers.value));
    }
  }

  /** The instance's users as the generic `update_user` sees the field: a
      many-to-many set, or no user field at all. */
  function UserField(users: Option<set<User>>): HtmxForms.UserField {
    if users.Some? then HtmxForms.ManyToMany(users.value) else HtmxForms.NoUserField
  }

  /** `update_user` of the inherited `form_valid` on the project's
      many-to-many field: the field becomes `HtmxForms.UserAfter` of it,
      without a save. */
  method UpdateUser(instance: Instance, requester: User)
    modifies instance
    ensures UserField(instance.users) == HtmxForms.UserAfter(UserField(old(instance.users)), Some(requester))
    ensures instance.saves == old(instance.saves)
  {
    if instance.users.Some? && requester !in instance.users.value {
      instance.users := Some(instance.users.value + {requester});
    }
  }

  /** The steps of the project views' `form_valid` that touch the users. */
  datatype Step = Save | UpdateUserStep | AddRequester

  /** `ProjectCreateView.form_valid`: the inherited handling (which saves
      and adds the requester through `update_user`) first, then the helper. */
  const CreateSteps: seq<Step> := [Save, UpdateUserStep, AddRequester]

  /** `ProjectUpdateView`: the helper runs as `update_form_instance`, before
      the save. */
  const UpdateSteps: seq<Step> := [AddRequester, Save, UpdateUserStep]

  /** A valid form through `ProjectCreateView.form_valid`, with the
      corrected helper: one save that stores the selection, the requester
      added by `update_user`, then the helper, whose `KeyError` comes only
      after the project was saved. The project ends with the selection and
      the requester. */
  method CreateProject(form: Form, requester: User) returns (r: Result<Instance, KeyError>, steps: seq<Step>)
    modifies form, form.instance
    ensures steps == CreateSteps
    ensures form.instance.saves == old(form.instance.saves) + 1
    ensures r.Failure? <==> Acts(old(form.instance.users).Some?, old(form.cleanedUsers), requester) && old(form.cleanedUsers).None?
    ensures old(form.instance.users).Some? ==>
      form.instance.users == Some((if old(form.cleanedUsers).Some? then Members(old(form.cleanedUsers).value) else old(form.instance.users).value) + {requester})
  {
    SaveForm(form);
    UpdateUser(form.instance, requester);
    ghost var afterUser := form.instance.users;
    r := AddRequestingUser(form, requester);
    if r.Success? && form.instance.users != afterUser {
      RequesterStored(old(form.cleanedUsers).value, requester);
    }
    steps := CreateSteps;
  }

  /** A valid form through `ProjectUpdateView`, with the corrected helper:
      a `KeyError` stops it before the save, so nothing changes; otherwise
      the helper extends the selection, the save stores it and `update_user`
      finds the requester there. The project ends with the selection and
      the requester, as after a create. */
  method UpdateProject(form: Form, requester: User) returns (r: Result<Instance, KeyError>, steps: seq<Step>)
    modifies form, form.instance
    ensures r.Failure? <==> Acts(old(form.instance.users).Some?, old(form.cleanedUsers), requester) && old(form.cleanedUsers).None?
    ensures r.Failure? ==> steps == UpdateSteps[..1] && form.instance.saves == old(form.instance.saves) && form.instance.users == old(form.instance.users)
    ensures r.Success? ==> steps == UpdateSteps && form.instance.saves == old(form.instance.saves) + 1
    ensures old(form.instance.users).Some? && old(form.cleanedUsers).Some? ==>
      form.instance.users == Some(Members(old(form.cleanedUsers).value) + {requester})
  {
    steps := [AddRequester];
    r := AddRequestingUser(form, requester);
    if r.Failure? {
      return;
    }
    if old(form.instance.users).Some? && old(form.cleanedUsers).Some? {
      if requester in old(form.cleanedUsers).value {
        assert form.cleanedUsers == old(form.cleanedUsers);
      } else {
        RequesterStored(old(form.cleanedUsers).value, requester);
      }
    }
    SaveForm(form);
    UpdateUser(form.instance, requester);
    steps := UpdateSteps;
  }
}
