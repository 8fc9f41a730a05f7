/** core/generics/forms.py: a model form with a detail sub-form chosen by
    the record's type. The detail form's own validation and cleaning are
    parameters; a detail form without data is unbound and never valid, as
    in Django. */
module DetailForms {
  import opened Wrappers

  /** What the form knows of the instance it edits. `sensorType` is
      `instance.sensor.type`, `None` when that lookup fails. */
  datatype InstanceInfo = InstanceInfo(pk: Option<nat>, kind: Option<string>, sensorType: Option<string>, detail: Option<map<string, string>>)

  /** A detail form: its class, and the initial values or the data it was
      built with. */
  datatype DetailForm = DetailForm(cls: string, initial: Option<map<string, string>>, data: Option<map<string, string>>)

  /** `detail_form.is_valid()`: only a bound form can be valid. */
  predicate DetailValid(f: DetailForm, validate: (string, map<string, string>) -> bool) {
    f.data.Some? && validate(f.cls, f.data.value)
  }

  /** `is_update`: an instance with a non-empty pk. */
  predicate IsUpdate(instance: InstanceInfo) {
    instance.pk.Some? && instance.pk.value != 0
  }

  /** The type `__init__` uses: the instance's own, or, when that is empty,
      its sensor's (errors in that lookup are swallowed). */
  function InstanceType(instance: InstanceInfo): (r: Option<string>)
    ensures r == instance.kind || r == instance.sensorType
    ensures instance.kind.Some? && instance.kind.value != [] ==> r == instance.kind
    ensures r != instance.kind ==> r == instance.sensorType && (instance.kind.None? || instance.kind.value == [])
  {
    if instance.kind.Some? && instance.kind.value != [] then instance.kind
    else instance.sensorType
  }

  /** The detail form `__init__` builds, `None` when there is none. */
  function InitialDetailForm(instance: InstanceInfo, isBound: bool, data: map<string, string>, detailForms: map<string, seq<string>>): (r: Option<DetailForm>)
    ensures r.Some? ==> r.value.cls in detailForms
    ensures r.Some? ==> (r.value.data.Some? <==> isBound) && (r.value.initial.Some? <==> !isBound)
    ensures r.Some? && isBound ==> "type" in data && r.value.data == Some(data) && r.value.cls == data["type"]
    ensures r.Some? && !isBound ==> IsUpdate(instance) && Some(r.value.cls) == InstanceType(instance)
  {
    var t := InstanceType(instance);
    if IsUpdate(instance) && t.Some? && t.value != [] && !isBound then
      if t.value in detailForms then
        Some(DetailForm(t.value, Some(if instance.detail.Some? && instance.detail.value != map[] then instance.detail.value else map[]), None))
      else None
    else if isBound && "type" in data then
      if data["type"] in detailForms then Some(DetailForm(data["type"], None, Some(data))) else None
    else None
  }

  /** An unbound form for an existing record of a known type starts with
      the record's stored detail (or nothing); a bound form posting a known
      `type` is bound to the posted data; anything else has no detail form. */
  lemma InitialDetailRule(instance: InstanceInfo, isBound: bool, data: map<string, string>, detailForms: map<string, seq<string>>)
    ensures var f := InitialDetailForm(instance, isBound, data, detailForms);
      var t := InstanceType(instance);
      (!isBound && IsUpdate(instance) && t.Some? && t.value in detailForms && t.value != [] ==>
        f == Some(DetailForm(t.value, Some(if instance.detail.Some? then instance.detail.value else map[]), None)))
      && (isBound && "type" in data && data["type"] in detailForms ==> f == Some(DetailForm(data["type"], None, Some(data))))
      && (isBound && "type" in data && data["type"] !in detailForms ==> f.None?)
      && (!isBound && !IsUpdate(instance) ==> f.None?)
      && (isBound && "type" !in data ==> f.None?)
  {
  }

  /** A record whose own type is empty falls back to its sensor's type. */
  lemma SensorTypeFallback(pk: nat, sensorType: string, detailForms: map<string, seq<string>>)
    requires pk != 0 && sensorType != [] && sensorType in detailForms
    ensures InitialDetailForm(InstanceInfo(Some(pk), None, Some(sensorType), None), false, map[], detailForms)
      == Some(DetailForm(sensorType, Some(map[]), None))
  {
  }

  /** The posted values of the detail form's fields, for those posted. */
  function DetailData(fields: seq<string>, data: map<string, string>): (r: map<string, string>)
    ensures r.Keys == (set k | k in fields && k in data)
    ensures forall k :: k in r ==> r[k] == data[k]
  {
    map k | k in fields && k in data :: data[k]
  }

  /** The form with its detail form. */
  class FormWithDetail {
    const instance: InstanceInfo
    const isBound: bool
    const data: map<string, string>
    const detailForms: map<string, seq<string>>
    var detailForm: Option<DetailForm>
    var instanceDetail: Option<map<string, string>>
    var instanceSaves: nat

    /** `__init__`. */
    constructor (instance: InstanceInfo, isBound: bool, data: map<string, string>, detailForms: map<string, seq<string>>)
      ensures this.instance == instance && this.isBound == isBound && this.data == data && this.detailForms == detailForms
      ensures detailForm == InitialDetailForm(instance, isBound, data, detailForms)
      ensures instanceDetail == instance.detail && instanceSaves == 0
    {
      this.instance := instance;
      this.isBound := isBound;
      this.data := data;
      this.detailForms := detailForms;
      instanceDetail := instance.detail;
      instanceSaves := 0;
      detailForm := None;
      var isUpdate := instance.pk.Some? && instance.pk.value != 0;
      var instanceType := instance.kind;
      if instanceType.None? || instanceType.value == [] {
        instanceType := instance.sensorType;
      }
      new;
      if isUpdate && instanceType.Some? && instanceType.value != [] && !isBound {
        if instanceType.value in detailForms {
          var initial := if instance.detail.Some? && instance.detail.value != map[] then instance.detail.value else map[];
          detailForm := Some(DetailForm(instanceType.value, Some(initial), None));
        }
      } else if isBound && "type" in data {
        var selected := data["type"];
        if selected in detailForms {
          detailForm := Some(DetailForm(selected, None, Some(data)));
        }
      }
    }

    /** `is_valid`: once the main form has validated, a selected type with no
        detail form yet gets one built from the posted values of its fields
        (unbound when none was posted); the result is the conjunction of
        both validations, the detail one counting as true without a detail
        form. */
    method IsValid(mainValid: bool, cleanedType: Option<string>, validate: (string, map<string, string>) -> bool) returns (valid: bool)
      modifies this
      ensures var selected := if isBound then cleanedType else None;
        detailForm == (if selected.Some? && selected.value != [] && old(detailForm).None? && selected.value in detailForms
          then Some(DetailForm(selected.value, None, LazyData(DetailData(detailForms[selected.value], data))))
          else old(detailForm))
      ensures valid == (mainValid && (detailForm.None? || DetailValid(detailForm.value, validate)))
      ensures instanceDetail == old(instanceDetail) && instanceSaves == old(instanceSaves)
    {
      var selected := if isBound then cleanedType else None;
      if selected.Some? && selected.value != [] && detailForm.None? {
        if selected.value in detailForms {
          var fields := detailForms[selected.value];
          var detailData: map<string, string> := map[];
          var i := 0;
          while i < |fields|
            invariant 0 <= i <= |fields|
            invariant detailData == DetailData(fields[..i], data)
          {
            if fields[i] in data {
              detailData := detailData[fields[i] := data[fields[i]]];
            }
            assert fields[..i + 1] == fields[..i] + [fields[i]];
            i := i + 1;
          }
          assert fields[..i] == fields;
          detailForm := Some(DetailForm(selected.value, None, if detailData == map[] then None else Some(detailData)));
        }
      }
      var detailValid := if detailForm.Some? then DetailValid(detailForm.value, validate) else true;
      valid := mainValid && detailValid;
    }

    /** `save`: the detail form's cleaned data replaces the instance's detail
        only when there is a valid detail form; the instance is written only
        when `commit` is set. */
    method Save(commit: bool, validate: (string, map<string, string>) -> bool, clean: (string, map<string, string>) -> map<string, string>)
      modifies this
      ensures detailForm == old(detailForm)
      ensures instanceDetail == if detailForm.Some? && DetailValid(detailForm.value, validate)
        then Some(clean(detailForm.value.cls, detailForm.value.data.value)) else old(instanceDetail)
      ensures instanceSaves == old(instanceSaves) + (if commit then 1 else 0)
    {
      if detailForm.Some? && DetailValid(detailForm.value, validate) {
        instanceDetail := Some(clean(detailForm.value.cls, detailForm.value.data.value));
      }
      if commit {
        instanceSaves := instanceSaves + 1;
      }
    }
  }

  /** `detail_data or None`. */
  function LazyData(d: map<string, string>): Option<map<string, string>> {
    if d == map[] then None else Some(d)
  }

  /** A type selected on submit whose detail fields were none of them
      posted gets an unbound detail form, which makes the whole form
      invalid. */
  lemma NoPostedDetailInvalid(cls: string, fields: seq<string>, data: map<string, string>, validate: (string, map<string, string>) -> bool)
    requires forall k :: k in fields ==> k !in data
    ensures !DetailValid(DetailForm(cls, None, LazyData(DetailData(fields, data))), validate)
  {
    assert DetailData(fields, data).Keys == {};
  }

  /** The fixed attributes of `HTMXChoiceField`'s widget: a change (or the
      field being revealed) fetches the detail form into `#detail_form`. */
  function ChoiceFieldAttrs(attrs: map<string, string>): (r: map<string, string>)
    ensures r.Keys == attrs.Keys + {"hx-trigger", "hx-target", "hx-swap"}
    ensures r["hx-trigger"] == "change, revealed" && r["hx-target"] == "#detail_form" && r["hx-swap"] == "innerHTML"
    ensures forall k :: k in attrs && k !in {"hx-trigger", "hx-target", "hx-swap"} ==> r[k] == attrs[k]
  {
    attrs + map["hx-trigger" := "change, revealed", "hx-target" := "#detail_form", "hx-swap" := "innerHTML"]
  }
}
