/** core/generics/interfaces.py: the (label, value) pairs a model shows in
    its list and detail templates. A field dictionary is an ordered list of
    (verbose label, attribute name) pairs, `None` while the model does not
    set it; the model's attributes are a map. */
module Interfaces {
  import opened Wrappers

  /** `None.items()` on an unset dictionary, or `getattr` on a missing
      attribute. */
  datatype AttributeError = NoFields | NoAttribute(name: string)

  /** `_return_items` over the pairs, in order. */
  function ItemsOf<V>(attrs: map<string, V>, fields: seq<(string, string)>): (r: Result<seq<(string, V)>, AttributeError>)
    ensures r.Success? <==> forall i :: 0 <= i < |fields| ==> fields[i].1 in attrs
    ensures r.Success? ==> |r.value| == |fields|
    ensures r.Success? ==> forall i :: 0 <= i < |fields| ==> r.value[i] == (fields[i].0, attrs[fields[i].1])
    ensures r.Failure? ==> exists i :: 0 <= i < |fields| && fields[i].1 !in attrs && r.error == NoAttribute(fields[i].1)
  {
    if fields == [] then Success([])
    else if fields[0].1 !in attrs then Failure(NoAttribute(fields[0].1))
    else
      var rest := ItemsOf(attrs, fields[1..]);
      if rest.Failure? then Failure(rest.error)
      else Success([(fields[0].0, attrs[fields[0].1])] + rest.value)
  }

  /** `_return_items`: an unset dictionary raises. */
  function ReturnItems<V>(attrs: map<string, V>, fields: Option<seq<(string, string)>>): (r: Result<seq<(string, V)>, AttributeError>)
    ensures fields.None? ==> r == Failure(NoFields)
    ensures fields.Some? ==> r == ItemsOf(attrs, fields.value)
  {
    if fields.None? then Failure(NoFields) else ItemsOf(attrs, fields.value)
  }

  /** A model's two field dictionaries, both `None` by default. */
  datatype Interface = Interface(listViewFields: Option<seq<(string, string)>>, detailViewFields: Option<seq<(string, string)>>)

  const Default: Interface := Interface(None, None)

  function DetailViewItems<V>(i: Interface, attrs: map<string, V>): Result<seq<(string, V)>, AttributeError> {
    ReturnItems(attrs, i.detailViewFields)
  }

  function ListViewItems<V>(i: Interface, attrs: map<string, V>): Result<seq<(string, V)>, AttributeError> {
    ReturnItems(attrs, i.listViewFields)
  }

  /** A model that sets neither dictionary cannot show either list. */
  lemma UnsetFieldsRaise<V>(attrs: map<string, V>)
    ensures DetailViewItems(Default, attrs) == Failure(NoFields)
    ensures ListViewItems(Default, attrs) == Failure(NoFields)
  {
  }

  /** Each property reads its own dictionary: setting only the list fields
      leaves the detail items raising. */
  lemma EachPropertyItsOwn<V>(attrs: map<string, V>, fields: seq<(string, string)>)
    ensures DetailViewItems(Interface(Some(fields), None), attrs) == Failure(NoFields)
    ensures ListViewItems(Interface(Some(fields), None), attrs) == ItemsOf(attrs, fields)
  {
  }
}
