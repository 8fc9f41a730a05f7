/** groundwater/models.py: `GWLManualMeasurement.groundwater_elevation`, the
    water level as an elevation: the top-of-casing height recorded in the
    location's historical `detail` at the fieldwork date, minus the measured
    depth. The location's history is a parameter: the records
    django-simple-history wrote for it, in the order they were written. */
module Groundwater {
  import opened Wrappers
  import opened Text
  import opened Decimal

  /** A JSON value as stored in a `JSONField`. Numbers are exact. */
  datatype Json =
    | JNull
    | JBool(b: bool)
    | JNumber(n: real)
    | JString(s: string)
    | JArray(items: seq<Json>)
    | JObject(fields: map<string, Json>)

  /** Python truthiness of the decoded value. */
  predicate Truthy(j: Json) {
    match j
    case JNull => false
    case JBool(b) => b
    case JNumber(n) => n != 0.0
    case JString(s) => s != []
    case JArray(items) => items != []
    case JObject(fields) => fields != map[]
  }

  /** Why the property raises instead of returning. */
  datatype Error =
    | NoLocation         // `self.location.history` on a measurement without a location
    | DoesNotExist       // `history.as_of` before the first record, or at the deletion
    | NotIterable        // `for item in detail` over a number or `True`
    | MissingValue       // `item['value']` on an entry without that key
    | InvalidDecimal     // `Decimal(...)` refusing the value

  /** The entries iterated over: `detail or []`. Iterating a string yields
      one-character strings and iterating an object yields its keys; neither
      is ever a dict, so both are modelled as entries that are not objects. */
  function Entries(detail: Json): (r: Result<seq<Json>, Error>)
    ensures r.Failure? <==> Truthy(detail) && (detail.JBool? || detail.JNumber?)
    ensures r.Failure? ==> r.error == NotIterable
    ensures detail.JArray? ==> r == Success(detail.items)
    ensures r.Success? && !detail.JArray? ==> forall k :: 0 <= k < |r.value| ==> !r.value[k].JObject?
  {
    if !Truthy(detail) then Success([])
    else match detail
      case JArray(items) => Success(items)
      case JString(s) => Success(Characters(s))
      case JObject(fields) => Success(Nulls(|fields|))
      case _ => Failure(NotIterable)
  }

  /** The one-character strings iterating a string yields. */
  function Characters(s: string): (r: seq<Json>)
    ensures |r| == |s| && forall k :: 0 <= k < |r| ==> r[k] == JString([s[k]])
  {
    if s == [] then [] else [JString([s[0]])] + Characters(s[1..])
  }

  /** `n` entries that are not objects, standing for an object's keys. */
  function Nulls(n: nat): (r: seq<Json>)
    ensures |r| == n && forall k :: 0 <= k < |r| ==> r[k] == JNull
  {
    if n == 0 then [] else [JNull] + Nulls(n - 1)
  }

  /** `isinstance(item, dict) and item.get('property') == 'toc_height'`. */
  predicate IsToc(item: Json) {
    item.JObject? && "property" in item.fields && item.fields["property"] == JString("toc_height")
  }

  /** `Decimal(v)` for a decoded JSON value: numbers are taken as they are
      (`True` is 1 and `False` is 0), strings must be a plain decimal numeral,
      anything else is refused. */
  function ToDecimal(v: Json): (r: Result<real, Error>)
    ensures r.Failure? <==> v.JNull? || v.JArray? || v.JObject? || (v.JString? && PyFloat(v.s).None?)
    ensures v.JNumber? ==> r == Success(v.n)
    ensures r.Failure? ==> r.error == InvalidDecimal
  {
    match v
    case JNumber(n) => Success(n)
    case JBool(b) => Success(if b then 1.0 else 0.0)
    case JString(s) =>
      (match PyFloat(s)
       case Some(x) => Success(x)
       case None => Failure(InvalidDecimal))
    case _ => Failure(InvalidDecimal)
  }

  /** `next((Decimal(item['value']) for item in entries if IsToc(item)), None)`:
      only the first matching entry is converted, and the search stops there. */
  function FirstToc(entries: seq<Json>): (r: Result<Option<real>, Error>)
    ensures r == Success(None) <==> forall k :: 0 <= k < |entries| ==> !IsToc(entries[k])
    ensures r.Failure? ==> r.error == MissingValue || r.error == InvalidDecimal
  {
    if entries == [] then Success(None)
    else if IsToc(entries[0]) then
      if "value" in entries[0].fields then
        match ToDecimal(entries[0].fields["value"])
        case Success(x) => Success(Some(x))
        case Failure(e) => Failure(e)
      else Failure(MissingValue)
    else FirstToc(entries[1..])
  }

  /** The property itself: `None` without a top-of-casing entry, otherwise
      that height minus `depth`. */
  function GroundwaterElevation(detail: Json, depth: real): (r: Result<Option<real>, Error>)
    ensures !Truthy(detail) ==> r == Success(None)
    ensures r.Failure? ==> r.error != NoLocation && r.error != DoesNotExist
    ensures r.Success? <==> Entries(detail).Success? && FirstToc(Entries(detail).value).Success?
    ensures r.Success? ==> (r.value.Some? <==> FirstToc(Entries(detail).value).value.Some?)
    ensures r.Success? && r.value.Some? ==> r.value.value + depth == FirstToc(Entries(detail).value).value.value
  {
    match Entries(detail)
    case Failure(e) => Failure(e)
    case Success(entries) =>
      match FirstToc(entries)
      case Failure(e) => Failure(e)
      case Success(None) => Success(None)
      case Success(Some(toc)) => Success(Some(toc - depth))
  }

  /** A historical record of a location: when it was written, whether it
      records the location's deletion, and the `detail` it held. */
  datatype HistoricalRecord = HistoricalRecord(historyDate: int, deletion: bool, detail: Json)

  /** The record `history.as_of(t)` reads: the newest record dated at or
      before `t`, the one written last among records of the same date;
      `None` when every record is later. */
  function LatestBy(history: seq<HistoricalRecord>, t: int): (r: Option<HistoricalRecord>)
    ensures r.None? <==> forall k :: 0 <= k < |history| ==> history[k].historyDate > t
    ensures r.Some? ==> r.value in history && r.value.historyDate <= t
    ensures r.Some? ==> forall k :: 0 <= k < |history| && history[k].historyDate <= t ==> history[k].historyDate <= r.value.historyDate
    decreases |history|
  {
    if history == [] then None
    else
      var last := history[|history| - 1];
      var before := LatestBy(history[..|history| - 1], t);
      if last.historyDate <= t && (before.None? || before.value.historyDate <= last.historyDate) then Some(last)
      else before
  }

  /** `groundwater_elevation` on a stored measurement. `location` is the
      history of its location, `None` when the nullable foreign key is
      empty, where `self.location.history` raises `AttributeError`; `t` is
      the fieldwork date as the history query compares it. `as_of` raises
      `DoesNotExist` when no record is that old or the record it finds is
      the deletion; otherwise the elevation is computed from that record's
      `detail`. */
  function MeasurementElevation(location: Option<seq<HistoricalRecord>>, t: int, depth: real): (r: Result<Option<real>, Error>)
    ensures location.None? <==> r == Failure(NoLocation)
    ensures r == Failure(DoesNotExist) <==>
      location.Some? && (LatestBy(location.value, t).None? || LatestBy(location.value, t).value.deletion)
    ensures location.Some? && LatestBy(location.value, t).Some? && !LatestBy(location.value, t).value.deletion ==>
      r == GroundwaterElevation(LatestBy(location.value, t).value.detail, depth)
  {
    match location
    case None => Failure(NoLocation)
    case Some(history) =>
      match LatestBy(history, t)
      case None => Failure(DoesNotExist)
      case Some(record) =>
        if record.deletion then Failure(DoesNotExist)
        else GroundwaterElevation(record.detail, depth)
  }

  /** A record written after the fieldwork date does not change which
      record the lookup reads. */
  lemma LaterRecordIgnored(history: seq<HistoricalRecord>, record: HistoricalRecord, t: int)
    requires record.historyDate > t
    ensures LatestBy(history + [record], t) == LatestBy(history, t)
  {
    assert (history + [record])[..|history|] == history;
  }

  /** Editing a location after a measurement leaves the measurement's
      elevation as it was: later records are never read. */
  lemma {:induction false} LaterEditsKeepElevation(history: seq<HistoricalRecord>, later: seq<HistoricalRecord>, t: int, depth: real)
    requires forall k :: 0 <= k < |later| ==> later[k].historyDate > t
    ensures MeasurementElevation(Some(history + later), t, depth) == MeasurementElevation(Some(history), t, depth)
    decreases |later|
  {
    if later != [] {
      var front := later[..|later| - 1];
      LaterEditsKeepElevation(history, front, t, depth);
      assert history + later == (history + front) + [later[|later| - 1]];
      LaterRecordIgnored(history + front, later[|later| - 1], t);
    } else {
      assert history + later == history;
    }
  }

  /** Index of the first top-of-casing entry, `|entries|` when there is none. */
  function FirstTocIndex(entries: seq<Json>): (i: nat)
    ensures i <= |entries|
    ensures i < |entries| ==> IsToc(entries[i])
    ensures forall k :: 0 <= k < i ==> !IsToc(entries[k])
  {
    if entries == [] then 0
    else if IsToc(entries[0]) then 0
    else 1 + FirstTocIndex(entries[1..])
  }

  /** The search reads the first top-of-casing entry and no other: with none
      it finds nothing, otherwise the outcome is that entry's `value`. */
  lemma {:induction false} FirstTocIsFirst(entries: seq<Json>)
    ensures var i := FirstTocIndex(entries);
      i == |entries| ==> FirstToc(entries) == Success(None)
    ensures var i := FirstTocIndex(entries);
      i < |entries| ==> FirstToc(entries) == FirstToc([entries[i]])
    decreases |entries|
  {
    if entries != [] && !IsToc(entries[0]) {
      FirstTocIsFirst(entries[1..]);
      var i := FirstTocIndex(entries[1..]);
      if i < |entries[1..]| {
        assert entries[1..][i] == entries[i + 1];
      }
    }
  }

  /** Entries that are not objects are ignored: removing them changes
      nothing. */
  lemma {:induction false} NonObjectsIgnored(before: seq<Json>, x: Json, after: seq<Json>)
    requires !x.JObject?
    ensures FirstToc(before + [x] + after) == FirstToc(before + after)
    decreases |before|
  {
    if before == [] {
      assert before + [x] + after == [x] + after;
      assert ([x] + after)[1..] == after;
      assert before + after == after;
    } else {
      NonObjectsIgnored(before[1..], x, after);
      assert (before + [x] + after)[1..] == before[1..] + [x] + after;
      assert (before + after)[1..] == before[1..] + after;
      assert (before + [x] + after)[0] == before[0] == (before + after)[0];
    }
  }

  /** A null `detail`, and any other false value, gives no elevation. */
  lemma FalsyDetailHasNoElevation(detail: Json, depth: real)
    requires !Truthy(detail)
    ensures GroundwaterElevation(detail, depth) == Success(None)
  {
  }

  /** A list whose first top-of-casing entry holds the number `toc` gives the
      elevation `toc - depth`, whatever follows it. */
  lemma {:induction false} ElevationFromFirstToc(items: seq<Json>, toc: real, depth: real)
    requires items != []
    requires FirstTocIndex(items) < |items|
    requires var e := items[FirstTocIndex(items)];
      "value" in e.fields && e.fields["value"] == JNumber(toc)
    ensures GroundwaterElevation(JArray(items), depth) == Success(Some(toc - depth))
  {
    FirstTocIsFirst(items);
  }

  /** Without any top-of-casing entry the elevation is `None`. */
  lemma {:induction false} NoTocNoElevation(items: seq<Json>, depth: real)
    requires forall k :: 0 <= k < |items| ==> !IsToc(items[k])
    ensures GroundwaterElevation(JArray(items), depth) == Success(None)
  {
    FirstTocIsFirst(items);
  }
}
