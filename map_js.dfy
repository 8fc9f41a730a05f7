/** static/js/map.js: creating Leaflet maps, the coordinate-picker widget
    with its marker/field synchronisation, map.js's own `initializeModalMap`,
    and plotting a list of locations. */
module MapScript {
  import opened Wrappers
  import opened Decimal
  import opened Dom

  /** Bounds every map is clamped to: south-west (-85, -180), north-east (85, 180). */
  const WorldBounds := Bounds(LatLng(-85.0, -180.0), LatLng(85.0, 180.0))

  /** The options `initializeMap` passes to `L.map`. */
  const ClampedOptions := MapOptions(WorldBounds, 1.0, true, true)

  /** Zoom level of the coordinate-picker map. */
  const WidgetZoom := 13

  /** Result of a step that may create a map: the new window, the map's id if
      one is returned, and whether an exception escaped. */
  datatype Step = Step(window: Window, result: Option<MapId>, threw: bool)

  /** `L.map(container, options).setView([lat, lng], zoom)` plus the tile layer:
      Leaflet refuses a container that still carries `_leaflet_id`, and tags
      the container with the new map. */
  function LeafletCreate(w: Window, mapId: string, c: nat, lat: real, lng: real, zoom: int): (r: Window)
    requires c < |w.containers| && !w.containers[c].tagged
  {
    var created := LeafletMap(mapId, c, ClampedOptions, LatLng(lat, lng), zoom, true, true, false, None, 0);
    w.(maps := w.maps + [created], containers := w.containers[c := w.containers[c].(tagged := true)])
  }

  /** `initializeMap(mapId, lat, lng, zoom)`. */
  function InitializeMap(w: Window, mapId: string, lat: real, lng: real, zoom: int): (r: Step)
    ensures !r.threw
    ensures r.result.None? <==> ById(w, mapId).None?
    ensures r.result.None? ==> r.window == w
    ensures r.result.Some? ==>
      var c := ById(w, mapId).value;
      r.result.value == |w.maps|
      && r.window.maps == w.maps + [LeafletMap(mapId, c, ClampedOptions, LatLng(lat, lng), zoom, true, true, false, None, 0)]
      && r.window.containers == w.containers[c := w.containers[c].(tagged := true)]
      && r.window.mainPageMap == (if mapId != "map" then r.result else w.mainPageMap)
      && r.window.modalMap == w.modalMap && r.window.markers == w.markers && r.window.timers == w.timers
  {
    match ById(w, mapId)
    case None => Step(w, None, false)
    case Some(c) =>
      var cleared := Untag(w, Some(c));
      var created := LeafletCreate(cleared, mapId, c, lat, lng, zoom);
      var id := |w.maps|;
      Step(if mapId != "map" then created.(mainPageMap := Some(id)) else created, Some(id), false)
  }

  /** `parseFloat(text) || fallback`: the parsed number, or `fallback` when the
      text does not parse or parses to zero. */
  function CoordinateOr(text: string, fallback: real): (r: real)
    ensures ParseFloat(text).Some? && ParseFloat(text).value != 0.0 ==> r == ParseFloat(text).value
    ensures ParseFloat(text).None? || ParseFloat(text) == Some(0.0) ==> r == fallback
  {
    match ParseFloat(text)
    case Some(v) => if v != 0.0 then v else fallback
    case None => fallback
  }

  /** `String(container.dataset[key])`: an absent attribute reads as "undefined". */
  function DataText(c: Container, key: string): string {
    if key in c.dataset then c.dataset[key] else "undefined"
  }

  /** The starting latitude of a modal map: `parseFloat(dataset.lat) || 51.505`. */
  function StartLat(c: Container): real {
    CoordinateOr(DataText(c, "lat"), 51.505)
  }

  /** The starting longitude of a modal map: `parseFloat(dataset.lng) || -0.09`. */
  function StartLng(c: Container): real {
    CoordinateOr(DataText(c, "lng"), -0.09)
  }

  /** `customLeafletWidget(lat, lng, latFieldId, lngFieldId)`: a map in the
      first `#map`, a draggable marker at the start point, the two fields
      filled with the start point to six decimals when both exist, and a
      deferred resize. Without a `#map` the marker is added to `null`, which
      throws before anything changed. */
  function CustomLeafletWidget(w: Window, lat: real, lng: real, latFieldId: string, lngFieldId: string): (r: Step)
    ensures r.threw <==> ById(w, "map").None?
    ensures r.threw ==> r.window == w && r.result.None?
    ensures !r.threw ==>
      var m := |w.maps|;
      var k := |w.markers|;
      var bound := latFieldId in w.inputs && lngFieldId in w.inputs;
      r.result == Some(m) && |r.window.maps| == m + 1 && r.window.maps[m].mapId == "map"
      && r.window.maps[m].center == LatLng(lat, lng) && r.window.maps[m].zoom == WidgetZoom
      && r.window.markers == w.markers + [Marker(LatLng(lat, lng), true, None, Some(m))]
      && r.window.widgets == w.widgets + [Widget(m, k, latFieldId, lngFieldId, bound)]
      && r.window.inputs == (if bound then w.inputs[latFieldId := Fixed6(lat)][lngFieldId := Fixed6(lng)] else w.inputs)
      && r.window.timers == w.timers + [InvalidateMap(m)]
      && r.window.modalMap == w.modalMap && r.window.mainPageMap == w.mainPageMap
  {
    var created := InitializeMap(w, "map", lat, lng, WidgetZoom);
    match created.result
    case None => Step(w, None, true)
    case Some(m) => Step(AttachWidget(created.window, m, lat, lng, latFieldId, lngFieldId), Some(m), false)
  }

  /** The part of `customLeafletWidget` after the map exists: the draggable
      marker, its `dragend` listener, the fields filled in and their `input`
      listeners attached when both exist, and the deferred resize. */
  function AttachWidget(w: Window, m: MapId, lat: real, lng: real, latFieldId: string, lngFieldId: string): (r: Window)
  {
    var k := |w.markers|;
    var bound := latFieldId in w.inputs && lngFieldId in w.inputs;
    var w1 := w.(markers := w.markers + [Marker(LatLng(lat, lng), true, None, Some(m))],
                 widgets := w.widgets + [Widget(m, k, latFieldId, lngFieldId, bound)]);
    var w2 := if bound then w1.(inputs := w1.inputs[latFieldId := Fixed6(lat)][lngFieldId := Fixed6(lng)]) else w1;
    w2.(timers := w2.timers + [InvalidateMap(m)])
  }

  /** map.js's `initializeModalMap(mapContainer)`: tears the previous modal map
      down with no `try`, so a throwing Leaflet call escapes and nothing new is
      created; otherwise the container's tag is cleared and the new widget
      becomes `window.modalMap`. */
  function InitializeModalMap(w: Window, c: nat, fault: Fault): (r: Step)
    requires c < |w.containers|
    ensures w.modalMap.Some? && fault != Completes ==>
      r.threw && r.window == Teardown(w, w.modalMap.value, fault).window
    ensures r.threw ==> r.window.modalMap == w.modalMap && r.result.None?
    ensures !r.threw ==> r.result == Some(|w.maps|) && r.window.modalMap == r.result && |r.window.maps| == |w.maps| + 1
    ensures !r.threw && w.modalMap.Some? && w.modalMap.value < |w.maps| ==>
      fault == Completes && r.window.maps[w.modalMap.value].removed
  {
    var torn := if w.modalMap.Some? then Teardown(w, w.modalMap.value, fault) else Run(w, false);
    if torn.threw then Step(torn.window, None, true)
    else ModalWidget(if w.modalMap.Some? then Untag(torn.window, Some(c)) else torn.window, c)
  }

  /** The part of map.js's `initializeModalMap` after the teardown: the
      widget from the container's `data-` attributes, made `window.modalMap`
      unless building it threw. */
  function ModalWidget(w: Window, c: nat): (r: Step)
    requires c < |w.containers|
    ensures r.threw ==> r.window.modalMap == w.modalMap && r.result.None?
    ensures !r.threw ==> r.result == Some(|w.maps|) && r.window.modalMap == r.result && |r.window.maps| == |w.maps| + 1
    ensures !r.threw ==> r.window.maps[..|w.maps|] == w.maps
    ensures !r.threw ==> r.window.maps[|w.maps|].mapId == "map" && !r.window.maps[|w.maps|].removed
  {
    var container := w.containers[c];
    var made := CustomLeafletWidget(w, StartLat(container), StartLng(container), DataText(container, "latFieldId"), DataText(container, "lngFieldId"));
    WidgetAddsOneMap(w, StartLat(container), StartLng(container), DataText(container, "latFieldId"), DataText(container, "lngFieldId"));
    if made.threw then made
    else Step(made.window.(modalMap := made.result), made.result, false)
  }

  /** `initializeModalMap` leaves every map other than the referenced one as
      it was and adds at most the new coordinate picker, live. */
  lemma InitializeModalMapFrame(w: Window, c: nat, fault: Fault)
    requires c < |w.containers|
    ensures var r := InitializeModalMap(w, c, fault);
      (r.threw ==> |r.window.maps| == |w.maps|)
      && (!r.threw ==> r.window.maps[|w.maps|].mapId == "map" && !r.window.maps[|w.maps|].removed)
      && forall i :: 0 <= i < |w.maps| && Some(i) != w.modalMap ==> r.window.maps[i] == w.maps[i]
  {
    var r := InitializeModalMap(w, c, fault);
    var torn := if w.modalMap.Some? then Teardown(w, w.modalMap.value, fault) else Run(w, false);
    if !torn.threw {
      var w1 := if w.modalMap.Some? then Untag(torn.window, Some(c)) else torn.window;
      assert r == ModalWidget(w1, c);
      if !r.threw {
        forall i | 0 <= i < |w.maps| && Some(i) != w.modalMap
          ensures r.window.maps[i] == w.maps[i]
        {
          assert r.window.maps[..|w1.maps|][i] == w1.maps[i];
        }
      }
    }
  }

  /** The widget adds one live map to the end and changes no other. */
  lemma WidgetAddsOneMap(w: Window, lat: real, lng: real, latFieldId: string, lngFieldId: string)
    ensures var r := CustomLeafletWidget(w, lat, lng, latFieldId, lngFieldId);
      !r.threw ==> r.window.maps == w.maps + [r.window.maps[|w.maps|]] && !r.window.maps[|w.maps|].removed
  {
    var created := InitializeMap(w, "map", lat, lng, WidgetZoom);
    if created.result.Some? {
      assert AttachWidget(created.window, created.result.value, lat, lng, latFieldId, lngFieldId).maps == created.window.maps;
    }
  }

  /** The `input` handler of widget `k` (`updateMarker`): when both fields
      parse, the marker moves there and the map recentres; otherwise nothing
      changes. Without bound listeners the event does nothing. */
  function FieldInput(w: Window, k: nat): (r: Window)
    requires k < |w.widgets|
    ensures
      var g := w.widgets[k];
      var lat := ParseFloat(FieldValue(w, g.latFieldId));
      var lng := ParseFloat(FieldValue(w, g.lngFieldId));
      if g.inputsBound && lat.Some? && lng.Some? && g.marker < |w.markers| && g.mapRef < |w.maps| then
        r.markers == w.markers[g.marker := w.markers[g.marker].(position := LatLng(lat.value, lng.value))]
        && r.maps == w.maps[g.mapRef := w.maps[g.mapRef].(center := LatLng(lat.value, lng.value))]
        && r == w.(markers := r.markers, maps := r.maps)
      else r == w
  {
    var g := w.widgets[k];
    var lat := ParseFloat(FieldValue(w, g.latFieldId));
    var lng := ParseFloat(FieldValue(w, g.lngFieldId));
    if g.inputsBound && lat.Some? && lng.Some? && g.marker < |w.markers| && g.mapRef < |w.maps| then
      var at := LatLng(lat.value, lng.value);
      w.(markers := w.markers[g.marker := w.markers[g.marker].(position := at)],
         maps := w.maps[g.mapRef := w.maps[g.mapRef].(center := at)])
    else w
  }

  /** The `dragend` handler of widget `k` after the user dropped the marker at
      `at`: both fields receive the coordinates to six decimals, but only when
      both fields exist at that moment. */
  function DragEnd(w: Window, k: nat, at: LatLng): (r: Window)
    requires k < |w.widgets|
    ensures
      var g := w.widgets[k];
      r.markers == (if g.marker < |w.markers| then w.markers[g.marker := w.markers[g.marker].(position := at)] else w.markers)
    ensures
      var g := w.widgets[k];
      r.inputs == if g.latFieldId in w.inputs && g.lngFieldId in w.inputs
        then w.inputs[g.latFieldId := Fixed6(at.lat)][g.lngFieldId := Fixed6(at.lng)]
        else w.inputs
    ensures r == w.(markers := r.markers, inputs := r.inputs)
  {
    var g := w.widgets[k];
    var moved := if g.marker < |w.markers| then w.(markers := w.markers[g.marker := w.markers[g.marker].(position := at)]) else w;
    if g.latFieldId in w.inputs && g.lngFieldId in w.inputs then
      moved.(inputs := w.inputs[g.latFieldId := Fixed6(at.lat)][g.lngFieldId := Fixed6(at.lng)])
    else moved
  }

  /** After the marker is dropped at `at`, typing into a field makes the marker
      jump to what the fields show: `at` rounded to millionths of a degree. */
  lemma DragThenInput(w: Window, k: nat, at: LatLng)
    requires k < |w.widgets| && w.widgets[k].marker < |w.markers| && w.widgets[k].mapRef < |w.maps|
    requires w.widgets[k].inputsBound && w.widgets[k].latFieldId != w.widgets[k].lngFieldId
    requires w.widgets[k].latFieldId in w.inputs && w.widgets[k].lngFieldId in w.inputs
    ensures
      var r := FieldInput(DragEnd(w, k, at), k);
      r.markers[w.widgets[k].marker].position == LatLng(Round6(at.lat), Round6(at.lng))
  {
    var g := w.widgets[k];
    var d := DragEnd(w, k, at);
    assert FieldValue(d, g.latFieldId) == ToFixed6(at.lat);
    assert FieldValue(d, g.lngFieldId) == ToFixed6(at.lng);
    ParseToFixed6(at.lat);
    ParseToFixed6(at.lng);
  }

  /** After the widget is made with both fields present, the fields read back
      as its starting point rounded to millionths. */
  lemma WidgetFieldsShowStart(w: Window, lat: real, lng: real, latFieldId: string, lngFieldId: string)
    requires ById(w, "map").Some?
    requires latFieldId in w.inputs && lngFieldId in w.inputs && latFieldId != lngFieldId
    ensures
      var r := CustomLeafletWidget(w, lat, lng, latFieldId, lngFieldId).window;
      ParseFloat(FieldValue(r, latFieldId)) == Some(Round6(lat))
      && ParseFloat(FieldValue(r, lngFieldId)) == Some(Round6(lng))
  {
    var r := CustomLeafletWidget(w, lat, lng, latFieldId, lngFieldId).window;
    assert r.inputs[latFieldId] == Fixed6(lat) && r.inputs[lngFieldId] == Fixed6(lng);
    ReadBackFixed6(r, latFieldId, lat);
    ReadBackFixed6(r, lngFieldId, lng);
  }

  /** A field holding what `x.toFixed(6)` wrote parses as `x` rounded to millionths. */
  lemma ReadBackFixed6(w: Window, id: string, x: real)
    requires id in w.inputs && w.inputs[id] == Fixed6(x)
    ensures ParseFloat(FieldValue(w, id)) == Some(Round6(x))
  {
    ParseToFixed6(x);
  }

  /** A location record handed to `plotLocations`. */
  datatype Location = Location(lat: real, lng: real, name: string)

  /** `bounds.extend(point)` on a `L.latLngBounds()` that starts empty (`None`). */
  function Extend(b: Option<Bounds>, p: LatLng): (r: Bounds)
    ensures Inside(p, r)
    ensures b.Some? ==> Encloses(r, b.value)
  {
    match b
    case None => Bounds(p, p)
    case Some(Bounds(sw, ne)) =>
      Bounds(LatLng(Min(sw.lat, p.lat), Min(sw.lng, p.lng)), LatLng(Max(ne.lat, p.lat), Max(ne.lng, p.lng)))
  }

  function Min(a: real, b: real): real { if a <= b then a else b }
  function Max(a: real, b: real): real { if a >= b then a else b }

  predicate Inside(p: LatLng, b: Bounds) {
    b.southWest.lat <= p.lat <= b.northEast.lat && b.southWest.lng <= p.lng <= b.northEast.lng
  }

  predicate Encloses(outer: Bounds, inner: Bounds) {
    outer.southWest.lat <= inner.southWest.lat && outer.southWest.lng <= inner.southWest.lng
    && inner.northEast.lat <= outer.northEast.lat && inner.northEast.lng <= outer.northEast.lng
  }

  /** The bounds after extending by every location of `locs`, in order. */
  function BoundsOf(locs: seq<Location>): Option<Bounds> {
    if locs == [] then None
    else Some(Extend(BoundsOf(locs[..|locs| - 1]), LatLng(locs[|locs| - 1].lat, locs[|locs| - 1].lng)))
  }

  /** The markers `plotLocations` adds to map `m`, one per location, in order. */
  function LocationMarkers(locs: seq<Location>, m: MapId): (r: seq<Marker>)
    ensures |r| == |locs|
    ensures forall i :: 0 <= i < |locs| ==>
      r[i] == Marker(LatLng(locs[i].lat, locs[i].lng), false, Some("<b>" + locs[i].name), Some(m))
  {
    if locs == [] then []
    else LocationMarkers(locs[..|locs| - 1], m) + [Marker(LatLng(locs[|locs| - 1].lat, locs[|locs| - 1].lng), false, Some("<b>" + locs[|locs| - 1].name), Some(m))]
  }

  /** `plotLocations(map, locations)`: one marker per location and, when there
      was at least one, the map fitted to their bounds. */
  function PlotLocations(w: Window, m: MapId, locs: seq<Location>): (r: Window)
    requires m < |w.maps|
  {
    var w1 := w.(markers := w.markers + LocationMarkers(locs, m));
    match BoundsOf(locs)
    case None => w1
    case Some(b) => w1.(maps := w1.maps[m := w1.maps[m].(fitted := Some(b))])
  }

  /** The fitted bounds contain every plotted location. */
  lemma {:induction false} BoundsContainAll(locs: seq<Location>)
    ensures BoundsOf(locs).Some? <==> locs != []
    ensures forall i :: 0 <= i < |locs| ==> Inside(LatLng(locs[i].lat, locs[i].lng), BoundsOf(locs).value)
  {
    if locs != [] {
      var init := locs[..|locs| - 1];
      BoundsContainAll(init);
      forall i | 0 <= i < |locs|
        ensures Inside(LatLng(locs[i].lat, locs[i].lng), BoundsOf(locs).value)
      {
        if i < |locs| - 1 {
          assert locs[i] == init[i];
        }
      }
    }
  }

  /** `plotLocations` adds exactly one marker per location, in input order, and
      changes the map's fitted bounds exactly when there was a location; every
      location then lies within them. */
  lemma PlotLocationsEffect(w: Window, m: MapId, locs: seq<Location>)
    requires m < |w.maps|
    ensures var r := PlotLocations(w, m, locs);
      |r.markers| == |w.markers| + |locs| && r.markers[..|w.markers|] == w.markers
      && (forall i :: 0 <= i < |locs| ==>
            r.markers[|w.markers| + i].position == LatLng(locs[i].lat, locs[i].lng) && r.markers[|w.markers| + i].onMap == Some(m))
      && (locs == [] ==> r == w)
      && (locs != [] ==>
            r.maps[m].fitted.Some? && forall i :: 0 <= i < |locs| ==> Inside(LatLng(locs[i].lat, locs[i].lng), r.maps[m].fitted.value))
  {
    BoundsContainAll(locs);
    var r := PlotLocations(w, m, locs);
    assert r.markers == w.markers + LocationMarkers(locs, m);
    if locs == [] {
      assert w.markers + [] == w.markers;
    }
  }

  /** Methods on a live page with the effect of the functions above. */

  method InitializeMapOn(p: Page, mapId: string, lat: real, lng: real, zoom: int) returns (result: Option<MapId>)
    modifies p
    ensures p.State() == InitializeMap(old(p.State()), mapId, lat, lng, zoom).window
    ensures result == InitializeMap(old(p.State()), mapId, lat, lng, zoom).result
  {
    var found := FirstMatch(p.containers, mapId, false);
    if found.None? {
      return None;
    }
    var c := found.value;
    ghost var w0 := p.State();
    assert ById(w0, mapId) == Some(c);
    if p.containers[c].tagged {
      p.containers := p.containers[c := p.containers[c].(tagged := false)];
    }
    ghost var cleared := p.State();
    assert cleared == Untag(w0, Some(c));
    p.maps := p.maps + [LeafletMap(mapId, c, ClampedOptions, LatLng(lat, lng), zoom, true, true, false, None, 0)];
    p.containers := p.containers[c := p.containers[c].(tagged := true)];
    assert p.State() == LeafletCreate(cleared, mapId, c, lat, lng, zoom);
    if mapId != "map" {
      p.mainPageMap := Some(|p.maps| - 1);
    }
    return Some(|p.maps| - 1);
  }

  method CustomLeafletWidgetOn(p: Page, lat: real, lng: real, latFieldId: string, lngFieldId: string)
    returns (result: Option<MapId>, threw: bool)
    modifies p
    ensures p.State() == CustomLeafletWidget(old(p.State()), lat, lng, latFieldId, lngFieldId).window
    ensures result == CustomLeafletWidget(old(p.State()), lat, lng, latFieldId, lngFieldId).result
    ensures threw == CustomLeafletWidget(old(p.State()), lat, lng, latFieldId, lngFieldId).threw
  {
    result := InitializeMapOn(p, "map", lat, lng, WidgetZoom);
    if result.None? {
      return None, true;
    }
    AttachWidgetOn(p, result.value, lat, lng, latFieldId, lngFieldId);
    return result, false;
  }

  method AttachWidgetOn(p: Page, m: MapId, lat: real, lng: real, latFieldId: string, lngFieldId: string)
    modifies p
    ensures p.State() == AttachWidget(old(p.State()), m, lat, lng, latFieldId, lngFieldId)
  {
    var k := |p.markers|;
    var bound := latFieldId in p.inputs && lngFieldId in p.inputs;
    p.markers := p.markers + [Marker(LatLng(lat, lng), true, None, Some(m))];
    p.widgets := p.widgets + [Widget(m, k, latFieldId, lngFieldId, bound)];
    if bound {
      p.inputs := p.inputs[latFieldId := Fixed6(lat)][lngFieldId := Fixed6(lng)];
    }
    p.timers := p.timers + [InvalidateMap(m)];
  }

  method InitializeModalMapOn(p: Page, c: nat, fault: Fault) returns (threw: bool)
    requires c < |p.containers|
    modifies p
    ensures p.State() == InitializeModalMap(old(p.State()), c, fault).window
    ensures threw == InitializeModalMap(old(p.State()), c, fault).threw
  {
    ghost var w0 := p.State();
    ghost var torn := if w0.modalMap.Some? then Teardown(w0, w0.modalMap.value, fault) else Run(w0, false);
    if p.modalMap.Some? {
      threw := p.TeardownMap(p.modalMap.value, fault);
      if threw {
        return;
      }
      if p.containers[c].tagged {
        p.containers := p.containers[c := p.containers[c].(tagged := false)];
      }
      assert p.State() == Untag(torn.window, Some(c));
    }
    ghost var w1 := p.State();
    assert !torn.threw && w1 == (if w0.modalMap.Some? then Untag(torn.window, Some(c)) else torn.window);
    threw := ModalWidgetOn(p, c);
  }

  method ModalWidgetOn(p: Page, c: nat) returns (threw: bool)
    requires c < |p.containers|
    modifies p
    ensures p.State() == ModalWidget(old(p.State()), c).window
    ensures threw == ModalWidget(old(p.State()), c).threw
  {
    var container := p.containers[c];
    var made;
    made, threw := CustomLeafletWidgetOn(p, StartLat(container), StartLng(container),
      DataText(container, "latFieldId"), DataText(container, "lngFieldId"));
    if !threw {
      p.modalMap := made;
    }
  }



  /** One more location: one more marker after the ones before, and the
      bounds extended by it. */
  lemma PlotOneMore(head: seq<Marker>, locs: seq<Location>, i: nat, m: MapId)
    requires i < |locs|
    ensures head + LocationMarkers(locs[..i + 1], m)
      == head + LocationMarkers(locs[..i], m) + [Marker(LatLng(locs[i].lat, locs[i].lng), false, Some("<b>" + locs[i].name), Some(m))]
    ensures BoundsOf(locs[..i + 1]) == Some(Extend(BoundsOf(locs[..i]), LatLng(locs[i].lat, locs[i].lng)))
  {
    assert locs[..i + 1][..i] == locs[..i];
  }

  method PlotLocationsOn(p: Page, m: MapId, locs: seq<Location>)
    requires m < |p.maps|
    modifies p
    ensures p.State() == PlotLocations(old(p.State()), m, locs)
  {
    ghost var w0 := p.State();
    var bounds: Option<Bounds> := None;
    var i := 0;
    while i < |locs|
      invariant 0 <= i <= |locs|
      invariant p.State() == w0.(markers := w0.markers + LocationMarkers(locs[..i], m))
      invariant bounds == BoundsOf(locs[..i])
    {
      var at := LatLng(locs[i].lat, locs[i].lng);
      PlotOneMore(w0.markers, locs, i, m);
      p.markers := p.markers + [Marker(at, false, Some("<b>" + locs[i].name), Some(m))];
      bounds := Some(Extend(bounds, at));
      i := i + 1;
    }
    assert locs[..i] == locs;
    if bounds.Some? {
      p.maps := p.maps[m := p.maps[m].(fitted := bounds)];
    }
  }
}
