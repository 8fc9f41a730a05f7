/** The browser page the three map scripts share: the document's map
    containers and input fields, the Leaflet maps and markers created so far,
    the two global references `window.modalMap` and `window.mainPageMap`, the
    Bootstrap modal and offcanvas instances, the event listeners the scripts
    register, and the pending `setTimeout` callbacks.

    Leaflet, Bootstrap and jQuery are foreign code: a map is a record in
    `maps` addressed by its index, and whether one of Leaflet's teardown calls
    throws is a parameter (`Fault`). */
module Dom {
  import opened Wrappers
  import opened Decimal

  type MapId = nat

  datatype LatLng = LatLng(lat: real, lng: real)

  /** A `L.latLngBounds` rectangle. */
  datatype Bounds = Bounds(southWest: LatLng, northEast: LatLng)

  datatype MapOptions = MapOptions(maxBounds: Bounds, maxBoundsViscosity: real, noWrap: bool, bounceAtZoomLimits: bool)

  /** A Leaflet map: the id it was created with, the container it is drawn in,
      its view, whether the tile layer is still on it, whether it still has its
      event listeners, whether `remove()` has run, the bounds it was fitted to
      and how often `invalidateSize` resized it. */
  datatype LeafletMap = LeafletMap(
    mapId: string, container: nat, options: MapOptions, center: LatLng, zoom: int,
    tiles: bool, listening: bool, removed: bool, fitted: Option<Bounds>, resized: nat)

  /** A Leaflet marker and the map it is currently added to. */
  datatype Marker = Marker(position: LatLng, draggable: bool, popup: Option<string>, onMap: Option<MapId>)

  /** A coordinate picker made by `customLeafletWidget`: its map, its marker,
      the ids of the two input fields, and whether the `input` listeners were
      attached (they are only when both fields existed). */
  datatype Widget = Widget(mapRef: MapId, marker: nat, latFieldId: string, lngFieldId: string, inputsBound: bool)

  /** An element a map can be drawn in: its id, whether it sits inside
      `#modal`, whether it is still in the document, its `data-` attributes
      (camel-cased keys) and whether it carries Leaflet's `_leaflet_id` tag. */
  datatype Container = Container(id: string, inModal: bool, attached: bool, dataset: map<string, string>, tagged: bool)

  /** A Bootstrap modal or offcanvas instance. */
  datatype Instance = Instance(id: nat, shown: bool)

  /** The callbacks handed to `setTimeout` and not yet run. */
  datatype Timer =
    | InitModalMap(container: nat)   // dialog.js: initializeModalMap(mapContainer)
    | InvalidateMainMap              // dialog.js: window.mainPageMap.invalidateSize()
    | InvalidateModalMap             // modal_map.js: if (window.modalMap) ... invalidateSize()
    | InvalidateMap(mapRef: MapId)   // customLeafletWidget: map.invalidateSize()

  /** Whether each of Leaflet's three teardown calls completes or which one throws. */
  datatype Fault = Completes | ThrowsInEachLayer | ThrowsInOff | ThrowsInRemove

  /** The `value` of an input field: text the user typed, or the text
      `x.toFixed(6)` wrote into it. */
  datatype FieldText = Typed(text: string) | Fixed6(x: real)
  {
    function Text(): string {
      match this
      case Typed(t) => t
      case Fixed6(x) => ToFixed6(x)
    }
  }

  /** The whole page. Records refer to each other by index; the functions
      below treat an index past the end as a reference to nothing. */
  datatype Window = Window(
    containers: seq<Container>,
    inputs: map<string, FieldText>,
    maps: seq<LeafletMap>,
    markers: seq<Marker>,
    widgets: seq<Widget>,
    modalMap: Option<MapId>,
    mainPageMap: Option<MapId>,
    modalElement: bool,
    modal: Option<Instance>,
    nextInstance: nat,
    shownListeners: nat,
    hiddenListeners: nat,
    delegatedHidden: nat,
    offcanvasElement: bool,
    offcanvas: Option<Instance>,
    timers: seq<Timer>)

  /** The value of an input field as `element.value` reads it; a field that is
      not in the document reads as the empty string, which does not parse. */
  function FieldValue(w: Window, id: string): string {
    if id in w.inputs then w.inputs[id].Text() else ""
  }

  predicate Matches(c: Container, id: string, modalOnly: bool) {
    c.attached && c.id == id && (!modalOnly || c.inModal)
  }

  /** The first attached container in document order with this id, inside
      `#modal` when `modalOnly`: `getElementById(id)` / `querySelector("#id")`
      and `querySelector("#modal #id")`. */
  function FirstMatch(cs: seq<Container>, id: string, modalOnly: bool): (r: Option<nat>)
    ensures r.Some? ==> r.value < |cs| && Matches(cs[r.value], id, modalOnly)
    ensures r.Some? ==> forall j :: 0 <= j < r.value ==> !Matches(cs[j], id, modalOnly)
    ensures r.None? ==> forall j :: 0 <= j < |cs| ==> !Matches(cs[j], id, modalOnly)
  {
    if cs == [] then None
    else if Matches(cs[0], id, modalOnly) then Some(0)
    else match FirstMatch(cs[1..], id, modalOnly)
      case None => None
      case Some(k) => Some(k + 1)
  }

  /** `document.getElementById(id)` for a map container. */
  function ById(w: Window, id: string): Option<nat> {
    FirstMatch(w.containers, id, false)
  }

  /** `document.querySelector("#modal #map")`, equally `modalElement.querySelector("#map")`. */
  function ModalMapContainer(w: Window): Option<nat> {
    if w.modalElement then FirstMatch(w.containers, "map", true) else None
  }

  /** Clears the `_leaflet_id` tag of container `c` if it has one. */
  function Untag(w: Window, c: Option<nat>): (r: Window)
    requires c.Some? ==> c.value < |w.containers|
    ensures |r.containers| == |w.containers| && r == w.(containers := r.containers)
    ensures c.Some? ==> !r.containers[c.value].tagged
    ensures forall i :: 0 <= i < |r.containers| && Some(i) != c ==> r.containers[i] == w.containers[i]
  {
    if c.Some? && w.containers[c.value].tagged then
      w.(containers := w.containers[c.value := w.containers[c.value].(tagged := false)])
    else w
  }

  /** Two lists of the same containers that may differ in their tags. */
  predicate Retagged(a: seq<Container>, b: seq<Container>) {
    |a| == |b| && forall i :: 0 <= i < |a| ==> a[i].(tagged := b[i].tagged) == b[i]
  }

  /** A query reads no tag, so it finds the same container whatever the tags. */
  lemma {:induction false} RetaggedMatch(a: seq<Container>, b: seq<Container>, id: string, modalOnly: bool)
    requires Retagged(a, b)
    ensures FirstMatch(a, id, modalOnly) == FirstMatch(b, id, modalOnly)
    decreases |a|
  {
    if a != [] {
      assert a[0].(tagged := b[0].tagged) == b[0];
      assert Retagged(a[1..], b[1..]) by {
        forall i | 0 <= i < |a| - 1
          ensures a[1..][i].(tagged := b[1..][i].tagged) == b[1..][i]
        {
          assert a[1..][i] == a[i + 1] && b[1..][i] == b[i + 1];
        }
      }
      RetaggedMatch(a[1..], b[1..], id, modalOnly);
    }
  }

  /** Clearing a tag keeps every query's answer. */
  lemma UntagKeepsQueries(w: Window, c: Option<nat>, id: string)
    requires c.Some? ==> c.value < |w.containers|
    ensures ById(Untag(w, c), id) == ById(w, id)
    ensures ModalMapContainer(Untag(w, c)) == ModalMapContainer(w)
  {
    var r := Untag(w, c);
    assert Retagged(r.containers, w.containers);
    RetaggedMatch(r.containers, w.containers, id, false);
    RetaggedMatch(r.containers, w.containers, "map", true);
  }

  /** Marker `x` as it is after `removeLayer` on map `m`. */
  function DetachOne(x: Marker, m: MapId): Marker {
    if x.onMap == Some(m) then x.(onMap := None) else x
  }

  /** `markers` with every marker on map `m` taken off it. */
  function Detach(markers: seq<Marker>, m: MapId): (r: seq<Marker>)
    ensures |r| == |markers|
    ensures forall i :: 0 <= i < |r| ==> r[i].onMap != Some(m)
    ensures forall i :: 0 <= i < |r| ==> r[i] == DetachOne(markers[i], m)
  {
    if markers == [] then [] else [DetachOne(markers[0], m)] + Detach(markers[1..], m)
  }

  /** Result of a step of the page that may throw: the new window and whether
      a JavaScript exception escaped. */
  datatype Run = Run(window: Window, threw: bool)

  /** `map.eachLayer(l => map.removeLayer(l))`: the tile layer and every
      marker come off map `m`. */
  function RemoveLayers(w: Window, m: MapId): (r: Window)
    requires m < |w.maps|
    ensures |r.maps| == |w.maps|
  {
    w.(maps := w.maps[m := w.maps[m].(tiles := false)], markers := Detach(w.markers, m))
  }

  /** `map.off()`: the map's event listeners are gone. */
  function Off(w: Window, m: MapId): (r: Window)
    requires m < |w.maps|
    ensures |r.maps| == |w.maps|
  {
    w.(maps := w.maps[m := w.maps[m].(listening := false)])
  }

  /** The container map `m` is drawn in, when both are on the page. */
  function ContainerOf(w: Window, m: MapId): (r: Option<nat>)
    ensures r.Some? ==> r.value < |w.containers|
  {
    if m < |w.maps| && w.maps[m].container < |w.containers| then Some(w.maps[m].container) else None
  }

  /** `map.remove()`: the map is destroyed and Leaflet deletes the
      `_leaflet_id` of its container. */
  function Remove(w: Window, m: MapId): (r: Window)
    requires m < |w.maps|
    ensures |r.maps| == |w.maps|
  {
    Untag(w.(maps := w.maps[m := w.maps[m].(removed := true)]), ContainerOf(w, m))
  }

  /** `remove()` destroys map `m` alone and clears the tag of its container
      alone. */
  lemma RemoveEffect(w: Window, m: MapId)
    requires m < |w.maps|
    ensures var r := Remove(w, m);
      |r.containers| == |w.containers| && r.maps[m] == w.maps[m].(removed := true)
      && (forall i :: 0 <= i < |w.maps| && i != m ==> r.maps[i] == w.maps[i])
      && (ContainerOf(w, m).Some? ==> !r.containers[ContainerOf(w, m).value].tagged)
      && (forall i :: 0 <= i < |w.containers| && Some(i) != ContainerOf(w, m) ==> r.containers[i] == w.containers[i])
  {
  }

  /** The three teardown calls on map `m`, stopping at the one that `fault`
      says throws. */
  function Teardown(w: Window, m: MapId, fault: Fault): (r: Run)
    ensures r.threw <==> fault != Completes
    ensures |r.window.maps| == |w.maps|
    ensures r.window == w.(maps := r.window.maps, markers := r.window.markers, containers := r.window.containers)
    ensures r.window.containers == if fault == Completes then Untag(w, ContainerOf(w, m)).containers else w.containers
    ensures forall i :: 0 <= i < |w.maps| && i != m ==> r.window.maps[i] == w.maps[i]
    ensures fault == Completes && m < |w.maps| ==>
      r.window.maps[m].removed && !r.window.maps[m].listening && !r.window.maps[m].tiles
    ensures fault != ThrowsInEachLayer && m < |w.maps| ==>
      forall i :: 0 <= i < |r.window.markers| ==> r.window.markers[i].onMap != Some(m)
    ensures fault == ThrowsInEachLayer || m >= |w.maps| ==> r.window == w
    ensures fault != Completes && m < |w.maps| ==> r.window.maps[m].removed == w.maps[m].removed
    ensures m < |w.maps| ==> r.window.maps[m].mapId == w.maps[m].mapId
  {
    if m >= |w.maps| then Run(w, fault != Completes)
    else match fault
      case ThrowsInEachLayer => Run(w, true)
      case ThrowsInOff => Run(RemoveLayers(w, m), true)
      case ThrowsInRemove => Run(Off(RemoveLayers(w, m), m), true)
      case Completes => Run(Remove(Off(RemoveLayers(w, m), m), m), false)
  }

  /** The teardown keeps every query's answer: `remove()` only clears a tag. */
  lemma TeardownKeepsQueries(w: Window, m: MapId, fault: Fault, id: string)
    ensures ById(Teardown(w, m, fault).window, id) == ById(w, id)
    ensures ModalMapContainer(Teardown(w, m, fault).window) == ModalMapContainer(w)
  {
    var r := Teardown(w, m, fault).window;
    UntagKeepsQueries(w, ContainerOf(w, m), id);
    assert ById(r, id) == ById(w.(containers := r.containers), id);
  }

  /** The two scripts that declare the global `cleanupModalMap`, dialog.js
      and modal_map.js; the page keeps the declaration of the one it loads
      last, and every caller reaches that one. */
  datatype CleanupScript = DialogJsCleanup | ModalMapJsCleanup

  /** The container whose tag `cleanupModalMap` clears after the teardown:
      dialog.js's queries `#modal #map`, modal_map.js's the first `#map` of
      the document. */
  function CleanupTarget(w: Window, owner: CleanupScript): Option<nat> {
    if owner == DialogJsCleanup then ModalMapContainer(w) else ById(w, "map")
  }

  /** `cleanupModalMap()` as script `owner` declares it. Both run the teardown
      inside `try` with `window.modalMap = null` as its last statement, so the
      reference is cleared only when all three Leaflet calls complete; an
      exception is caught and logged. Then the tag of the container the
      script queries is cleared. Nothing escapes. */
  function CleanupModalMapBy(w: Window, fault: Fault, owner: CleanupScript): (r: Window)
    ensures |r.maps| == |w.maps| && |r.containers| == |w.containers|
    ensures w.modalMap.None? ==> r == Untag(w, CleanupTarget(w, owner))
    ensures fault == Completes ==> r.modalMap.None?
    ensures w.modalMap.Some? && fault == Completes && w.modalMap.value < |w.maps| ==>
      r.maps[w.modalMap.value].removed && !r.maps[w.modalMap.value].listening && !r.maps[w.modalMap.value].tiles
    ensures fault != Completes ==> r.modalMap == w.modalMap
    ensures forall i :: 0 <= i < |w.maps| && Some(i) != w.modalMap ==> r.maps[i] == w.maps[i]
    ensures CleanupTarget(w, owner).Some? ==> !r.containers[CleanupTarget(w, owner).value].tagged
    ensures r == w.(maps := r.maps, markers := r.markers, modalMap := r.modalMap, containers := r.containers)
  {
    var w1 := TornModalMap(w, fault);
    Untag(w1, CleanupTarget(w1, owner))
  }

  /** The cleanup keeps every query's answer: it only clears tags. */
  lemma CleanupKeepsQueries(w: Window, fault: Fault, owner: CleanupScript, id: string)
    ensures ById(CleanupModalMapBy(w, fault, owner), id) == ById(w, id)
    ensures ModalMapContainer(CleanupModalMapBy(w, fault, owner)) == ModalMapContainer(w)
  {
    var w1 := TornModalMap(w, fault);
    if w.modalMap.Some? {
      TeardownKeepsQueries(w, w.modalMap.value, fault, id);
      var torn := Teardown(w, w.modalMap.value, fault).window;
      assert ById(w1, id) == ById(torn, id);
      assert ModalMapContainer(w1) == ModalMapContainer(torn);
    }
    UntagKeepsQueries(w1, CleanupTarget(w1, owner), id);
  }

  /** The `try` block of `cleanupModalMap()`: the modal map torn down and
      the reference nulled once all three calls completed. */
  function TornModalMap(w: Window, fault: Fault): (r: Window)
    ensures CleanupTarget(r, DialogJsCleanup) == CleanupTarget(w, DialogJsCleanup)
    ensures CleanupTarget(r, ModalMapJsCleanup) == CleanupTarget(w, ModalMapJsCleanup)
    ensures w.modalMap.None? ==> r == w
  {
    if w.modalMap.None? then w
    else
      var torn := Teardown(w, w.modalMap.value, fault);
      TeardownKeepsQueries(w, w.modalMap.value, fault, "map");
      if torn.threw then torn.window else torn.window.(modalMap := None)
  }

  /** `map.invalidateSize()`: a live map re-measures its container; a removed
      one (or a dangling reference) is left as it is. */
  function Resize(w: Window, m: MapId): (r: Window)
    ensures r == w.(maps := r.maps) && |r.maps| == |w.maps|
    ensures forall i :: 0 <= i < |w.maps| ==> r.maps[i].removed == w.maps[i].removed && r.maps[i].mapId == w.maps[i].mapId
  {
    if m < |w.maps| && !w.maps[m].removed then w.(maps := w.maps[m := w.maps[m].(resized := w.maps[m].resized + 1)])
    else w
  }

  /** `timers` with entry `i` taken out. */
  function Without(timers: seq<Timer>, i: nat): (r: seq<Timer>)
    requires i < |timers|
    ensures |r| == |timers| - 1
  {
    timers[..i] + timers[i + 1..]
  }

  /** The window and document as mutable state; the scripts' functions are
      methods over it, each proved to have the effect of the function that
      specifies it. */
  class Page {
    var containers: seq<Container>
    var inputs: map<string, FieldText>
    var maps: seq<LeafletMap>
    var markers: seq<Marker>
    var widgets: seq<Widget>
    var modalMap: Option<MapId>
    var mainPageMap: Option<MapId>
    var modalElement: bool
    var modal: Option<Instance>
    var nextInstance: nat
    var shownListeners: nat
    var hiddenListeners: nat
    var delegatedHidden: nat
    var offcanvasElement: bool
    var offcanvas: Option<Instance>
    var timers: seq<Timer>

    function State(): Window
      reads this
    {
      Window(containers, inputs, maps, markers, widgets, modalMap, mainPageMap, modalElement, modal,
        nextInstance, shownListeners, hiddenListeners, delegatedHidden, offcanvasElement, offcanvas, timers)
    }

    /** Loads a page in state `w`. */
    constructor (w: Window)
      ensures State() == w
    {
      containers, inputs, maps, markers, widgets := w.containers, w.inputs, w.maps, w.markers, w.widgets;
      modalMap, mainPageMap, modalElement, modal := w.modalMap, w.mainPageMap, w.modalElement, w.modal;
      nextInstance, shownListeners, hiddenListeners, delegatedHidden := w.nextInstance, w.shownListeners, w.hiddenListeners, w.delegatedHidden;
      offcanvasElement, offcanvas, timers := w.offcanvasElement, w.offcanvas, w.timers;
    }

    /** `cleanupModalMap()` as script `owner` declares it. */
    method CleanupModalMap(fault: Fault, owner: CleanupScript)
      modifies this
      ensures State() == CleanupModalMapBy(old(State()), fault, owner)
    {
      TeardownModalMap(fault);
      var target := if owner == ModalMapJsCleanup then FirstMatch(containers, "map", false)
        else if modalElement then FirstMatch(containers, "map", true) else None;
      if target.Some? && containers[target.value].tagged {
        containers := containers[target.value := containers[target.value].(tagged := false)];
      }
    }

    /** The `try` block of `cleanupModalMap()`. */
    method TeardownModalMap(fault: Fault)
      modifies this
      ensures State() == TornModalMap(old(State()), fault)
    {
      if modalMap.Some? {
        var threw := TeardownMap(modalMap.value, fault);
        if !threw {
          modalMap := None;
        }
      }
    }

    /** `eachLayer(removeLayer)`, `off()` and `remove()` on map `m`: the
        layer loop takes each marker on `m` off it, one at a time. */
    method TeardownMap(m: MapId, fault: Fault) returns (threw: bool)
      modifies this
      ensures State() == Teardown(old(State()), m, fault).window
      ensures threw == Teardown(old(State()), m, fault).threw
    {
      if m >= |maps| {
        return fault != Completes;
      }
      if fault == ThrowsInEachLayer {
        return true;
      }
      ghost var w0 := State();
      maps := maps[m := maps[m].(tiles := false)];
      DetachMarkers(m);
      assert State() == RemoveLayers(w0, m);
      if fault == ThrowsInOff {
        return true;
      }
      maps := maps[m := maps[m].(listening := false)];
      assert State() == Off(RemoveLayers(w0, m), m);
      if fault == ThrowsInRemove {
        return true;
      }
      var c := maps[m].container;
      maps := maps[m := maps[m].(removed := true)];
      if c < |containers| && containers[c].tagged {
        containers := containers[c := containers[c].(tagged := false)];
      }
      return false;
    }

    /** The `eachLayer(removeLayer)` loop: each marker on map `m` is taken
        off it, one at a time. */
    method DetachMarkers(m: MapId)
      modifies this
      ensures State() == old(State()).(markers := Detach(old(markers), m))
    {
      ghost var before := State();
      var i := 0;
      while i < |markers|
        invariant 0 <= i <= |markers| == |before.markers|
        invariant State() == before.(markers := markers)
        invariant forall j :: 0 <= j < i ==> markers[j] == DetachOne(before.markers[j], m)
        invariant forall j :: i <= j < |markers| ==> markers[j] == before.markers[j]
      {
        if markers[i].onMap == Some(m) {
          markers := markers[i := markers[i].(onMap := None)];
        }
        i := i + 1;
      }
      assert markers == Detach(before.markers, m);
    }
  }
}
