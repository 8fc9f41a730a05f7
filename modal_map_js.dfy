/** static/js/modal_map.js: its own `initializeModalMap`, which cleans up
    through its own `cleanupModalMap` and then builds the coordinate picker
    (the `customLeafletWidget` of this file is the same text as map.js's and
    is `MapScript.CustomLeafletWidget`). */
module ModalMapScript {
  import opened Wrappers
  import opened Dom
  import opened MapScript

  /** modal_map.js's `cleanupModalMap()`: the teardown runs inside `try`, and
      `window.modalMap = null` is its last statement, so the reference is
      cleared only when all three Leaflet calls complete; an exception is
      caught and logged. Then the tag of the first `#map` in the whole
      document is cleared. Nothing escapes. */
  function CleanupModalMap(w: Window, fault: Fault): (r: Window)
    ensures |r.maps| == |w.maps| && |r.containers| == |w.containers|
    ensures w.modalMap.None? ==> r == Untag(w, ById(w, "map"))
    ensures w.modalMap.Some? && fault == Completes ==> r.modalMap.None?
    ensures w.modalMap.Some? && fault == Completes && w.modalMap.value < |w.maps| ==> r.maps[w.modalMap.value].removed
    ensures fault != Completes ==> r.modalMap == w.modalMap
    ensures forall i :: 0 <= i < |w.maps| && Some(i) != w.modalMap ==> r.maps[i] == w.maps[i]
    ensures ById(w, "map").Some? ==> !r.containers[ById(w, "map").value].tagged
    ensures r == w.(maps := r.maps, markers := r.markers, modalMap := r.modalMap, containers := r.containers)
  {
    CleanupModalMapBy(w, fault, ModalMapJsCleanup)
  }

  /** modal_map.js's `initializeModalMap(mapContainer)`: nothing at all for a
      missing container; otherwise any existing modal map is cleaned up (errors
      swallowed), the widget is built from the container's `data-` attributes
      and stored in `window.modalMap`, and a resize is scheduled. Building the
      widget throws when the document has no `#map`. */
  function InitializeModalMap(w: Window, c: Option<nat>, fault: Fault, owner: CleanupScript): (r: Step)
    requires c.Some? ==> c.value < |w.containers|
    ensures c.None? ==> r == Step(w, None, false)
    ensures r.threw ==> r.result.None?
    ensures !r.threw && c.Some? ==>
      r.result == Some(|w.maps|) && r.window.modalMap == r.result && |r.window.maps| == |w.maps| + 1
      && |r.window.timers| > 0 && r.window.timers[|r.window.timers| - 1] == InvalidateModalMap
  {
    match c
    case None => Step(w, None, false)
    case Some(k) =>
      var w1 := if w.modalMap.Some? then CleanupModalMapBy(w, fault, owner) else w;
      BuildModalMap(w1, k)
  }

  /** The part after the cleanup: the widget from the container's attributes
      becomes `window.modalMap` and a resize is scheduled. */
  function BuildModalMap(w: Window, k: nat): (r: Step)
    requires k < |w.containers|
  {
    var made := ModalWidget(w, k);
    if made.threw then made
    else Step(made.window.(timers := made.window.timers + [InvalidateModalMap]), made.result, false)
  }

  /** The widget is appended as one new live picker; the maps before it are
      kept. */
  lemma BuildAddsOneMap(w: Window, k: nat)
    requires k < |w.containers|
    ensures var r := BuildModalMap(w, k);
      (r.threw <==> ById(w, "map").None?)
      && (r.threw ==> r.window == w && r.result.None?)
      && (!r.threw ==> r.window.maps[..|w.maps|] == w.maps && r.window.maps[|w.maps|].mapId == "map" && !r.window.maps[|w.maps|].removed)
  {
  }

  /** The deferred resize: it acts only when `window.modalMap` is still set
      when it fires. */
  function ResizeModalMap(w: Window): (r: Window)
    ensures w.modalMap.None? ==> r == w
    ensures w.modalMap.Some? ==> r == Resize(w, w.modalMap.value)
  {
    match w.modalMap
    case None => w
    case Some(m) => Resize(w, m)
  }

  /** A container that is not there leaves the page exactly as it was,
      including `window.modalMap`. */
  lemma NoContainerNoChange(w: Window, fault: Fault, owner: CleanupScript)
    ensures InitializeModalMap(w, None, fault, owner).window == w
    ensures !InitializeModalMap(w, None, fault, owner).threw
  {
  }

  /** Cleanup with no modal map cannot fail and touches only the tag of the
      first `#map`. */
  lemma CleanupWithoutMap(w: Window, fault: Fault)
    requires w.modalMap.None?
    ensures CleanupModalMap(w, fault) == Untag(w, ById(w, "map"))
  {
  }

  /** When every teardown call completes, the previous modal map is destroyed
      before the new one is created, and only the new one is referenced,
      whichever script's `cleanupModalMap` the page kept. */
  lemma ReplaceWhenTeardownCompletes(w: Window, c: nat, owner: CleanupScript)
    requires c < |w.containers| && w.modalMap.Some? && w.modalMap.value < |w.maps|
    requires ById(w, "map").Some?
    ensures var r := InitializeModalMap(w, Some(c), Completes, owner);
      !r.threw && r.window.maps[w.modalMap.value].removed && r.window.modalMap == Some(|w.maps|)
  {
    CleanupKeepsQueries(w, Completes, owner, "map");
  }

  /** As written, a teardown that throws is swallowed, the old map stays live
      and referenced until the new widget overwrites the reference: two live
      maps on the page, one of them no longer reachable from `window`. */
  lemma TeardownThrowLeavesTwoLiveMaps(w: Window, c: nat, fault: Fault, owner: CleanupScript)
    requires c < |w.containers| && w.modalMap.Some? && w.modalMap.value < |w.maps|
    requires !w.maps[w.modalMap.value].removed && fault != Completes
    requires ById(w, "map").Some?
    ensures var r := InitializeModalMap(w, Some(c), fault, owner);
      var old_ := w.modalMap.value;
      !r.threw && !r.window.maps[old_].removed && !r.window.maps[|w.maps|].removed
      && r.window.maps[old_].mapId == w.maps[old_].mapId
      && r.window.modalMap == Some(|w.maps|) && old_ != |w.maps|
  {
    var m := w.modalMap.value;
    var torn := Teardown(w, m, fault);
    var w1 := CleanupModalMapBy(w, fault, owner);
    CleanupKeepsQueries(w, fault, owner, "map");
    assert w1.maps == torn.window.maps;
    var r := BuildModalMap(w1, c);
    BuildAddsOneMap(w1, c);
    assert r.window.maps[..|w1.maps|][m] == w1.maps[m];
  }

  /** What `initializeModalMap` does to the maps: every map other than the
      referenced one is untouched, at most the new picker is added, and a
      complete teardown removes the old map and clears the reference even
      when building the new widget then throws. */
  lemma InitializeModalMapFrame(w: Window, c: nat, fault: Fault, owner: CleanupScript)
    requires c < |w.containers|
    ensures var r := InitializeModalMap(w, Some(c), fault, owner);
      (r.threw ==> |r.window.maps| == |w.maps| && r.window.modalMap == (if fault == Completes then None else w.modalMap))
      && (!r.threw ==> r.window.maps[|w.maps|].mapId == "map" && !r.window.maps[|w.maps|].removed)
      && (forall i :: 0 <= i < |w.maps| && Some(i) != w.modalMap ==> r.window.maps[i] == w.maps[i])
      && (fault == Completes && w.modalMap.Some? && w.modalMap.value < |w.maps| ==> r.window.maps[w.modalMap.value].removed)
  {
    var w1 := if w.modalMap.Some? then CleanupModalMapBy(w, fault, owner) else w;
    var r := BuildModalMap(w1, c);
    BuildAddsOneMap(w1, c);
    assert InitializeModalMap(w, Some(c), fault, owner) == r;
    if !r.threw {
      forall i | 0 <= i < |w.maps|
        ensures r.window.maps[i] == w1.maps[i]
      {
        assert r.window.maps[..|w1.maps|][i] == w1.maps[i];
      }
    }
  }

  /** Methods on a live page with the effect of the functions above. */

  method InitializeModalMapOn(p: Page, c: Option<nat>, fault: Fault, owner: CleanupScript) returns (threw: bool)
    requires c.Some? ==> c.value < |p.containers|
    modifies p
    ensures p.State() == InitializeModalMap(old(p.State()), c, fault, owner).window
    ensures threw == InitializeModalMap(old(p.State()), c, fault, owner).threw
  {
    if c.None? {
      return false;
    }
    if p.modalMap.Some? {
      p.CleanupModalMap(fault, owner);
    }
    threw := BuildModalMapOn(p, c.value);
  }

  method BuildModalMapOn(p: Page, k: nat) returns (threw: bool)
    requires k < |p.containers|
    modifies p
    ensures p.State() == BuildModalMap(old(p.State()), k).window
    ensures threw == BuildModalMap(old(p.State()), k).threw
  {
    threw := ModalWidgetOn(p, k);
    if !threw {
      p.timers := p.timers + [InvalidateModalMap];
    }
  }

  method ResizeModalMapOn(p: Page)
    modifies p
    ensures p.State() == ResizeModalMap(old(p.State()))
  {
    if p.modalMap.Some? {
      var m := p.modalMap.value;
      if m < |p.maps| && !p.maps[m].removed {
        p.maps := p.maps[m := p.maps[m].(resized := p.maps[m].resized + 1)];
      }
    }
  }
}
