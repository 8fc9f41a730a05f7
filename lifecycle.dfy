/** The three scripts together on one page: the events the browser delivers
    and the rule the scripts are meant to keep, that the only live coordinate
    picker map is the one `window.modalMap` refers to. Both map.js and
    modal_map.js declare a global `initializeModalMap`, and both dialog.js and
    modal_map.js a global `cleanupModalMap`; the declaration a page keeps is
    that of the script it loads last, and every caller, in whichever script,
    reaches that one. So the order the pages load the scripts in is a
    parameter. */
module Lifecycle {
  import opened Wrappers
  import opened Dom
  import MapScript
  import ModalMapScript
  import DialogScript

  /** Which declarations the page kept: map.js's `initializeModalMap` when
      map.js loads after modal_map.js, modal_map.js's otherwise; and the
      script whose `cleanupModalMap` is the global one. Each of the four
      combinations comes from some order of the three script tags. */
  datatype Loaded = Loaded(mapJsAfterModalMapJs: bool, cleanup: CleanupScript)

  /** What the browser delivers to the page. */
  datatype Event =
    | AfterSwap(target: string)                    // htmx:afterSwap
    | BeforeSwap(target: string, response: string) // htmx:beforeSwap
    | DialogContent(content: seq<Container>)        // htmx swaps new markup into the dialog
    | ModalShown                                    // shown.bs.modal on #modal
    | ModalHidden                                   // hidden.bs.modal on #modal
    | TimerFires(i: nat)                            // the i-th pending setTimeout callback runs
    | FieldTyped(k: nat)                            // input on a field of widget k
    | MarkerDropped(k: nat, at: LatLng)             // dragend on the marker of widget k

  /** Markup swapped into the dialog: the containers that were inside `#modal`
      leave the document and the new ones are appended inside it. */
  function SwapDialogContent(w: Window, content: seq<Container>): (r: Window)
    ensures |r.containers| == |w.containers| + |content|
    ensures forall i :: 0 <= i < |w.containers| ==>
      r.containers[i] == w.containers[i].(attached := w.containers[i].attached && !w.containers[i].inModal)
    ensures forall i :: 0 <= i < |content| ==> r.containers[|w.containers| + i] == content[i].(inModal := true)
    ensures r == w.(containers := r.containers)
  {
    var kept := seq(|w.containers|, i requires 0 <= i < |w.containers| =>
      w.containers[i].(attached := w.containers[i].attached && !w.containers[i].inModal));
    var added := seq(|content|, i requires 0 <= i < |content| => content[i].(inModal := true));
    w.(containers := kept + added)
  }

  /** The pending callback `t` runs. */
  function RunTimer(w: Window, t: Timer, loaded: Loaded, fault: Fault): (r: Window)
  {
    match t
    case InitModalMap(c) =>
      if c >= |w.containers| then w
      else if loaded.mapJsAfterModalMapJs then MapScript.InitializeModalMap(w, c, fault).window
      else ModalMapScript.InitializeModalMap(w, Some(c), fault, loaded.cleanup).window
    case InvalidateMainMap => DialogScript.ResizeMainMap(w).window
    case InvalidateModalMap => ModalMapScript.ResizeModalMap(w)
    case InvalidateMap(m) => Resize(w, m)
  }

  /** The page after event `e`; `fault` says whether the Leaflet teardown
      calls made while handling it complete. An exception that escapes a
      handler ends that handler only. */
  function Fire(w: Window, e: Event, loaded: Loaded, fault: Fault): (r: Window)
  {
    match e
    case AfterSwap(target) => DialogScript.AfterSwap(w, target)
    case BeforeSwap(target, response) => DialogScript.BeforeSwap(w, target, response, fault, loaded.cleanup)
    case DialogContent(content) => SwapDialogContent(w, content)
    case ModalShown => DialogScript.ModalShown(w)
    case ModalHidden => DialogScript.ModalHidden(w, fault, loaded.cleanup)
    case TimerFires(i) =>
      if i < |w.timers| then RunTimer(w.(timers := Without(w.timers, i)), w.timers[i], loaded, fault) else w
    case FieldTyped(k) => if k < |w.widgets| then MapScript.FieldInput(w, k) else w
    case MarkerDropped(k, at) => if k < |w.widgets| then MapScript.DragEnd(w, k, at) else w
  }

  /** Map `m` is a coordinate picker (made in a `#map` container) that has
      not been removed. */
  predicate LiveWidget(w: Window, m: nat) {
    m < |w.maps| && w.maps[m].mapId == "map" && !w.maps[m].removed
  }

  /** Destroy-before-create: `window.modalMap` refers to a map, and no live
      coordinate picker exists besides the one it refers to. */
  predicate SingleLiveWidget(w: Window) {
    (w.modalMap.Some? ==> w.modalMap.value < |w.maps|)
    && forall m: nat | m < |w.maps| :: LiveWidget(w, m) ==> w.modalMap == Some(m)
  }

  /** A page with no maps yet keeps the rule trivially. */
  lemma FreshPage(w: Window)
    requires w.maps == [] && w.modalMap.None?
    ensures SingleLiveWidget(w)
  {
  }

  /** A step that keeps the reference and every map's id and liveness keeps
      the rule. */
  lemma KeptBy(a: Window, b: Window)
    requires SingleLiveWidget(a)
    requires b.modalMap == a.modalMap && |b.maps| == |a.maps|
    requires forall i :: 0 <= i < |a.maps| ==> b.maps[i].mapId == a.maps[i].mapId && b.maps[i].removed == a.maps[i].removed
    ensures SingleLiveWidget(b)
  {
    forall m: nat | m < |b.maps| && LiveWidget(b, m)
      ensures b.modalMap == Some(m)
    {
      assert LiveWidget(a, m);
    }
  }

  /** Either script's cleanup keeps the rule whether or not the teardown
      throws: on success the referenced map is removed and the reference
      cleared; on a throw the reference stays. */
  lemma CleanupKeeps(w: Window, fault: Fault, owner: CleanupScript)
    requires SingleLiveWidget(w)
    ensures SingleLiveWidget(CleanupModalMapBy(w, fault, owner))
  {
    var r := CleanupModalMapBy(w, fault, owner);
    forall m: nat | m < |r.maps| && LiveWidget(r, m)
      ensures r.modalMap == Some(m)
    {
      if Some(m) != w.modalMap {
        assert LiveWidget(w, m);
      }
    }
  }

  lemma CleanupTimesKeeps(w: Window, n: nat, fault: Fault, owner: CleanupScript)
    requires SingleLiveWidget(w)
    ensures SingleLiveWidget(DialogScript.CleanupTimes(w, n, fault, owner))
  {
    var i := 0;
    while i < n
      invariant i <= n && SingleLiveWidget(DialogScript.CleanupTimes(w, i, fault, owner))
    {
      DialogScript.CleanupTimesStep(w, i, fault, owner);
      CleanupModalAndMapKeeps(DialogScript.CleanupTimes(w, i, fault, owner), fault, owner);
      i := i + 1;
    }
  }

  /** One run of the dialog's `cleanupModalAndMap()` keeps the rule. */
  lemma CleanupModalAndMapKeeps(w: Window, fault: Fault, owner: CleanupScript)
    requires SingleLiveWidget(w)
    ensures SingleLiveWidget(DialogScript.CleanupModalAndMap(w, fault, owner))
  {
    CleanupKeeps(w, fault, owner);
    KeptBy(CleanupModalMapBy(w, fault, owner), DialogScript.CleanupModalAndMap(w, fault, owner));
  }

  /** The dialog's `htmx:afterSwap` and `shown.bs.modal` handlers create no
      map and change no reference. */
  lemma OpeningKeeps(w: Window, target: string)
    requires SingleLiveWidget(w)
    ensures SingleLiveWidget(DialogScript.AfterSwap(w, target))
    ensures SingleLiveWidget(DialogScript.ModalShown(w))
  {
    KeptBy(w, DialogScript.AfterSwap(w, target));
    KeptBy(w, DialogScript.ModalShown(w));
  }

  /** The dialog's `htmx:beforeSwap` handler keeps the rule. */
  lemma BeforeSwapKeeps(w: Window, target: string, response: string, fault: Fault, owner: CleanupScript)
    requires SingleLiveWidget(w)
    ensures SingleLiveWidget(DialogScript.BeforeSwap(w, target, response, fault, owner))
  {
    var d := DialogScript.DialogBeforeSwap(w, target, response, fault, owner);
    if target == "dialog" && response == "" {
      CleanupKeeps(w, fault, owner);
      KeptBy(CleanupModalMapBy(w, fault, owner), d);
    }
    KeptBy(d, DialogScript.BeforeSwap(w, target, response, fault, owner));
  }

  /** The `hidden.bs.modal` handlers keep the rule. */
  lemma HiddenKeeps(w: Window, fault: Fault, owner: CleanupScript)
    requires SingleLiveWidget(w)
    ensures SingleLiveWidget(DialogScript.ModalHidden(w, fault, owner))
  {
    if w.modalElement {
      var v := w.(modal := DialogScript.Hide(w.modal));
      KeptBy(w, v);
      CleanupTimesKeeps(v, w.delegatedHidden, fault, owner);
      var h := DialogScript.CleanupTimes(v, w.delegatedHidden, fault, owner);
      KeptBy(h, DialogScript.RunOnHidden(h, h.hiddenListeners));
    }
  }

  /** A step that may replace the referenced map keeps the rule when every
      other map is untouched, at most one map is added and it becomes the
      referenced one, and a reference that moves away leaves its old map
      removed. */
  lemma ReplacedBy(a: Window, b: Window)
    requires SingleLiveWidget(a)
    requires b.modalMap.Some? ==> b.modalMap.value < |b.maps|
    requires |a.maps| <= |b.maps| <= |a.maps| + 1
    requires forall i :: 0 <= i < |a.maps| && Some(i) != a.modalMap ==> b.maps[i] == a.maps[i]
    requires |b.maps| == |a.maps| + 1 ==> b.modalMap == Some(|a.maps|)
    requires a.modalMap.Some? && b.modalMap != a.modalMap ==> b.maps[a.modalMap.value].removed
    ensures SingleLiveWidget(b)
  {
    forall m: nat | m < |b.maps| && LiveWidget(b, m)
      ensures b.modalMap == Some(m)
    {
      if m < |a.maps| && Some(m) != a.modalMap {
        assert LiveWidget(a, m);
      }
    }
  }

  /** map.js's `initializeModalMap` keeps the rule for every outcome of the
      teardown: a throw escapes before anything is created, and a complete
      teardown removes the old map before the new one is made. */
  lemma MapJsInitializeKeeps(w: Window, c: nat, fault: Fault)
    requires c < |w.containers| && SingleLiveWidget(w)
    ensures SingleLiveWidget(MapScript.InitializeModalMap(w, c, fault).window)
  {
    MapScript.InitializeModalMapFrame(w, c, fault);
    ReplacedBy(w, MapScript.InitializeModalMap(w, c, fault).window);
  }

  /** modal_map.js's `initializeModalMap` keeps the rule when the teardown of
      the previous map completes, whichever `cleanupModalMap` it reaches. */
  lemma ModalMapJsInitializeKeeps(w: Window, c: nat, owner: CleanupScript)
    requires c < |w.containers| && SingleLiveWidget(w)
    ensures SingleLiveWidget(ModalMapScript.InitializeModalMap(w, Some(c), Completes, owner).window)
  {
    ModalMapScript.InitializeModalMapFrame(w, c, Completes, owner);
    ReplacedBy(w, ModalMapScript.InitializeModalMap(w, Some(c), Completes, owner).window);
  }

  /** As written, modal_map.js's `initializeModalMap` breaks the rule as soon
      as the teardown throws: the error is swallowed, the new picker is built
      anyway, and the old one stays live without being referenced. */
  lemma ModalMapJsInitializeBreaks(w: Window, c: nat, fault: Fault, owner: CleanupScript)
    requires c < |w.containers| && SingleLiveWidget(w)
    requires w.modalMap.Some? && LiveWidget(w, w.modalMap.value) && fault != Completes
    requires ById(w, "map").Some?
    ensures !SingleLiveWidget(ModalMapScript.InitializeModalMap(w, Some(c), fault, owner).window)
  {
    ModalMapScript.TeardownThrowLeavesTwoLiveMaps(w, c, fault, owner);
    ModalMapScript.InitializeModalMapFrame(w, c, fault, owner);
    var r := ModalMapScript.InitializeModalMap(w, Some(c), fault, owner).window;
    assert LiveWidget(r, w.modalMap.value);
  }

  /** The deferred callbacks keep the rule, except `initializeModalMap` from
      modal_map.js when a teardown throws. */
  lemma TimerKeeps(w: Window, t: Timer, loaded: Loaded, fault: Fault)
    requires SingleLiveWidget(w)
    requires !loaded.mapJsAfterModalMapJs ==> fault == Completes
    ensures SingleLiveWidget(RunTimer(w, t, loaded, fault))
  {
    match t
    case InitModalMap(c) =>
      if c < |w.containers| {
        if loaded.mapJsAfterModalMapJs {
          MapJsInitializeKeeps(w, c, fault);
        } else {
          ModalMapJsInitializeKeeps(w, c, loaded.cleanup);
        }
      }
    case InvalidateMainMap =>
      KeptBy(w, DialogScript.ResizeMainMap(w).window);
    case InvalidateModalMap =>
      KeptBy(w, ModalMapScript.ResizeModalMap(w));
    case InvalidateMap(m) =>
      KeptBy(w, Resize(w, m));
  }

  /** The user's edits of the coordinate fields and drags of the marker keep
      the rule. */
  lemma WidgetEventsKeep(w: Window, k: nat, at: LatLng)
    requires SingleLiveWidget(w) && k < |w.widgets|
    ensures SingleLiveWidget(MapScript.FieldInput(w, k))
    ensures SingleLiveWidget(MapScript.DragEnd(w, k, at))
  {
    KeptBy(w, MapScript.FieldInput(w, k));
    KeptBy(w, MapScript.DragEnd(w, k, at));
  }

  /** Destroy-before-create holds on every page that loads map.js after
      modal_map.js, whatever the Leaflet teardown calls do and whichever
      `cleanupModalMap` the page kept: every event keeps the rule. */
  lemma MapJsLastKeepsRule(w: Window, e: Event, fault: Fault, cleanup: CleanupScript)
    requires SingleLiveWidget(w)
    ensures SingleLiveWidget(Fire(w, e, Loaded(true, cleanup), fault))
  {
    FireKeeps(w, e, Loaded(true, cleanup), fault);
  }

  /** With modal_map.js loaded after map.js, every event keeps the rule as
      long as the teardown calls complete (`ModalMapJsInitializeBreaks` shows
      that a throwing one breaks it). */
  lemma ModalMapJsLastKeepsRule(w: Window, e: Event, cleanup: CleanupScript)
    requires SingleLiveWidget(w)
    ensures SingleLiveWidget(Fire(w, e, Loaded(false, cleanup), Completes))
  {
    FireKeeps(w, e, Loaded(false, cleanup), Completes);
  }

  lemma FireKeeps(w: Window, e: Event, loaded: Loaded, fault: Fault)
    requires SingleLiveWidget(w)
    requires !loaded.mapJsAfterModalMapJs ==> fault == Completes
    ensures SingleLiveWidget(Fire(w, e, loaded, fault))
  {
    match e
    case AfterSwap(target) => OpeningKeeps(w, target);
    case BeforeSwap(target, response) => BeforeSwapKeeps(w, target, response, fault, loaded.cleanup);
    case DialogContent(content) => DialogContentKeeps(w, content);
    case ModalShown => OpeningKeeps(w, "");
    case ModalHidden => HiddenKeeps(w, fault, loaded.cleanup);
    case TimerFires(i) => if i < |w.timers| { TimerFiresKeeps(w, i, loaded, fault); }
    case FieldTyped(k) => if k < |w.widgets| { WidgetEventsKeep(w, k, LatLng(0.0, 0.0)); }
    case MarkerDropped(k, at) => if k < |w.widgets| { WidgetEventsKeep(w, k, at); }
  }

  /** New markup in the dialog creates and removes no map. */
  lemma DialogContentKeeps(w: Window, content: seq<Container>)
    requires SingleLiveWidget(w)
    ensures SingleLiveWidget(SwapDialogContent(w, content))
  {
    KeptBy(w, SwapDialogContent(w, content));
  }

  /** A deferred callback taken off the queue and run keeps the rule. */
  lemma TimerFiresKeeps(w: Window, i: nat, loaded: Loaded, fault: Fault)
    requires SingleLiveWidget(w) && i < |w.timers|
    requires !loaded.mapJsAfterModalMapJs ==> fault == Completes
    ensures SingleLiveWidget(RunTimer(w.(timers := Without(w.timers, i)), w.timers[i], loaded, fault))
  {
    var v := w.(timers := Without(w.timers, i));
    KeptBy(w, v);
    TimerKeeps(v, w.timers[i], loaded, fault);
  }

  /** Any sequence of events on a page loading map.js last keeps the rule. */
  lemma {:induction false} MapJsLastKeepsRuleAlways(w: Window, events: seq<Event>, faults: seq<Fault>, cleanup: CleanupScript)
    requires SingleLiveWidget(w) && |faults| == |events|
    ensures SingleLiveWidget(FireAll(w, events, Loaded(true, cleanup), faults))
    decreases |events|
  {
    if events != [] {
      MapJsLastKeepsRule(w, events[0], faults[0], cleanup);
      MapJsLastKeepsRuleAlways(Fire(w, events[0], Loaded(true, cleanup), faults[0]), events[1..], faults[1..], cleanup);
    }
  }

  /** The page after `events`, the i-th handled with teardown outcome `faults[i]`. */
  function FireAll(w: Window, events: seq<Event>, loaded: Loaded, faults: seq<Fault>): Window
    requires |faults| == |events|
    decreases |events|
  {
    if events == [] then w else FireAll(Fire(w, events[0], loaded, faults[0]), events[1..], loaded, faults[1..])
  }

  /** The two cleanups clear different tags: when the page has another `#map`
      ahead of the dialog's, modal_map.js's cleanup clears that one and
      leaves the tag on the dialog's container, which dialog.js's cleanup
      clears. So with modal_map.js's declaration kept, closing the dialog
      leaves its container tagged. */
  lemma CleanupsClearDifferentTags(w: Window, fault: Fault)
    requires w.modalMap.None? && ModalMapContainer(w).Some?
    requires ById(w, "map") != ModalMapContainer(w)
    requires w.containers[ModalMapContainer(w).value].tagged
    ensures ModalMapScript.CleanupModalMap(w, fault).containers[ModalMapContainer(w).value].tagged
    ensures !DialogScript.CleanupModalMap(w, fault).containers[ModalMapContainer(w).value].tagged
  {
  }
}
