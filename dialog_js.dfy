/** static/js/dialog.js: the htmx and Bootstrap event handlers that open the
    `#modal` dialog, start its map once it is shown, tear map and dialog down
    when an empty response is swapped in or the dialog is hidden, and drive the
    `#offcanvasRight` panel. */
module DialogScript {
  import opened Wrappers
  import opened Dom

  /** `n` copies of timer `t`. */
  function Repeat(t: Timer, n: nat): (r: seq<Timer>)
    ensures |r| == n && forall i :: 0 <= i < n ==> r[i] == t
  {
    if n == 0 then [] else Repeat(t, n - 1) + [t]
  }

  /** The `htmx:afterSwap` handler for the dialog: on target `dialog`, the
      existing modal instance is reused or a new one made, it is shown, and a
      one-shot `shown.bs.modal` listener is added. Without a `#modal` element
      Bootstrap's `show()` throws before anything changed. */
  function DialogAfterSwap(w: Window, target: string): (r: Run)
    ensures target != "dialog" ==> r == Run(w, false)
    ensures target == "dialog" && !w.modalElement ==> r == Run(w, true)
    ensures target == "dialog" && w.modalElement ==>
      !r.threw && r.window.modal.Some? && r.window.modal.value.shown
      && r.window.shownListeners == w.shownListeners + 1
      && (w.modal.Some? ==> r.window.modal.value.id == w.modal.value.id && r.window.nextInstance == w.nextInstance)
      && (w.modal.None? ==> r.window.modal.value.id == w.nextInstance && r.window.nextInstance == w.nextInstance + 1)
      && r.window == w.(modal := r.window.modal, nextInstance := r.window.nextInstance, shownListeners := r.window.shownListeners)
  {
    if target != "dialog" then Run(w, false)
    else if !w.modalElement then Run(w, true)
    else
      var w1 := if w.modal.None? then w.(modal := Some(Instance(w.nextInstance, false)), nextInstance := w.nextInstance + 1) else w;
      Run(w1.(modal := Some(w1.modal.value.(shown := true)), shownListeners := w1.shownListeners + 1), false)
  }

  /** Bootstrap fires `shown.bs.modal`: every pending one-shot listener runs
      once and is dropped; each that finds a `#map` inside `#modal` schedules
      `initializeModalMap` for it. */
  function ModalShown(w: Window): (r: Window)
    ensures r.shownListeners == 0
    ensures ModalMapContainer(w).None? ==> r.timers == w.timers
    ensures ModalMapContainer(w).Some? ==> r.timers == w.timers + Repeat(InitModalMap(ModalMapContainer(w).value), w.shownListeners)
    ensures r == w.(shownListeners := 0, timers := r.timers)
  {
    var found := ModalMapContainer(w);
    var scheduled := if found.Some? then Repeat(InitModalMap(found.value), w.shownListeners) else [];
    w.(shownListeners := 0, timers := w.timers + scheduled)
  }

  /** dialog.js's `cleanupModalMap()`: the teardown runs inside `try`; the
      reference is nulled only when all three Leaflet calls complete, and an
      exception is caught and logged. Then the tag of the `#map` inside
      `#modal` is cleared. Nothing escapes. */
  function CleanupModalMap(w: Window, fault: Fault): (r: Window)
    ensures |r.maps| == |w.maps| && |r.containers| == |w.containers|
    ensures w.modalMap.None? ==> r == Untag(w, ModalMapContainer(w))
    ensures fault == Completes ==> r.modalMap.None?
    ensures w.modalMap.Some? && fault == Completes && w.modalMap.value < |w.maps| ==>
      r.maps[w.modalMap.value].removed && !r.maps[w.modalMap.value].listening && !r.maps[w.modalMap.value].tiles
    ensures fault != Completes ==> r.modalMap == w.modalMap
    ensures forall i :: 0 <= i < |w.maps| && Some(i) != w.modalMap ==> r.maps[i] == w.maps[i]
    ensures ModalMapContainer(w).Some? ==> !r.containers[ModalMapContainer(w).value].tagged
    ensures r == w.(maps := r.maps, markers := r.markers, modalMap := r.modalMap, containers := r.containers)
  {
    CleanupModalMapBy(w, fault, DialogJsCleanup)
  }

  /** `cleanupModalAndMap()`: first the modal map, through the global
      `cleanupModalMap` the page kept (that of `owner`), then, if there is a
      modal instance, `hide()` and a one-shot `hidden.bs.modal` listener. */
  function CleanupModalAndMap(w: Window, fault: Fault, owner: CleanupScript): (r: Window)
    ensures var c := CleanupModalMapBy(w, fault, owner);
      r.maps == c.maps && r.markers == c.markers && r.modalMap == c.modalMap && r.containers == c.containers
    ensures w.modalElement && w.modal.Some? ==>
      r.modal == Some(w.modal.value.(shown := false)) && r.hiddenListeners == w.hiddenListeners + 1
    ensures !(w.modalElement && w.modal.Some?) ==> r == CleanupModalMapBy(w, fault, owner)
    ensures r.mainPageMap == w.mainPageMap && r.timers == w.timers && r.widgets == w.widgets
  {
    var c := CleanupModalMapBy(w, fault, owner);
    if c.modalElement && c.modal.Some? then
      c.(modal := Some(c.modal.value.(shown := false)), hiddenListeners := c.hiddenListeners + 1)
    else c
  }

  /** The dialog's `htmx:beforeSwap` handler: only an empty response swapped
      into `dialog` tears down. */
  function DialogBeforeSwap(w: Window, target: string, response: string, fault: Fault, owner: CleanupScript): (r: Window)
    ensures target == "dialog" && response == "" ==> r == CleanupModalAndMap(w, fault, owner)
    ensures target != "dialog" || response != "" ==> r == w
  {
    if target == "dialog" && response == "" then CleanupModalAndMap(w, fault, owner) else w
  }

  /** The page-load statement `$(document).off('hidden.bs.modal', '#modal')
      .on('hidden.bs.modal', '#modal', ...)`: whatever was registered before,
      exactly one delegated handler remains. */
  function RegisterHiddenHandler(w: Window): (r: Window)
    ensures r.delegatedHidden == 1
    ensures r == w.(delegatedHidden := 1)
  {
    w.(delegatedHidden := 0).(delegatedHidden := 1)
  }

  /** Running the page-load registration again changes nothing. */
  lemma RegisterHiddenHandlerIdempotent(w: Window)
    ensures RegisterHiddenHandler(RegisterHiddenHandler(w)) == RegisterHiddenHandler(w)
  {
  }

  /** `cleanupModalAndMap()` run `n` times, once per delegated handler. */
  function CleanupTimes(w: Window, n: nat, fault: Fault, owner: CleanupScript): (r: Window)
    ensures |r.maps| == |w.maps|
    ensures r.modalElement == w.modalElement && r.mainPageMap == w.mainPageMap && r.timers == w.timers
    ensures w.modal.None? ==> r.modal.None? && r.hiddenListeners == w.hiddenListeners
    ensures w.modal.Some? && !w.modal.value.shown ==>
      r.modal == w.modal && r.hiddenListeners == w.hiddenListeners + (if w.modalElement then n else 0)
    ensures n > 0 && fault == Completes ==> r.modalMap.None?
    ensures n > 0 && fault == Completes && w.modalMap.Some? && w.modalMap.value < |w.maps| ==> r.maps[w.modalMap.value].removed
    ensures n == 0 || fault != Completes ==> r.modalMap == w.modalMap
    ensures w.modalMap.None? ==> r.maps == w.maps && r.modalMap.None?
  {
    if n == 0 then w else CleanupModalAndMap(CleanupTimes(w, n - 1, fault, owner), fault, owner)
  }

  /** The modal instance marked hidden, as it is once `hidden.bs.modal` fires. */
  function Hide(m: Option<Instance>): (r: Option<Instance>)
    ensures r.Some? <==> m.Some?
    ensures r.Some? ==> r.value.id == m.value.id && !r.value.shown
  {
    if m.Some? then Some(m.value.(shown := false)) else None
  }

  /** The `pending` native `onHidden` listeners run, in registration order:
      each removes itself, the first one disposes the modal instance, and each
      schedules a main-page resize if there is a main-page map. */
  function RunOnHidden(w: Window, pending: nat): (r: Window)
    requires pending <= w.hiddenListeners
    ensures r.hiddenListeners == w.hiddenListeners - pending
    ensures r.modal == if pending > 0 then None else w.modal
    ensures r.timers == w.timers + (if w.mainPageMap.Some? then Repeat(InvalidateMainMap, pending) else [])
    ensures r == w.(modal := r.modal, hiddenListeners := r.hiddenListeners, timers := r.timers)
  {
    var resizes := if w.mainPageMap.Some? then Repeat(InvalidateMainMap, pending) else [];
    w.(modal := if pending > 0 then None else w.modal, hiddenListeners := w.hiddenListeners - pending, timers := w.timers + resizes)
  }

  /** Bootstrap fires `hidden.bs.modal` on `#modal`. Bootstrap 5 triggers the
      jQuery event to completion before it dispatches the native one, so the
      delegated handlers run first, each a full `cleanupModalAndMap()` (whose
      `hide()` is now a no-op but which still adds an `onHidden` listener);
      the native dispatch that follows then runs every `onHidden` listener
      registered by then, those just added included. */
  function ModalHidden(w: Window, fault: Fault, owner: CleanupScript): (r: Window)
    ensures !w.modalElement ==> r == w
    ensures w.modalElement ==>
      var pending := w.hiddenListeners + (if w.modal.Some? then w.delegatedHidden else 0);
      |r.maps| == |w.maps| && r.mainPageMap == w.mainPageMap
      && r.hiddenListeners == 0
      && r.modal == (if pending > 0 then None else Hide(w.modal))
      && r.timers == w.timers + (if w.mainPageMap.Some? then Repeat(InvalidateMainMap, pending) else [])
    ensures w.modalElement && w.delegatedHidden > 0 && fault == Completes ==> r.modalMap.None?
    ensures w.modalElement && w.modalMap.None? ==> r.maps == w.maps && r.modalMap.None?
  {
    if !w.modalElement then w
    else
      var h := CleanupTimes(w.(modal := Hide(w.modal)), w.delegatedHidden, fault, owner);
      RunOnHidden(h, h.hiddenListeners)
  }

  /** The deferred main-page resize scheduled by `onHidden`: it reads
      `window.mainPageMap` when it fires, and throws if that is null. */
  function ResizeMainMap(w: Window): (r: Run)
    ensures w.mainPageMap.None? ==> r == Run(w, true)
    ensures w.mainPageMap.Some? ==> r == Run(Resize(w, w.mainPageMap.value), false)
  {
    match w.mainPageMap
    case None => Run(w, true)
    case Some(m) => Run(Resize(w, m), false)
  }

  /** The offcanvas `htmx:afterSwap` handler: on target `ofc-dialog` a new
      Offcanvas instance replaces any previous one and is shown. Without the
      `#offcanvasRight` element `show()` throws before anything changed. */
  function OffcanvasAfterSwap(w: Window, target: string): (r: Run)
    ensures target != "ofc-dialog" ==> r == Run(w, false)
    ensures target == "ofc-dialog" && !w.offcanvasElement ==> r == Run(w, true)
    ensures target == "ofc-dialog" && w.offcanvasElement ==>
      r == Run(w.(offcanvas := Some(Instance(w.nextInstance, true)), nextInstance := w.nextInstance + 1), false)
  {
    if target != "ofc-dialog" then Run(w, false)
    else if !w.offcanvasElement then Run(w, true)
    else Run(w.(offcanvas := Some(Instance(w.nextInstance, true)), nextInstance := w.nextInstance + 1), false)
  }

  /** The offcanvas `htmx:beforeSwap` handler: an empty response into
      `ofc-dialog` hides the panel, but only if the element and an instance
      exist. */
  function OffcanvasBeforeSwap(w: Window, target: string, response: string): (r: Window)
    ensures target == "ofc-dialog" && response == "" && w.offcanvasElement && w.offcanvas.Some? ==>
      r == w.(offcanvas := Some(w.offcanvas.value.(shown := false)))
    ensures !(target == "ofc-dialog" && response == "" && w.offcanvasElement && w.offcanvas.Some?) ==> r == w
  {
    if target == "ofc-dialog" && response == "" && w.offcanvasElement && w.offcanvas.Some? then
      w.(offcanvas := Some(w.offcanvas.value.(shown := false)))
    else w
  }

  /** `htmx:afterSwap`: both listeners run, the dialog's first; an exception in
      one does not stop the other. */
  function AfterSwap(w: Window, target: string): (r: Window)
    ensures target != "dialog" && target != "ofc-dialog" ==> r == w
    ensures target == "dialog" ==> r == DialogAfterSwap(w, target).window
    ensures target == "ofc-dialog" ==> r == OffcanvasAfterSwap(w, target).window
  {
    OffcanvasAfterSwap(DialogAfterSwap(w, target).window, target).window
  }

  /** `htmx:beforeSwap`: both listeners run, the dialog's first. */
  function BeforeSwap(w: Window, target: string, response: string, fault: Fault, owner: CleanupScript): (r: Window)
    ensures response != "" ==> r == w
    ensures target == "dialog" && response == "" ==> r == CleanupModalAndMap(w, fault, owner)
  {
    OffcanvasBeforeSwap(DialogBeforeSwap(w, target, response, fault, owner), target, response)
  }

  /** One swap into `dialog` arms exactly one `shown.bs.modal` listener: the
      first shown event schedules `initializeModalMap` once, for the `#map`
      inside `#modal`, if there is one; a second shown event schedules
      nothing more. */
  lemma ShownOncePerSwap(w: Window)
    requires w.modalElement && w.shownListeners == 0
    ensures var s := ModalShown(DialogAfterSwap(w, "dialog").window);
      s.timers == w.timers + (if ModalMapContainer(w).Some? then [InitModalMap(ModalMapContainer(w).value)] else [])
      && ModalShown(s) == s
  {
    var a := DialogAfterSwap(w, "dialog").window;
    assert ModalMapContainer(a) == ModalMapContainer(w);
    assert a.shownListeners == 1;
    var s := ModalShown(a);
    assert s.timers + [] == s.timers;
  }

  /** Closing an open dialog whose map tears down cleanly: the empty swap
      into `dialog` and the `hidden.bs.modal` event that follows leave no
      modal map referenced, the old map destroyed, the modal instance
      disposed and no `onHidden` listener pending. The `onHidden` added by
      the swap and the one the delegated handler adds during the event both
      run, so the main-page map is resized twice. Whichever script's
      `cleanupModalMap` the page kept, the outcome is the same. */
  lemma CloseDialog(w: Window, owner: CleanupScript)
    requires w.modalElement && w.modal.Some? && w.modal.value.shown
    requires w.modalMap.Some? && w.modalMap.value < |w.maps|
    requires w.delegatedHidden == 1 && w.hiddenListeners == 0
    ensures var r := ModalHidden(DialogBeforeSwap(w, "dialog", "", Completes, owner), Completes, owner);
      r.modalMap.None? && r.maps[w.modalMap.value].removed && r.modal.None? && r.hiddenListeners == 0
      && r.timers == w.timers + (if w.mainPageMap.Some? then [InvalidateMainMap, InvalidateMainMap] else [])
  {
    var b := DialogBeforeSwap(w, "dialog", "", Completes, owner);
    assert b.hiddenListeners == 1 && b.modalMap.None? && b.maps[w.modalMap.value].removed;
    assert b.modalElement && b.modal.Some?;
    assert Repeat(InvalidateMainMap, 2) == [InvalidateMainMap, InvalidateMainMap];
  }

  /** Opening the dialog again after a close makes a new modal instance:
      the one the close disposed is not reused. */
  lemma ReopenAfterClose(w: Window, owner: CleanupScript)
    requires w.modalElement && w.modal.Some? && w.modal.value.shown
    requires w.modalMap.Some? && w.modalMap.value < |w.maps|
    requires w.delegatedHidden == 1 && w.hiddenListeners == 0
    ensures var c := ModalHidden(DialogBeforeSwap(w, "dialog", "", Completes, owner), Completes, owner);
      var o := DialogAfterSwap(c, "dialog").window;
      o.modal.Some? && o.modal.value.shown && o.modal.value.id == c.nextInstance && o.nextInstance == c.nextInstance + 1
  {
    CloseDialog(w, owner);
  }

  /** Methods on a live page with the effect of the functions above. */

  method DialogAfterSwapOn(p: Page, target: string) returns (threw: bool)
    modifies p
    ensures p.State() == DialogAfterSwap(old(p.State()), target).window
    ensures threw == DialogAfterSwap(old(p.State()), target).threw
  {
    if target != "dialog" {
      return false;
    }
    if !p.modalElement {
      return true;
    }
    if p.modal.None? {
      p.modal := Some(Instance(p.nextInstance, false));
      p.nextInstance := p.nextInstance + 1;
    }
    p.modal := Some(p.modal.value.(shown := true));
    p.shownListeners := p.shownListeners + 1;
    return false;
  }

  method ModalShownOn(p: Page)
    modifies p
    ensures p.State() == ModalShown(old(p.State()))
  {
    var found := if p.modalElement then FirstMatch(p.containers, "map", true) else None;
    var n := p.shownListeners;
    p.shownListeners := 0;
    if found.Some? {
      var i := 0;
      ghost var t0 := p.timers;
      while i < n
        invariant 0 <= i <= n
        invariant p.timers == t0 + Repeat(InitModalMap(found.value), i)
        invariant p.State() == old(p.State()).(shownListeners := 0, timers := p.timers)
      {
        p.timers := p.timers + [InitModalMap(found.value)];
        i := i + 1;
      }
    }
  }

  method CleanupModalAndMapOn(p: Page, fault: Fault, owner: CleanupScript)
    modifies p
    ensures p.State() == CleanupModalAndMap(old(p.State()), fault, owner)
  {
    p.CleanupModalMap(fault, owner);
    if p.modalElement && p.modal.Some? {
      p.modal := Some(p.modal.value.(shown := false));
      p.hiddenListeners := p.hiddenListeners + 1;
    }
  }

  method DialogBeforeSwapOn(p: Page, target: string, response: string, fault: Fault, owner: CleanupScript)
    modifies p
    ensures p.State() == DialogBeforeSwap(old(p.State()), target, response, fault, owner)
  {
    if target == "dialog" && response == "" {
      CleanupModalAndMapOn(p, fault, owner);
    }
  }

  method RegisterHiddenHandlerOn(p: Page)
    modifies p
    ensures p.State() == RegisterHiddenHandler(old(p.State()))
  {
    p.delegatedHidden := 0;
    p.delegatedHidden := 1;
  }

  lemma CleanupTimesStep(w: Window, i: nat, fault: Fault, owner: CleanupScript)
    ensures CleanupTimes(w, i + 1, fault, owner) == CleanupModalAndMap(CleanupTimes(w, i, fault, owner), fault, owner)
  {
  }

  method CleanupTimesOn(p: Page, n: nat, fault: Fault, owner: CleanupScript)
    modifies p
    ensures p.State() == CleanupTimes(old(p.State()), n, fault, owner)
  {
    ghost var start := p.State();
    var i := 0;
    while i < n
      invariant 0 <= i <= n
      invariant p.State() == CleanupTimes(start, i, fault, owner)
    {
      CleanupModalAndMapOn(p, fault, owner);
      CleanupTimesStep(start, i, fault, owner);
      i := i + 1;
    }
  }

  method RunOnHiddenOn(p: Page, pending: nat)
    requires pending <= p.hiddenListeners
    modifies p
    ensures p.State() == RunOnHidden(old(p.State()), pending)
  {
    if pending > 0 {
      p.modal := None;
    }
    p.hiddenListeners := p.hiddenListeners - pending;
    if p.mainPageMap.Some? {
      p.timers := p.timers + Repeat(InvalidateMainMap, pending);
    }
  }

  method ModalHiddenOn(p: Page, fault: Fault, owner: CleanupScript)
    modifies p
    ensures p.State() == ModalHidden(old(p.State()), fault, owner)
  {
    if !p.modalElement {
      return;
    }
    p.modal := Hide(p.modal);
    CleanupTimesOn(p, p.delegatedHidden, fault, owner);
    RunOnHiddenOn(p, p.hiddenListeners);
  }

  method OffcanvasAfterSwapOn(p: Page, target: string) returns (threw: bool)
    modifies p
    ensures p.State() == OffcanvasAfterSwap(old(p.State()), target).window
    ensures threw == OffcanvasAfterSwap(old(p.State()), target).threw
  {
    if target != "ofc-dialog" {
      return false;
    }
    if !p.offcanvasElement {
      return true;
    }
    p.offcanvas := Some(Instance(p.nextInstance, true));
    p.nextInstance := p.nextInstance + 1;
    return false;
  }

  method OffcanvasBeforeSwapOn(p: Page, target: string, response: string)
    modifies p
    ensures p.State() == OffcanvasBeforeSwap(old(p.State()), target, response)
  {
    if target == "ofc-dialog" && response == "" && p.offcanvasElement && p.offcanvas.Some? {
      p.offcanvas := Some(p.offcanvas.value.(shown := false));
    }
  }
}
