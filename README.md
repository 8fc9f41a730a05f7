# watersync core, modelled in Dafny

watersync is a Django application for managing water-monitoring projects. Its
records cover locations, sensors and their deployments, groundwater level
measurements, and water-quality sampling. The pages add a little JavaScript
for maps and dialogs. This project models the parts of it that decide
something, and proves what they promise:

- **The modal and map lifecycle in the browser** (`dialog.js`, `map.js`,
  `modal_map.js`). The page is a value (`Dom.Window`) with:
  - the Leaflet maps, each live or removed;
  - the references `window.modalMap` and `window.mainPageMap`;
  - the map containers with their stale `_leaflet_id` tag;
  - the Bootstrap modal and offcanvas instances;
  - the pending listeners and the deferred callbacks.

  Every handler is a function on that value, plus a method on a `Dom.Page`
  object proved to have the same effect. `Lifecycle` joins the files.
  map.js and modal_map.js both declare a global `initializeModalMap`, and
  dialog.js and modal_map.js both a global `cleanupModalMap`. A page keeps
  the declaration of the script it loads last, so the load order is a
  parameter. `Lifecycle` proves that destroy-before-create (at most one
  live coordinate picker, the one `window.modalMap` names) survives every
  event when map.js is loaded last, whichever `cleanupModalMap` the page
  kept. When modal_map.js is loaded last, a throwing teardown breaks it.
- **The text codecs**:
  - the CSV text that `project.js` builds, and its child-clearing loop;
  - the editor that `project.js` resets, and its submit-time serialisation;
  - the bulk measurement parser of `waterquality/forms.py`.
- **Domain rules in the models**:
  - deploying and decommissioning a sensor, and finding the deployment
    covering a moment;
  - the groundwater elevation from the first top-of-casing entry;
  - slugs assigned once, and the names of sampling events and samples;
  - the two latitude/longitude-to-point rules;
  - the rule that the requesting user ends up among a project's users.
- **The generic view decision layer** of `core`:
  - URL-name conventions and the `<model>_pk` placeholder;
  - the template and layout chosen from headers and path;
  - the detail-link dispatch on `detail_type`;
  - the redirect decision after a delete, and the HTMX response headers;
  - which initial, project, location and user fields a form gets;
  - the detail sub-form's selection and validity;
  - the pairing of history records;
  - the CSV export's rows;
  - the context processors, including the docstring split;
  - the field/label pairs models show.

Django, Leaflet, Bootstrap and the browser are not modelled. What their
calls return comes in as parameters:
- URL reversal, `slugify`, `timezone.now()`, `history.as_of`;
- the detail forms' own validation and cleaning;
- `encodeURI`, `JSON.stringify`.

Object lookups are sets of stored primary keys, and a database save is a
counter. Whether a Leaflet teardown call throws is a `Fault` parameter.
Coordinates and measurement values are `real`. JavaScript's `parseFloat` and
`toFixed(6)`, and Python's `float()`, are written out on decimal text
(`Decimal`).

The two `cleanupModalMap` functions (dialog.js:27-48, modal_map.js:29-49)
set `window.modalMap = null` as the last statement inside the `try`. A
teardown that throws therefore leaves the reference set, naming a map that
may be half torn down; only a teardown that completes clears it
(`DialogScript.CleanupModalMap`, `ModalMapScript.CleanupModalMap`,
`Dom.CleanupModalMapBy`). The model keeps this reading, so no lemma promises
that the reference is gone after a cleanup whose teardown threw.

## Model

| member | source | states |
|---|---|---|
| Dom.FirstMatch | watersync/static/js/map.js:4 | the first attached container with the id, in document order, optionally only inside `#modal`; `None` when there is none |
| Dom.Teardown | watersync/static/js/dialog.js:32-36 | `eachLayer(removeLayer)`, `off()`, `remove()` in order, stopping at the call that throws: a complete teardown leaves the map removed, without layers or listeners; no other map changes |
| Dom.RemoveEffect | watersync/static/js/dialog.js:36 | `map.remove()`: that map is marked removed and no other changes; Leaflet deletes the `_leaflet_id` of its container and touches no other container |
| Dom.UntagKeepsQueries | watersync/static/js/dialog.js:44-47 | clearing a `_leaflet_id` tag changes the answer of no container query |
| Dom.TeardownKeepsQueries | watersync/static/js/dialog.js:32-36 | the three teardown calls change the answer of no container query |
| Dom.TornModalMap | watersync/static/js/dialog.js:29-41 | the `try` block: without a modal map nothing changes; the container each script queries afterwards is the one it would have found before |
| Dom.CleanupModalMapBy | watersync/static/js/dialog.js:27-48 | `cleanupModalMap()` as either script declares it: the reference is cleared only when all three calls complete, and then the map is removed without layers or listeners; no other map changes; the container that script queries (`#modal #map` for dialog.js, the first `#map` for modal_map.js) loses its tag; nothing escapes |
| Dom.CleanupKeepsQueries | watersync/static/js/modal_map.js:29-49 | the cleanup changes the answer of no container query |
| Dom.Page.CleanupModalMap | watersync/static/js/modal_map.js:29-49 | on a live page, the effect of `CleanupModalMapBy` for the script whose declaration the page kept |
| Dom.Page.TeardownModalMap | watersync/static/js/dialog.js:29-41 | on a live page, the effect of `TornModalMap` |
| Dom.Page.TeardownMap | watersync/static/js/modal_map.js:33-37 | the three teardown calls on a live page have exactly the effect of `Teardown` |
| Dom.Page.DetachMarkers | watersync/static/js/modal_map.js:33 | the `eachLayer(removeLayer)` loop takes every marker on the map off it and changes nothing else |
| MapScript.InitializeMap | watersync/static/js/map.js:2-36 | no container: `null` and the page unchanged; otherwise one new live map in the first container with that id, centred and zoomed as asked, its stale tag cleared, and `mainPageMap` set exactly when the id is not "map"; never throws |
| MapScript.CoordinateOr | watersync/static/js/map.js:48-49 | `parseFloat(text) \|\| fallback`: the parsed number unless it is NaN or zero, then the fallback |
| MapScript.CustomLeafletWidget | watersync/static/js/map.js:84-128 | without `#map` it throws with nothing changed; otherwise one new map at zoom 13, a draggable marker at the start point, both fields set to `toFixed(6)` of the start point only when both exist, and a deferred resize; the references are untouched |
| MapScript.WidgetAddsOneMap | watersync/static/js/map.js:85 | the widget appends exactly one live map and changes no existing one |
| MapScript.InitializeModalMap | watersync/static/js/map.js:39-54 | the old modal map is torn down without `try`: a throwing call escapes with `modalMap` unchanged and nothing created; otherwise the old map is removed before the new picker is made and becomes `modalMap` |
| MapScript.InitializeModalMapFrame | watersync/static/js/map.js:39-54 | maps other than the referenced one are untouched, and at most one new live picker is added |
| MapScript.ModalWidget | watersync/static/js/map.js:48-53 | the picker built from the container's `data-` attributes becomes `modalMap` unless building it threw, in which case `modalMap` is unchanged; the maps before it are kept and the new one is a live `#map` picker |
| MapScript.FieldInput | watersync/static/js/map.js:107-116 | `updateMarker`: when both fields parse, the marker moves there and the map recentres; otherwise the page is unchanged |
| Decimal.ParseFloat | watersync/static/js/map.js:108-111 | NaN exactly when no numeric prefix follows the leading whitespace |
| Decimal.ToFixed6 | watersync/static/js/map.js:95-96 | digits, a point and exactly six fraction digits |
| Decimal.ParseToFixed6 | watersync/static/js/map.js:95-108 | `parseFloat` of `toFixed(6)` is the number rounded to millionths |
| MapScript.DragEnd | watersync/static/js/map.js:89-98 | after a drop, the marker is where it was dropped, and both fields get `toFixed(6)` of it only when both fields exist; nothing else changes |
| MapScript.DragThenInput | watersync/static/js/map.js:89-116 | dropping and then typing moves the marker to the drop point rounded to millionths |
| MapScript.WidgetFieldsShowStart | watersync/static/js/map.js:103-105 | the fields of a new widget parse back to its start point rounded to millionths |
| MapScript.ReadBackFixed6 | watersync/static/js/map.js:104-108 | a field holding `toFixed(6)` of a number parses back as that number rounded to millionths |
| MapScript.Extend | watersync/static/js/map.js:65 | `bounds.extend`: the new bounds contain the point and the old bounds |
| MapScript.LocationMarkers | watersync/static/js/map.js:61-66 | one marker per location, in order, at its coordinates with a popup of its name |
| MapScript.BoundsContainAll | watersync/static/js/map.js:59-71 | the bounds are valid exactly when there is a location, and they contain every location |
| MapScript.PlotLocationsEffect | watersync/static/js/map.js:58-72 | `plotLocations` adds exactly the markers of the locations, fits the map to their bounds when there is one, and changes nothing else |
| MapScript.InitializeMapOn | watersync/static/js/map.js:2-36 | on a live page, the effect and result of `InitializeMap` |
| MapScript.CustomLeafletWidgetOn | watersync/static/js/map.js:84-128 | on a live page, the effect of `CustomLeafletWidget` |
| MapScript.AttachWidgetOn | watersync/static/js/map.js:87-125 | on a live page, the marker, listeners, field values and resize that the widget adds to an existing map |
| MapScript.InitializeModalMapOn | watersync/static/js/map.js:39-54 | on a live page, the effect of `InitializeModalMap`, throwing exactly when it does |
| MapScript.ModalWidgetOn | watersync/static/js/map.js:48-53 | on a live page, the effect of `ModalWidget`, throwing exactly when it does |
| MapScript.PlotLocationsOn | watersync/static/js/map.js:58-72 | the `forEach` loop has the effect of `PlotLocations` |
| ModalMapScript.CleanupModalMap | watersync/static/js/modal_map.js:29-49 | teardown inside `try`: the reference is cleared only when all three calls complete; the first `#map` of the document loses its tag; no other map changes and nothing escapes |
| ModalMapScript.InitializeModalMap | watersync/static/js/modal_map.js:2-26 | a missing container changes nothing; otherwise cleanup, then the picker from the container's `data-` attributes becomes `modalMap` and a resize is scheduled |
| ModalMapScript.ResizeModalMap | watersync/static/js/modal_map.js:21-25 | the deferred resize acts only if `modalMap` is still set when it fires |
| ModalMapScript.NoContainerNoChange | watersync/static/js/modal_map.js:3 | without a container the page, `modalMap` included, is unchanged |
| ModalMapScript.CleanupWithoutMap | watersync/static/js/modal_map.js:30-48 | with no modal map, cleanup only clears the first `#map`'s tag |
| ModalMapScript.ReplaceWhenTeardownCompletes | watersync/static/js/modal_map.js:5-18 | with a complete teardown the old map is removed and only the new one is referenced |
| ModalMapScript.TeardownThrowLeavesTwoLiveMaps | watersync/static/js/modal_map.js:31-41 | a throwing teardown is swallowed, so the old map stays live beside the new one, no longer referenced |
| ModalMapScript.InitializeModalMapFrame | watersync/static/js/modal_map.js:2-26 | other maps untouched, at most one new live picker, and a complete teardown removes the old map even if building the new one throws |
| ModalMapScript.InitializeModalMapOn | watersync/static/js/modal_map.js:2-26 | on a live page, the effect of `InitializeModalMap` |
| ModalMapScript.BuildModalMapOn | watersync/static/js/modal_map.js:10-25 | on a live page, the widget built and stored after the cleanup |
| ModalMapScript.BuildAddsOneMap | watersync/static/js/modal_map.js:10-18 | building throws exactly when there is no `#map`, and then changes nothing; otherwise the maps before are kept and one live `#map` picker is appended |
| ModalMapScript.ResizeModalMapOn | watersync/static/js/modal_map.js:21-25 | on a live page, the effect of `ResizeModalMap` |
| DialogScript.DialogAfterSwap | watersync/static/js/dialog.js:2-25 | on target `dialog`: the existing modal instance is reused or a new one is made, it is shown, and one `shown.bs.modal` listener is added; any other target changes nothing; without `#modal` it throws with nothing changed |
| DialogScript.ModalShown | watersync/static/js/dialog.js:15-23 | every pending one-shot listener runs once and is dropped, each scheduling `initializeModalMap` for the dialog's `#map` if there is one |
| DialogScript.CleanupModalMap | watersync/static/js/dialog.js:27-48 | the reference is cleared only when all three teardown calls complete, otherwise it stays; the `#map` inside `#modal` loses its tag; no other map changes |
| DialogScript.CleanupModalAndMap | watersync/static/js/dialog.js:50-81 | the modal map cleanup, then, for an existing instance, `hide()` and one more `hidden.bs.modal` listener |
| DialogScript.DialogBeforeSwap | watersync/static/js/dialog.js:85-89 | only an empty response into `dialog` tears down |
| DialogScript.RegisterHiddenHandler | watersync/static/js/dialog.js:92-94 | exactly one delegated hidden handler remains, whatever was registered before |
| DialogScript.RegisterHiddenHandlerIdempotent | watersync/static/js/dialog.js:91-94 | registering twice is registering once |
| DialogScript.CleanupTimes | watersync/static/js/dialog.js:92-94 | the delegated handler run n times: map sizes and the main map kept, the modal map cleared after a complete teardown |
| DialogScript.Hide | watersync/static/js/dialog.js:60 | the same instance, marked hidden |
| DialogScript.RunOnHidden | watersync/static/js/dialog.js:62-75 | each pending `onHidden` removes itself; the first disposes the instance; each schedules a main-map resize when there is a main map |
| DialogScript.ModalHidden | watersync/static/js/dialog.js:62-94 | `hidden.bs.modal`: the delegated jQuery handlers run first, each adding an `onHidden`; the native dispatch then runs every `onHidden` registered by then, the new ones included, and none is left pending; the instance is disposed exactly when one ran, each scheduling a main-map resize; the modal map is cleared after a complete teardown |
| DialogScript.ResizeMainMap | watersync/static/js/dialog.js:70-74 | the deferred resize reads `mainPageMap` when it fires and throws if it is null |
| DialogScript.OffcanvasAfterSwap | watersync/static/js/dialog.js:102-108 | on `ofc-dialog` a new shown offcanvas instance replaces any other; without the element it throws with nothing changed |
| DialogScript.OffcanvasBeforeSwap | watersync/static/js/dialog.js:110-120 | an empty response into `ofc-dialog` hides an existing instance; otherwise nothing |
| DialogScript.AfterSwap | watersync/static/js/dialog.js:2-108 | both after-swap listeners run; the target selects which one acts |
| DialogScript.BeforeSwap | watersync/static/js/dialog.js:85-120 | both before-swap listeners run; a non-empty response changes nothing |
| DialogScript.ShownOncePerSwap | watersync/static/js/dialog.js:15-23 | one swap schedules `initializeModalMap` at most once; a second shown event schedules nothing |
| DialogScript.CloseDialog | watersync/static/js/dialog.js:50-94 | an empty swap and the hidden event leave no modal map referenced, the old map removed, the instance disposed and no `onHidden` pending, with two main-map resizes scheduled, whichever `cleanupModalMap` the page kept |
| DialogScript.ReopenAfterClose | watersync/static/js/dialog.js:2-67 | opening the dialog after a close makes a new shown instance, not the disposed one |
| DialogScript.DialogAfterSwapOn | watersync/static/js/dialog.js:2-25 | on a live page, the effect of `DialogAfterSwap` |
| DialogScript.ModalShownOn | watersync/static/js/dialog.js:15-23 | on a live page, the effect of `ModalShown` |
| DialogScript.CleanupModalAndMapOn | watersync/static/js/dialog.js:50-81 | on a live page, the effect of `CleanupModalAndMap` |
| DialogScript.DialogBeforeSwapOn | watersync/static/js/dialog.js:85-89 | on a live page, the effect of `DialogBeforeSwap` |
| DialogScript.RegisterHiddenHandlerOn | watersync/static/js/dialog.js:92-94 | on a live page, the effect of `RegisterHiddenHandler` |
| DialogScript.CleanupTimesOn | watersync/static/js/dialog.js:92-94 | the loop over delegated handlers has the effect of `CleanupTimes` |
| DialogScript.RunOnHiddenOn | watersync/static/js/dialog.js:62-75 | the loop over pending listeners has the effect of `RunOnHidden` |
| DialogScript.ModalHiddenOn | watersync/static/js/dialog.js:62-94 | on a live page, the effect of `ModalHidden` |
| DialogScript.OffcanvasAfterSwapOn | watersync/static/js/dialog.js:102-108 | on a live page, the effect of `OffcanvasAfterSwap` |
| DialogScript.OffcanvasBeforeSwapOn | watersync/static/js/dialog.js:110-120 | on a live page, the effect of `OffcanvasBeforeSwap` |
| Lifecycle.FreshPage | watersync/static/js/dialog.js:27-48 | a page with no maps keeps destroy-before-create |
| Lifecycle.SwapDialogContent | watersync/static/js/dialog.js:2-3 | the swap detaches the containers that were in the dialog and appends the new ones inside it; nothing else changes |
| Lifecycle.DialogContentKeeps | watersync/static/js/dialog.js:2-3 | new markup swapped into the dialog creates and removes no map, so it keeps the rule |
| Lifecycle.KeptBy | watersync/static/js/dialog.js:62-94 | a step that keeps the reference and every map's liveness keeps the rule |
| Lifecycle.ReplacedBy | watersync/static/js/map.js:39-54 | a step that removes the referenced map before adding at most one new referenced map keeps the rule |
| Lifecycle.CleanupKeeps | watersync/static/js/dialog.js:27-48 | either script's `cleanupModalMap` keeps the rule whether or not the teardown throws |
| Lifecycle.CleanupTimesKeeps | watersync/static/js/dialog.js:92-94 | any number of delegated cleanups keep the rule |
| Lifecycle.CleanupModalAndMapKeeps | watersync/static/js/dialog.js:50-70 | one run of the dialog's `cleanupModalAndMap()` keeps the rule |
| Lifecycle.OpeningKeeps | watersync/static/js/dialog.js:2-25 | the opening handlers keep the rule |
| Lifecycle.BeforeSwapKeeps | watersync/static/js/dialog.js:85-89 | the before-swap handlers keep the rule |
| Lifecycle.HiddenKeeps | watersync/static/js/dialog.js:62-94 | the hidden handlers keep the rule |
| Lifecycle.MapJsInitializeKeeps | watersync/static/js/map.js:39-54 | map.js's `initializeModalMap` keeps the rule for every teardown outcome |
| Lifecycle.ModalMapJsInitializeKeeps | watersync/static/js/modal_map.js:2-26 | modal_map.js's `initializeModalMap` keeps the rule when the teardown completes |
| Lifecycle.ModalMapJsInitializeBreaks | watersync/static/js/modal_map.js:29-41 | with a throwing teardown it leaves a live picker that `modalMap` does not name |
| Lifecycle.TimerKeeps | watersync/static/js/dialog.js:19-21 | deferred callbacks keep the rule, except modal_map.js's initialisation after a throwing teardown |
| Lifecycle.TimerFiresKeeps | watersync/static/js/dialog.js:19-21 | a deferred callback taken off the queue and run keeps the rule, for the load orders `TimerKeeps` allows |
| Lifecycle.WidgetEventsKeep | watersync/static/js/map.js:89-119 | typing into the fields and dragging the marker keep the rule |
| Lifecycle.MapJsLastKeepsRule | watersync/static/js/map.js:39-54 | with map.js loaded last, every event keeps the rule whatever the teardown does and whichever `cleanupModalMap` the page kept |
| Lifecycle.ModalMapJsLastKeepsRule | watersync/static/js/modal_map.js:2-49 | with modal_map.js loaded last, every event keeps the rule when teardowns complete |
| Lifecycle.FireKeeps | watersync/static/js/dialog.js:2-94 | every event keeps the rule, for either load order, except the case `ModalMapJsInitializeBreaks` shows |
| Lifecycle.MapJsLastKeepsRuleAlways | watersync/static/js/map.js:39-54 | any sequence of events keeps the rule when map.js is loaded last |
| Lifecycle.CleanupsClearDifferentTags | watersync/static/js/modal_map.js:45-48 | modal_map.js's cleanup clears the first `#map` of the page, dialog.js's the one inside `#modal` |
| ProjectScript.BuildCsv | watersync/static/js/project.js:46-61 | the loop's string is the prefix, the header line and one line per record |
| ProjectScript.HeaderLine | watersync/static/js/project.js:46-50 | the header joins to `timestamp,value,type,unit` after the data-URI prefix |
| ProjectScript.AppendRow | watersync/static/js/project.js:53-60 | one `forEach` step appends the record's comma-joined cells and a line end |
| ProjectScript.RowsAsJoin | watersync/static/js/project.js:53-61 | the rows are the record lines joined with line ends, an empty piece last |
| ProjectScript.FirstLineFree | watersync/static/js/project.js:46-50 | the first line holds no line end |
| ProjectScript.CsvStartsWithHeader | watersync/static/js/project.js:46-50 | the content starts with the data-URI prefix and `timestamp,value,type,unit`, and is only that for no data |
| ProjectScript.CsvLines | watersync/static/js/project.js:50-61 | split at line ends, the content is the header, then one line per record in order, then an empty piece |
| ProjectScript.CsvLineCount | watersync/static/js/project.js:50-61 | one line end per record plus the header's |
| ProjectScript.LineFields | watersync/static/js/project.js:54-60 | a row splits back at commas into its four fields when no field holds a comma |
| Text.JoinSplit | watersync/static/js/project.js:50-60 | joining the pieces of a split gives the text back |
| Text.SplitJoin | watersync/static/js/project.js:50-60 | splitting a join of separator-free pieces gives the pieces back |
| ProjectScript.RowsAppend | watersync/static/js/project.js:53-61 | appending a record appends its line |
| ProjectScript.Element.AppendChild | watersync/static/js/project.js:68 | the node ends up last among the children, taken from where it was |
| ProjectScript.Element.RemoveChild | watersync/static/js/project.js:74 | throws exactly for a node that is not a child; otherwise removes it |
| ProjectScript.RemoveNode | watersync/static/js/project.js:74 | the children without the node, all others kept; shorter exactly when it was a child |
| ProjectScript.FreshNode | watersync/static/js/project.js:65 | a created element is not among the existing nodes |
| ProjectScript.AppendThenRemove | watersync/static/js/project.js:68-74 | appending a new node and removing it restores the children |
| ProjectScript.DownloadClick | watersync/static/js/project.js:44-75 | the link carries the encoded content and the file name, and the body's children are as before |
| ProjectScript.ClearChildren | watersync/static/js/project.js:30-33 | the `while` loop leaves no children; a missing element throws |
| ProjectScript.EditorForm.SchemaLoaded | watersync/static/js/project.js:5-25 | the new editor starts at the initial data and adds one submit listener for itself |
| ProjectScript.EditorForm.Edit | watersync/static/js/project.js:19 | editing changes that editor's value only |
| ProjectScript.EditorForm.Submit | watersync/static/js/project.js:22-24 | the listeners run in order, so the hidden field holds the last-added editor's value |
| ProjectScript.ReinitializeJsonEditor | watersync/static/js/project.js:28-37 | the element is emptied before the new editor arrives |
| ProjectScript.ReinitializeThenSubmit | watersync/static/js/project.js:28-37 | reinitialising and then submitting writes the new data, and the element holds only the new editor |
| BulkForm.ParseLineCases | watersync/waterquality/forms.py:71-90 | a line without exactly 4 fields, a value `float()` refuses, or the stripped row |
| BulkForm.ParseLine | watersync/waterquality/forms.py:71-81 | a row exactly for four fields whose value `float()` accepts, holding that number; the field-count error for any other count |
| BulkForm.CleanLines | watersync/waterquality/forms.py:65-90 | on success one row per non-blank line; a failure is the error of some non-blank line |
| Decimal.PyFloat | watersync/waterquality/forms.py:77-81 | a number only for text that is non-blank once stripped and wholly numeric; `ValueError` otherwise |
| Text.PyStrip | watersync/waterquality/forms.py:68 | no whitespace at either end, and empty exactly for all-whitespace text |
| Text.SplitLines | watersync/waterquality/forms.py:66 | no lines exactly for the empty text |
| BulkForm.BlankIsStrippedEmpty | watersync/waterquality/forms.py:68 | a line is blank exactly when stripping leaves nothing |
| BulkForm.NonBlank | watersync/waterquality/forms.py:67-69 | the non-blank lines, in order |
| BulkForm.CleanData | watersync/waterquality/forms.py:60-92 | input that is not text is returned unchanged; text succeeds or fails exactly as its lines do |
| BulkForm.CleanDataLoop | watersync/waterquality/forms.py:60-92 | the loop computes `CleanData` |
| BulkForm.CleanLinesLoop | watersync/waterquality/forms.py:65-90 | the `for` loop appending rows and raising on the first bad line computes the recursion over the lines |
| BulkForm.BlankLinesSkipped | watersync/waterquality/forms.py:68-69 | blank lines change nothing |
| BulkForm.AllLinesParse | watersync/waterquality/forms.py:65-90 | success exactly when every line parses |
| BulkForm.RowsFollowLines | watersync/waterquality/forms.py:83-90 | on success, one row per line, in order, each that line's parse |
| BulkForm.FirstBadLineFails | watersync/waterquality/forms.py:72-81 | a failure carries the error of the first line that does not parse, all lines before it parsing |
| BulkForm.LinesFollowNonBlank | watersync/waterquality/forms.py:65-92 | over any text: success iff every non-blank line parses, then one row per non-blank line in order; otherwise the first bad line's error, and no partial result |
| BulkForm.TabSeparated | watersync/waterquality/forms.py:71 | a line with a tab splits on tabs, commas kept inside the fields |
| BulkForm.CommaSeparated | watersync/waterquality/forms.py:71 | a line without tabs splits on commas |
| SensorModels.AfterDeploy | watersync/sensor/models.py:101-111 | refused exactly while the sensor is unavailable; otherwise the sensor becomes unavailable |
| SensorModels.AfterDecommission | watersync/sensor/models.py:113-121 | an open deployment is closed at `now` and frees the sensor; a closed one is unchanged |
| SensorModels.DecommissionIdempotent | watersync/sensor/models.py:117 | a second decommission changes nothing |
| SensorModels.DeployOnce | watersync/sensor/models.py:105-107 | a second deploy before the sensor is freed is refused |
| SensorModels.DeployThenDecommission | watersync/sensor/models.py:101-121 | deploying then decommissioning frees the sensor and records when |
| SensorModels.ClosedDeploymentKeepsSensor | watersync/sensor/models.py:101-121 | deploying an already closed deployment takes the sensor for good |
| SensorModels.Sensor.constructor | watersync/sensor/models.py:33 | a sensor is available by default |
| SensorModels.Deployment.Deploy | watersync/sensor/models.py:101-111 | the objects change as `AfterDeploy` says, and a refusal changes nothing |
| SensorModels.Deployment.Decommission | watersync/sensor/models.py:113-121 | the objects change as `AfterDecommission` says |
| SensorModels.Matching | watersync/sensor/models.py:141-146 | the rows the filter keeps are exactly the selected ones, in table order; with `openMatches` false (the query as written) an open deployment is never kept |
| SensorModels.OnlySelected | watersync/sensor/models.py:141-146 | when exactly one row is selected, the filter gives exactly that row |
| SensorModels.NoneSelected | watersync/sensor/models.py:141-146 | when no row is selected, the filter gives nothing |
| SensorModels.FindDeployment | watersync/sensor/models.py:138-150 | a deployment found is a stored row covering the moment |
| SensorModels.FoundCovers | watersync/sensor/models.py:138-150 | a found deployment covers the moment and is the only one that does |
| SensorModels.NotFoundIffNoCover | watersync/sensor/models.py:146-150 | `None` exactly when no deployment covers the moment |
| SensorModels.OpenNeverFound | watersync/sensor/models.py:143 | an open deployment never matches, NULL never comparing |
| SensorModels.DefaultsToNow | watersync/sensor/models.py:138 | without a timestamp the moment is now |
| SensorModels.FindDeploymentIntended | watersync/sensor/models.py:124-137 | the corrected lookup: a deployment found is stored and covers the moment, an open one from its deployment on; `None` exactly when no row does |
| SensorModels.LiveDeploymentMissed | watersync/sensor/models.py:138-145 | as written, when the only deployment of the location and sensor at `now` is still open, `find_deployment(location, sensor)` returns `None` |
| SensorModels.LiveDeploymentFound | watersync/sensor/models.py:124-137 | the corrected lookup returns that live deployment |
| SensorModels.IntendedAgreesOnClosed | watersync/sensor/models.py:141-146 | on closed deployments the corrected filter keeps the same rows as the written one |
| Groundwater.FirstTocIndex | watersync/groundwater/models.py:51-55 | the index of the first top-of-casing entry, no earlier entry being one |
| Groundwater.FirstTocIsFirst | watersync/groundwater/models.py:51-59 | the search reads only the first top-of-casing entry, and finds nothing without one |
| Groundwater.Entries | watersync/groundwater/models.py:48-53 | `detail or []` iterated: fails exactly for a truthy number or `True`; a list gives its items; a string or an object gives no dict |
| Groundwater.ToDecimal | watersync/groundwater/models.py:52 | refused exactly for null, lists, objects and non-numeric strings; a number is taken as it is |
| Groundwater.FirstToc | watersync/groundwater/models.py:51-55 | nothing found exactly when no entry is a top-of-casing dict |
| Groundwater.GroundwaterElevation | watersync/groundwater/models.py:44-61 | a falsy detail gives `None`; otherwise succeeds exactly when the entries and the first height do, with a value exactly when a height was found, that height minus the depth |
| Groundwater.NonObjectsIgnored | watersync/groundwater/models.py:52-53 | entries that are not dicts change nothing |
| Groundwater.FalsyDetailHasNoElevation | watersync/groundwater/models.py:48 | a null or empty detail gives no elevation |
| Groundwater.ElevationFromFirstToc | watersync/groundwater/models.py:51-61 | the first entry's height minus the depth, whatever follows |
| Groundwater.NoTocNoElevation | watersync/groundwater/models.py:57-59 | no top-of-casing entry, no elevation |
| Groundwater.LatestBy | watersync/groundwater/models.py:45 | the record `as_of` reads: stored, dated at or before the moment, and no record at or before it is newer; none exactly when every record is later |
| Groundwater.MeasurementElevation | watersync/groundwater/models.py:21-61 | `AttributeError` exactly for a measurement without a location; `DoesNotExist` exactly when no record is old enough or the one found is the deletion; otherwise the elevation of that record's detail |
| Groundwater.LaterRecordIgnored | watersync/groundwater/models.py:45 | a record written after the moment does not change the record read |
| Groundwater.LaterEditsKeepElevation | watersync/groundwater/models.py:38-61 | edits to the location after the fieldwork date leave the measurement's elevation unchanged |
| SamplingModels.SlugKept | watersync/waterquality/models.py:35-38 | a set slug survives any later save |
| SamplingModels.SlugAssignedOnce | watersync/waterquality/models.py:57-62 | saving twice assigns the slug once, given a non-empty slugify result |
| SamplingModels.EmptySlugRecomputed | watersync/waterquality/models.py:59-60 | an empty slugify result leaves the slug to be recomputed next time |
| SamplingModels.DateTextReadsBack | watersync/waterquality/models.py:55 | the date text is ten characters and reads back as year, month, day |
| SamplingModels.EventNameParts | watersync/waterquality/models.py:55 | "Sampling at {name} on {date}" |
| SamplingModels.DateText | watersync/waterquality/models.py:55 | at least ten characters, each part zero-padded |
| SamplingModels.AssignSlug | watersync/waterquality/models.py:35-38 | a set slug is kept; an empty result only when both the slug and the slugified text are empty |
| SamplingModels.EventName | watersync/waterquality/models.py:55 | "Sampling at ", the location name, then the date text at the end |
| SamplingModels.SampleName | watersync/waterquality/models.py:76-80 | the event slug, "-", the target parameters, in that order, then the replica suffix |
| SamplingModels.SampleNamesMayCollide | watersync/waterquality/models.py:76-80 | two different unique keys can render the same name |
| SamplingModels.Protocol.Save | watersync/waterquality/models.py:35-38 | the slug is assigned from the method name only when empty |
| SamplingModels.SamplingEvent.Save | watersync/waterquality/models.py:57-62 | the slug is assigned from location name and date only when empty |
| SamplingModels.Sample.constructor | watersync/waterquality/models.py:73 | the replica number starts at 0 |
| UrlMixins.ModelNamePlural | watersync/core/generics/mixins.py:72-81 | the verbose plural without spaces |
| UrlMixins.UrlName | watersync/core/generics/mixins.py:103-116 | every name starts with the app label and ":"; a list name has no spaces after it |
| UrlMixins.GetProject | watersync/core/generics/mixins.py:191-197 | a 404 exactly under "projects" with a missing or unknown pk; a project exactly under "projects", the stored one the URL names |
| UrlMixins.BaseUrlKwargs | watersync/core/generics/mixins.py:199-204 | fails exactly when the project lookup does; holds at most `project_pk`, a stored project |
| UrlMixins.ItemReadsBack | watersync/core/generics/mixins.py:148-167 | `item_pk` reads the placeholder back from `item` |
| UrlMixins.UrlNamespace | watersync/core/generics/mixins.py:103-116 | every URL name's namespace is the app label |
| UrlMixins.ActionNamesDistinct | watersync/core/generics/mixins.py:114-116 | different actions name different URLs |
| UrlMixins.NoMetaNames | watersync/core/generics/mixins.py:62-70 | without `_meta` the names are punctuation only |
| UrlMixins.BaseUrlKwargsRule | watersync/core/generics/mixins.py:191-204 | `project_pk` exactly under "projects" for a model other than the project |
| UrlMixins.BaseUrlKwargsFails | watersync/core/generics/mixins.py:191-197 | 404 only under "projects", for a missing or unknown pk |
| UrlMixins.DetailFormClass | watersync/core/generics/mixins.py:216-225 | the registered form for a known non-empty type, an empty response otherwise |
| UrlMixins.AddHxGet | watersync/core/generics/mixins.py:227-247 | sets `hx-get` to the path on the type widget only for an unrendered template response whose form has `detail` and `type` |
| UrlMixins.CsvRow | watersync/core/generics/mixins.py:24-26 | the object's attributes in header order |
| UrlMixins.ExportAsCsv | watersync/core/generics/mixins.py:13-28 | a header of the field names, then one row per object in queryset order; the file is named after app and model and announces `csvDownloaded` |
| BaseViews.ContextLayout | watersync/core/views/base.py:123-140 | project dashboard and `project_pk` exactly under "projects"; `user_id` always |
| BaseViews.GetContextData | watersync/core/views/base.py:123-163 | a 404 exactly under "projects" with a missing or unknown pk; the list context carries the model's action and the columns, and exactly one detail link |
| BaseViews.DetailLinkChoice | watersync/core/views/base.py:151-158 | "page" sets the detail page link, anything else the detail link, never both |
| BaseViews.ItemKwargs | watersync/core/views/base.py:89-102 | item links carry the base arguments plus the placeholder pk |
| BaseViews.ListUrlKeepsSpaces | watersync/core/views/base.py:64-67 | for every model, each character of the verbose plural, spaces included, appears unchanged after the app label and ":" |
| GenericViews.DetermineTemplateName | watersync/core/generics/views.py:103-111 | `list.html` exactly for an HX-Context of "block" |
| GenericViews.ListViewGet | watersync/core/generics/views.py:113-117 | a CSV export exactly for a non-empty HX-Download header |
| GenericViews.ConfigureDetailContext | watersync/core/generics/views.py:146-153 | "page", "popover" and "modal" each set their own field; other types set nothing |
| GenericViews.FreshDetailContext | watersync/core/generics/views.py:146-153 | at most one detail field is set on a fresh context |
| GenericViews.GetFormClass | watersync/core/generics/views.py:167-174 | the bulk class exactly for a bulk request |
| GenericViews.GetFormKwargs | watersync/core/generics/views.py:176-183 | every argument but `instance` is kept, none is added, and nothing changes without a bulk class |
| GenericViews.InstanceDroppedForBulk | watersync/core/generics/views.py:176-183 | `instance` dropped exactly for a bulk request, nothing else changed |
| GenericViews.SameClassAlwaysDrops | watersync/core/generics/views.py:181-182 | when both classes are the same, `instance` is always dropped |
| GenericViews.GetRedirectUrl | watersync/core/generics/views.py:215-240 | a bad project pk is a 404 first; then a request without HX-Current-URL raises `AttributeError`; otherwise it succeeds |
| GenericViews.RedirectRule | watersync/core/generics/views.py:215-240 | the list URL from the object's own page or for a location, `None` otherwise |
| GenericViews.DetailPageRedirects | watersync/core/generics/views.py:227-229 | the object's detail page counts as its own page |
| GenericViews.SuffixTestOnly | watersync/core/generics/views.py:227-232 | for every prefix and pk, a URL ending in `/{pk}/` or `/{pk}/overview/` counts as the object's own page, another kind of page included |
| GenericViews.Delete | watersync/core/generics/views.py:242-261 | 404 for a missing object; the redirect is decided first and its 404 or `AttributeError` stops the delete; HTMX answers `ProtectedError` for a protected object, else deletes and answers 204 with the headers; otherwise `ImproperlyConfigured` without a success URL, then `ProtectedError` for a protected object, else delete and redirect there; the object is gone exactly on success |
| GenericViews.DeleteHeaders | watersync/core/generics/views.py:249-254 | `HX-Trigger: configRequest` always, `HX-Redirect` exactly with a redirect URL |
| GenericViews.HandleHistory | watersync/core/generics/views.py:305-328 | none without history; otherwise one entry per record in order, paired with the next and their diff, the last with neither |
| HtmxForms.RenderToResponse | watersync/core/generics/htmx.py:8-14 | the HTMX template exactly for HTMX |
| HtmxForms.GetInitial | watersync/core/generics/htmx.py:20-31 | a 404 exactly for an unknown location; only `project` and `location` can be added, every other initial value kept |
| HtmxForms.InitialRule | watersync/core/generics/htmx.py:20-31 | `project` set iff the URL names a project and the model is not "project", `location` iff it names a location; nothing else changed |
| HtmxForms.InitialFails | watersync/core/generics/htmx.py:27-29 | 404 exactly for an unknown location |
| HtmxForms.UpdateUserIdempotent | watersync/core/generics/htmx.py:33-56 | updating twice is updating once |
| HtmxForms.UserAfter | watersync/core/generics/htmx.py:33-56 | no requester, no change; a many-to-many field becomes its users plus the requester; a foreign key ends set, and a set one is kept |
| HtmxForms.RequesterJoinsUsers | watersync/core/generics/htmx.py:49-50 | a many-to-many field gains the requester and loses no one |
| HtmxForms.ForeignKeyKept | watersync/core/generics/htmx.py:54-56 | a set foreign key is kept; an empty one gets the requester |
| HtmxForms.Instance.Save | watersync/core/generics/htmx.py:116 | the row written holds the columns as they are, one more save |
| HtmxForms.UpdateUser | watersync/core/generics/htmx.py:33-56 | nothing for a null instance; the user field becomes `UserAfter`, saved when a foreign key was filled |
| HtmxForms.UpdateProject | watersync/core/generics/htmx.py:58-70 | the project is set only on an instance with a project field; a lookup failure changes nothing |
| HtmxForms.UpdateLocation | watersync/core/generics/htmx.py:72-79 | the location is set from `location_pk` for a model other than the location; 404 for an unknown one |
| HtmxForms.FormValidOrder | watersync/core/generics/htmx.py:106-127 | the hooks first, save and `save_m2m` before the user update, which is last; the bulk handler exactly for "true" |
| HtmxForms.FormValid | watersync/core/generics/htmx.py:106-137 | a 404 from the project or location lookup stops it before the save, writing nothing; otherwise the stored row holds the hooks' project and location and the user `update_user` gave, with a second save exactly when a foreign key was filled, and the answer is `FormValidResponse` |
| HtmxForms.FormValidResponse | watersync/core/generics/htmx.py:129-137 | HTMX: the status, and `Hx-Trigger` iff the trigger is non-empty; otherwise JSON "Success" |
| HtmxForms.FormInvalid | watersync/core/generics/htmx.py:139-148 | HTMX re-renders as HTML with the invalid status |
| CoreMixins.RenderToResponse | watersync/core/mixins.py:11-16 | the HTMX template exactly for a non-empty HX-Request |
| CoreMixins.FormValidSteps | watersync/core/mixins.py:30-33 | the instance hook first, then the save when there is one |
| CoreMixins.FormValidResponse | watersync/core/mixins.py:30-42 | HTMX: the status, and `HX-Trigger` iff the trigger is non-empty; otherwise JSON "Success" with that status |
| CoreMixins.FormValid | watersync/core/mixins.py:30-42 | the hook, one save of the instance as it was, then the answer `FormValidResponse` |
| CoreMixins.DefaultSuccess | watersync/core/mixins.py:22-25 | by default a bare 204 without headers |
| CoreMixins.FormInvalid | watersync/core/mixins.py:44-55 | HTMX gets 400 as `text/html` |
| CoreMixins.DeleteHeaders | watersync/core/mixins.py:62-66 | `HX-Trigger: configRequest` always, `HX-Redirect` iff the view has one |
| CoreMixins.DeleteAsWritten | watersync/core/mixins.py:58-69 | 404 exactly for a missing object; a protected object raises `ProtectedError` and nothing is removed; otherwise the row is removed, HTMX gets 204 with the headers, and any other request gets the framework delete's 404 on the row already gone |
| CoreMixins.NonHtmxDeleteAnswers404 | watersync/core/mixins.py:60-69 | a request that is not HTMX removes the row and is answered 404 |
| CoreMixins.DeleteIntended | watersync/core/mixins.py:58-69 | the corrected delete: the row is removed exactly when the answer reports a delete, which happens exactly for a stored, unprotected object with HTMX or a success URL; a redirect goes to the success URL |
| CoreMixins.IntendedAgreesOnHtmx | watersync/core/mixins.py:62-68 | for HTMX requests the corrected delete is the delete as written |
| CoreMixins.Delete | watersync/core/mixins.py:58-69 | on the stored objects, the effect and answer of `DeleteAsWritten` |
| DetailForms.InitialDetailRule | watersync/core/generics/forms.py:8-37 | an unbound update of a known type starts from the stored detail or `{}`; a bound known `type` binds to the data; otherwise no detail form |
| DetailForms.SensorTypeFallback | watersync/core/generics/forms.py:17-23 | without its own type, the sensor's type is used |
| DetailForms.InstanceType | watersync/core/generics/forms.py:17-23 | the instance's own non-empty type, otherwise the sensor's |
| DetailForms.InitialDetailForm | watersync/core/generics/forms.py:26-37 | a detail form has a registered type; it is bound exactly for a bound main form, then to the posted data and its `type`; unbound only for an update, of the instance's type |
| DetailForms.DetailData | watersync/core/generics/forms.py:51-54 | exactly the detail fields that were posted, with their posted values |
| DetailForms.FormWithDetail.constructor | watersync/core/generics/forms.py:8-37 | the detail form is `InitialDetailForm` |
| DetailForms.FormWithDetail.IsValid | watersync/core/generics/forms.py:39-61 | a missing detail form is built from the posted detail fields (unbound if none); valid iff main and detail are, no detail form counting as valid |
| DetailForms.NoPostedDetailInvalid | watersync/core/generics/forms.py:55-58 | a type chosen on submit with no detail field posted makes the form invalid |
| DetailForms.FormWithDetail.Save | watersync/core/generics/forms.py:63-73 | the detail is replaced only by a valid detail form; the instance is saved only with `commit` |
| DetailForms.ChoiceFieldAttrs | watersync/core/generics/forms.py:76-87 | the widget always carries the three fixed `hx-` attributes, others kept |
| ContextProcessors.CurrentObject | watersync/core/context_processors.py:4-18 | the stored object the URL names, and a falsy value otherwise |
| ContextProcessors.CurrentProjectRule | watersync/core/context_processors.py:10-34 | nothing without a resolver match or argument; the stored project when found; falsy for an unknown pk; the same for locations |
| ContextProcessors.BaseTemplate | watersync/core/context_processors.py:36-47 | blank exactly for "block"; otherwise the project dashboard exactly under "projects" and the base dashboard elsewhere |
| ContextProcessors.BlockWinsOverProject | watersync/core/context_processors.py:42-45 | for every path, a project's included, "block" gives the blank layout |
| ContextProcessors.SplitFrom | watersync/core/context_processors.py:68 | the text up to the leftmost separator, and the rest after it |
| ContextProcessors.SplitStopsAt | watersync/core/context_processors.py:68 | the split stops at the first separator, or at the end of the text |
| ContextProcessors.DocumentationOf | watersync/core/context_processors.py:68-70 | the explanation is a prefix of the docstring, the whole of it when there is no detail |
| ContextProcessors.ModelDocumentation | watersync/core/context_processors.py:60-72 | documentation exactly for a view with a model with a non-empty docstring |
| ContextProcessors.ExplanationIsFirstParagraph | watersync/core/context_processors.py:68-69 | the explanation is the docstring up to its first separator; with none, the whole docstring and no detail |
| ContextProcessors.DetailIsSecondParagraph | watersync/core/context_processors.py:68-70 | the detail is what follows the first separator, up to the next one |
| ContextProcessors.LaterParagraphsDropped | watersync/core/context_processors.py:70 | for any paragraphs `a`, `b` without line breaks and any rest, `a\n\nb\n\n` plus the rest explains `a` with the detail `b` |
| ContextProcessors.WindowsParagraphs | watersync/core/context_processors.py:68 | for any paragraphs `a`, `b` without line breaks, `a\r\n\r\nb` explains `a` with the detail `b` |
| Interfaces.ItemsOf | watersync/core/generics/interfaces.py:10-15 | same length and order as the fields, each pair (label, attribute value); a missing attribute raises |
| Interfaces.ReturnItems | watersync/core/generics/interfaces.py:10-15 | an unset dictionary raises |
| Interfaces.UnsetFieldsRaise | watersync/core/generics/interfaces.py:7-25 | with the default `None` dictionaries both properties raise |
| Interfaces.EachPropertyItsOwn | watersync/core/generics/interfaces.py:17-25 | each property reads its own dictionary |
| LocationGeom.RulesAgreeAwayFromZero | watersync/core/forms.py:85-91 | the two rules agree without zero coordinates, storing (x=lon, y=lat, SRID 4326) |
| LocationGeom.EquatorIgnored | watersync/core/generics/utils.py:7-8 | a zero latitude leaves the old geometry under `update_location_geom` but is stored by `LocationForm.save` |
| LocationGeom.GivenCoordinatesStored | watersync/core/forms.py:85-91 | any two given coordinates become the point; otherwise the geometry is kept |
| LocationGeom.UpdateLocationGeom | watersync/core/views.py:69-73 | only the geometry changes, and only for truthy coordinates |
| LocationGeom.LocationFormSave | watersync/core/forms.py:80-96 | the geometry follows the given coordinates, saved only with `commit`, the instance returned |
| LocationGeom.GeomIfTruthy | watersync/core/views.py:69-73 | the geometry changes only for two truthy coordinates, and then to the point (x=lon, y=lat, SRID 4326) |
| LocationGeom.GeomIfPresent | watersync/core/forms.py:85-91 | the geometry changes only for two given coordinates, and then to that point |
| LocationGeom.HookThenSave | watersync/core/views.py:75-90 | the hook followed by `LocationForm.save` stores what the save alone stores |
| LocationGeom.LocationViewSave | watersync/core/views.py:75-90 | the location views store the point whenever both coordinates are given, zero included, with one save |
| ProjectUsers.RequesterStored | watersync/core/views.py:241-245 | the stored users are the selected users plus the requester |
| ProjectUsers.Members | watersync/core/views.py:244 | `set()` stores exactly the users of the list |
| ProjectUsers.WithRequester | watersync/core/views.py:241-242 | the list gains the requester at its end and keeps the users before it |
| ProjectUsers.AddRequestingUser | watersync/core/views.py:235-247 | the corrected helper: when it acts the requester is appended and the users become the list (`KeyError` without the key); otherwise nothing changes; no save; the instance returned |
| ProjectUsers.AddRequestingUserAsWritten | watersync/core/views.py:235-247 | as written: `AttributeError` (`KeyError` without the key) exactly when it acts, since a queryset has no `append`; the instance returned otherwise |
| ProjectUsers.RequesterNotSelectedRaises | watersync/core/views.py:241-242 | selection [2] and requester 1 raise `AttributeError` |
| ProjectUsers.SaveForm | watersync/core/generics/htmx.py:116-117 | one save, and the many-to-many users set to the selection |
| ProjectUsers.UpdateUser | watersync/core/generics/htmx.py:49-50 | the project's user field becomes `HtmxForms.UserAfter` of it: the requester joins the users, without a save |
| ProjectUsers.SecondCallActsNot | watersync/core/views.py:241 | a second call does nothing |
| ProjectUsers.CreateProject | watersync/core/views.py:253-256 | one save; a `KeyError` only without the key, after the save; the project ends with the selection and the requester |
| ProjectUsers.UpdateProject | watersync/core/views.py:263-264 | a `KeyError` stops it before the save, changing nothing; otherwise one save, and the project ends with the selection and the requester |

## Left out

- Leaflet, Bootstrap and jQuery internals are left out: tile loading, layout, the delay of each `setTimeout`, and the popups opening. Deferred callbacks are a queue that any event may run.
- `customizeLeafletDjangoWidget` (map.js:74-82) only configures a map that another library makes. The model does not track that map.
- The `htmx:responseError` handler (dialog.js:96-99) only logs and alerts.
- `$.getJSON` and the JSONEditor's own behaviour are left out. The fetched schema arrives as the `SchemaLoaded` call.
- `encodeURI`, `JSON.stringify` and `link.click()` are parameters or no-ops.
- Decimal.ParseFloat: reads an optional sign, digits and a fraction. It does not read exponents or `Infinity`.
- Decimal.PyFloat: accepts plain decimal numerals only. Exponents, `inf`/`nan` and underscores, which Python's `float()` takes, are refused.
- Decimal.ToFixed6: rounds the exact real value. Binary floating-point representation is not modelled.
- Groundwater.ToDecimal: JSON numbers are exact reals. Neither the binary expansion `Decimal(float)` gives nor `Decimal`'s exponent, NaN and infinity forms are modelled.
- Groundwater.GroundwaterElevation: subtracts exactly. Python's 28-digit decimal context would round very long values.
- SamplingModels.DateTextReadsBack: proved for years from 1000 on, because `strftime` pads smaller years differently across platforms.
- `slugify`, `timezone.now()`, `reverse` and `history.as_of` are parameters. `NoReverseMatch` is not modelled.
- Database writes are save counters or set updates. Transactions and the many-to-many tables are left out.
- `get_form` in core/generics/views.py:94-97 always writes `hx-get` on the `type` field. `setup` parses the model docstring (views.py:89-92).
- `get_context_data` of the generic views, and the `get` overrides of the create, update and detail views, only assemble context or fetch objects.
- `swap_detail_form` (mixins.py:249-273) renders a template.
- The `print` calls in htmx.py:25, views.py:319 and mixins.py:45 are output only.
- ProjectUsers.AddRequestingUser: the corrected helper reads the cleaned `user` value as a list, as the code treats it; as written it raises (see Findings).
- Whether Leaflet's `remove()` throws, for instance "Map container is being reused" on a container reused by another map, is the free `Fault` parameter, not derived from the tags.
- CoreMixins.Delete: each statement is taken to commit on its own, Django's default. Under `ATOMIC_REQUESTS` the 404 of the framework delete would roll the delete back; the project settings are not part of this model.
- Groundwater.MeasurementElevation: the fieldwork date is an integer instant compared with the history dates. The date-to-datetime conversion and the time zone, which the property's docstring leaves open, are not modelled.
- GenericViews.Delete: the success URL's `.format(**object.__dict__)` expansion is not modelled; the URL is taken as given.
- HtmxForms.FormValid: `update_form_instance` and `handle_bulk_create` are the base no-ops, and `save_m2m` writes nothing the model keeps. A plain form is the null instance, which has no `save`.
- The base `form_valid` of `WatersyncCreateView` lives in core/generics/base.py, which is not part of this model.
- DetailForms.FormWithDetail.IsValid: the detail forms' own field validation and cleaning are parameters. `data.get` on a multi-valued query dict is read as a map lookup.
- ContextProcessors.CurrentObject: pks are strings in a set. A malformed pk, for which Django raises `ValueError`, is not modelled.
- ContextProcessors.ModelDocumentation: the resolver-match and view lookup is one optional value.
- Interfaces.ItemsOf: a field dictionary is a list of pairs in insertion order.
- The Python and JavaScript that are neither named here nor called by these files are left out: URL tables, admin, migrations, serializers, the API and the remaining CRUD views.

## Findings

| source | as written | input that shows it | evidently intended | confidence | as-written member | corrected member |
|---|---|---|---|---|---|---|
| watersync/core/views.py:72 (also watersync/core/generics/utils.py:7) | `if lat and lon:` treats a coordinate of 0.0 as missing | latitude 0.0, longitude 10.0: `update_location_geom` leaves the geometry unchanged. In the location create and update views (watersync/core/views.py:75-90) `form_valid` then calls `LocationForm.save`, which stores the point with `is not None` (watersync/core/forms.py:85-91), so there the zero coordinate is still stored (LocationGeom.LocationViewSave); the skip shows only for a caller without that save | set the point whenever both coordinates are given, as `LocationForm.save` does | low; not executed | LocationGeom.GeomIfTruthy (with LocationGeom.EquatorIgnored) | LocationGeom.GeomIfPresent (with LocationGeom.GivenCoordinatesStored, used by LocationGeom.LocationFormSave and LocationGeom.LocationViewSave) |
| watersync/core/views.py:241-244 | `form.cleaned_data["user"].append(requesting_user)` on the project form's many-to-many field, which cleans to a queryset | a project created or updated with the selection [2] by user 1: `AttributeError` | add the requester to the selection and store it | high; not executed | ProjectUsers.AddRequestingUserAsWritten (with ProjectUsers.RequesterNotSelectedRaises) | ProjectUsers.AddRequestingUser (with ProjectUsers.RequesterStored, used by ProjectUsers.CreateProject and ProjectUsers.UpdateProject) |
| watersync/core/mixins.py:58-69 | the object is deleted before the request is looked at, and a request that is not HTMX then goes to `super().delete()`, which is `DeletionMixin.delete` in the views that list `DeleteHTMX` before `DeleteView` (watersync/waterquality/views/sample.py:53, watersync/waterquality/views/protocol.py:39); it calls `get_object()` again | a non-HTMX DELETE of stored sample 7: the row is deleted, then `get_object_or_404` (watersync/waterquality/views/sample.py:57-58) answers 404 | hand the non-HTMX request to the framework delete with the object still there, which deletes it and redirects to the success URL | medium; not executed | CoreMixins.DeleteAsWritten (with CoreMixins.NonHtmxDeleteAnswers404, used by CoreMixins.Delete) | CoreMixins.DeleteIntended (with CoreMixins.IntendedAgreesOnHtmx) |
| watersync/sensor/models.py:145 | `decommissioned_at__gte=timestamp`: a NULL `decommissioned_at` never compares, so a deployment still running never matches | a sensor deployed at the location yesterday and not decommissioned: `find_deployment(location, sensor)` returns `None` | find the deployment running at the moment, open deployments included (`decommissioned_at IS NULL OR decommissioned_at >= timestamp`), as the docstring (watersync/sensor/models.py:124-137) says | high; not executed | SensorModels.FindDeployment (with SensorModels.OpenNeverFound and SensorModels.LiveDeploymentMissed) | SensorModels.FindDeploymentIntended (with SensorModels.LiveDeploymentFound and SensorModels.IntendedAgreesOnClosed) |
