# Flipbook demo: progressive preload and viewer controls in Dafny

The flipbook demo shows a PDF in a page-flip widget. It renders the first
`min(4, numPages)` pages, builds the widget from them, and then renders the
remaining pages one at a time in the background. Each rendered page goes into a
preload buffer. A merge coordinator appends the buffer to the widget's image
list in batches, and it only arms a merge while the user is not flipping. The
rest of the app is zoom (wheel, zoom button, double-click), drag-to-pan and the
enabling of the navigation buttons.

The project models:

- `pdf_service.dfy`, module `PdfService`: `renderPdfPages`. A document is its
  page count and a rasteriser, which maps a page number to an image with its
  viewport width and height, or to a failure. The method keeps the source's
  loop. It proves the range clamping, one image per page in ascending order,
  the 600×800 default base size and the first page's size otherwise, and that
  every requested page lies in `[1, numPages]`.
- `preload_spec.dfy`, module `PreloadSpec`: the coordinator as a state machine
  over values. `State` holds `allImages`, `preloadBuffer`, `isUserFlipping`,
  `updateScheduled`, the counts of armed flip and merge timers, and the preload
  loop's next page. The events are a flip, a flip timer firing, the current
  preload page settling (rendered or failed) and the merge timer firing. Any
  interleaving of events is a sequence given to `Run`. The invariant `Inv`
  holds over every trace. It says:
  - `allImages ++ preloadBuffer` are the images of the initial batch followed
    by every later page that rendered, in page order;
  - a merge timer is armed exactly while `updateScheduled` holds, so at most
    one merge is ever pending;
  - buffered images always have an armed timer that leads to a merge.
- `flipbook_app.dfy`, module `FlipbookApp`: the same coordinator as the source
  has it. Class `Flipbook` holds the closure variables as fields, and each
  event handler is a method specified by `PreloadSpec.Step`.
  `PreloadRemainingPages` is the source's preload loop. `InitFlipbookApp`
  covers initialisation up to the start of that loop.
- `controls.dfy`, module `Controls`: the zoom clamp, wheel step, zoom toggle,
  double-click, drag guard and the navigation-button rule. Class `Viewport`
  holds the zoom and drag closure variables.

Timers are events, not time. A timer-fired handler may run only while a timer
of its kind is armed. The browser runs one handler at a time, so each handler
is one atomic step.

The model follows the code, including where it does less than one might expect:

- The "not flipping" guard is checked only when a merge is armed
  (`src/flipbookApp.js:77`), not when the merge timer fires (lines 83-88). A
  flip that comes after a merge was armed does not stop that merge.
  `MergeMayFireDuringFlip` proves such a merge fires while `isUserFlipping`
  holds. So "no merge ever happens during a flip" is not a property of this
  code, and the model does not claim it.
- Every flip arms its own flip timer. The first timer to fire clears the flag,
  even while a later flip's timer is still armed (`FirstFlipTimerClearsFlag`).
- The initial batch is `min(4, numPages)` pages (`src/flipbookApp.js:27`).
- A drag that is under way is not ended when zooming out, so `mousemove` keeps
  assigning scroll offsets at zoom 1. The browser clamps those offsets to the
  scrollable range, which the model does not represent.

## Model

| member | source | states |
|---|---|---|
| `PdfService.RenderPdfPages` | src/pdfService.js:26-56 | Only pages in `[max(1,start), min(numPages,end)]` are requested, in ascending order, each inside `[1, numPages]`. It succeeds iff every page of that range renders. On success it returns `max(0, safeEnd-safeStart+1)` images, image i from page `safeStart+i`. The base size is 600×800 for an empty range and the first page's viewport otherwise. A failure names the first failing page, with every earlier page rendered. |
| `PreloadSpec.RenderedPagesSpec` | src/flipbookApp.js:94-107 | The pages the preload loop contributes are strictly ascending, so none appears twice. They are exactly the pages of the range that render. |
| `PreloadSpec.NoFailureNoGap` | src/flipbookApp.js:94-107 | With no failing page, every page of the range is contributed, in order. |
| `PreloadSpec.OneFailureOneGap` | src/flipbookApp.js:94-107 | A single failing page is skipped, and every other page of the range is still contributed in order. |
| `PreloadSpec.ExpectedStep` | src/flipbookApp.js:94-106 | Moving the preload loop past page p appends p's image to the expected list iff p renders. |
| `PreloadSpec.InitEstablishesInv` | src/flipbookApp.js:24-64 | The initial batch of `renderPdfPages(pdf, 1, INITIAL_PAGES)`, an empty buffer, cleared flags, no armed timers and the cursor at `INITIAL_PAGES+1` satisfy the invariant. |
| `PreloadSpec.StepPreservesInv` | src/flipbookApp.js:66-107 | Every event keeps the invariant. `allImages` only grows as a prefix, and the preload cursor never goes back. |
| `PreloadSpec.RunPreservesInv` | src/flipbookApp.js:66-107 | Over any interleaving of events the invariant holds and at most one merge timer is armed. The old `allImages` is always a prefix of the new one. |
| `PreloadSpec.MergeArming` | src/flipbookApp.js:76-83 | A merge is armed iff the event leaves the user not flipping, no merge was pending and the buffer is non-empty. For a flip timer that means buffer non-empty and nothing pending. For a settled page it means the page rendered, no flip and nothing pending. A flip or a merge never arms one. |
| `PreloadSpec.OnlyMergeChangesViewerList` | src/flipbookApp.js:67-107 | No event except the merge changes the list handed to the viewer, so the viewer reloads once per batch. |
| `PreloadSpec.MergeFlushesBuffer` | src/flipbookApp.js:83-88 | When the merge fires, `allImages' = allImages ++ preloadBuffer`, which is strictly longer. The buffer becomes empty, `updateScheduled` becomes false and no merge is pending. |
| `PreloadSpec.MergeMayFireDuringFlip` | src/flipbookApp.js:67-88 | A flip after a merge was armed leaves it armed. It then fires and appends the buffer while `isUserFlipping` holds. |
| `PreloadSpec.FirstFlipTimerClearsFlag` | src/flipbookApp.js:67-72 | After two flips and one flip-timer event, `isUserFlipping` is false while one flip timer is still armed. |
| `PreloadSpec.TimersDrainBuffer` | src/flipbookApp.js:69-88 | From any reachable state, the already armed timers firing bring the whole buffer into `allImages`: the merge, or the flip timer and then the merge it arms. |
| `PreloadSpec.SettledHoldsExpected` | src/flipbookApp.js:84-107 | When the preload loop is done, no merge is pending and the user is not flipping, the buffer is empty. `allImages` is then the initial batch followed by every later page that rendered. |
| `PreloadSpec.CompleteDocument` | src/flipbookApp.js:91-107 | Without failures, the final list has exactly one image per page, pages 1..numPages in order. |
| `PreloadSpec.TenPagesSeventhFails` | src/flipbookApp.js:91-107 | For 10 pages with page 7 failing, the final pages are 1-6 and 8-10, so there are 9 images. |
| `FlipbookApp.Flipbook.constructor` | src/flipbookApp.js:37-64 | The widget is built with the batch's base size and loaded with the batch. Both flags are false, no timer is armed and the invariant holds. |
| `FlipbookApp.Flipbook.MaybeUpdateFromBuffer` | src/flipbookApp.js:76-89 | Changes nothing while flipping, while a merge is pending or with an empty buffer. Otherwise it sets `updateScheduled`, arms exactly one merge timer and changes nothing else. |
| `FlipbookApp.Flipbook.OnFlip` | src/flipbookApp.js:67-69 | Sets `isUserFlipping` and arms one more flip timer. The images, the buffer and the merge state are unchanged, and the invariant is kept. |
| `FlipbookApp.Flipbook.OnFlipTimer` | src/flipbookApp.js:69-72 | Clears `isUserFlipping` and disarms that timer. Afterwards a merge is pending iff one was pending or the buffer is non-empty. |
| `FlipbookApp.Flipbook.OnMergeTimer` | src/flipbookApp.js:83-88 | Appends the buffer to `allImages`, which grows strictly, then empties the buffer and clears `updateScheduled`. The flip flag is untouched. |
| `FlipbookApp.Flipbook.PreloadPage` | src/flipbookApp.js:95-106 | Renders the single page `nextPage`, which yields exactly one image when it succeeds. That image goes to the buffer, followed by the merge check. A failure appends nothing. Either way the cursor advances. |
| `FlipbookApp.Flipbook.PreloadRemainingPages` | src/flipbookApp.js:91-108 | With no other event in between, visits every remaining page in ascending order. Does nothing at all when `INITIAL_PAGES >= totalPages`. Afterwards `allImages ++ preloadBuffer` holds every page that rendered. The loop itself never merges, so `allImages`, the flip flag and the flip timers are unchanged. A pending merge stays pending, and a new one is armed only when no flip is in progress and the buffer is non-empty. |
| `FlipbookApp.InitFlipbookApp` | src/flipbookApp.js:12-59 | Yields a viewer iff the anchor elements exist and the first `min(4, numPages)` pages render. The viewer holds those pages' images and is sized by page 1, or 600×800 for an empty document. |
| `Controls.ClampZoom` | src/flipbookApp.js:134-135 | The result lies in [1, 3], keeps a zoom already in range, and maps below-range to 1 and above-range to 3. |
| `Controls.WheelZoom` | src/flipbookApp.js:153-161 | Wheel up zooms in by one 0.1 step, and anything else zooms out by one step, clamped to [1, 3]. It is unchanged only at the bound it pushes against. |
| `Controls.ToggledZoom` | src/flipbookApp.js:163-173 | The zoom button gives 2 exactly when the zoom was 1, and 1 otherwise. |
| `Controls.ToggleTwice` | src/flipbookApp.js:163-173 | Two presses from 1 come back to 1, and two presses from any other zoom end at 2. |
| `Controls.UpdateButtons` | src/flipbookApp.js:223-239 | First and prev are disabled iff the index is 0, and next iff it is `total-1`. A disabled button has opacity 0.4 and the `default` cursor; an enabled one has opacity 1 and the `pointer` cursor. |
| `Controls.ButtonsMatchNavigation` | src/flipbookApp.js:227-232 | On a page of the book, prev is enabled iff a previous page exists and next iff a following page exists. |
| `Controls.Viewport.constructor` | src/flipbookApp.js:129-131 | Zoom starts at 1; the drag flag also starts false (line 177). |
| `Controls.Viewport.ApplyZoom` | src/flipbookApp.js:134-151 | Clamps the zoom into [1, 3] and resets the scroll to the origin at zoom 1. |
| `Controls.Viewport.Wheel` | src/flipbookApp.js:153-161 | The zoom becomes `WheelZoom(zoom, deltaY)` and stays in [1, 3]. The scroll resets to the origin at zoom 1. A drag and its anchor are untouched. |
| `Controls.Viewport.ZoomButton` | src/flipbookApp.js:163-174 | From 1 it zooms to 2 and centres the view. Otherwise it goes back to 1 with the scroll at the origin. A drag and its anchor are untouched. |
| `Controls.Viewport.MouseDown` | src/flipbookApp.js:180-197 | A drag starts, and the event is consumed, iff zoom > 1, the button is 0 and the target is not a page edge. Zoom and scroll are unchanged. |
| `Controls.Viewport.MouseMove` | src/flipbookApp.js:199-203 | While dragging, the scroll offsets follow the pointer from where the drag started. Otherwise nothing changes. |
| `Controls.Viewport.MouseRelease` | src/flipbookApp.js:205-210 | Mouse-up and mouse-leave end any drag. |
| `Controls.Viewport.DoubleClick` | src/flipbookApp.js:213-220 | Acts iff zoom > 1, and then sets zoom to 1 with the scroll at the origin. It never raises the zoom. A drag and its anchor are untouched. |

## Left out

- Opening the document and configuring the PDF library's worker (`src/pdfService.js:5-16`): document I/O over a foreign library. A document is given as its page count and rasteriser.
- Canvas creation, `page.render` and `toDataURL`: foreign rasterisation, abstracted as the document's rasteriser at the fixed render scale 1.0. That is why the scale is not a parameter.
- The rasteriser is a function of the page number, so a page that fails in the model always fails. A transient failure is not represented.
- The error a failed render rejects with is represented by the failing page's number. Logging of preload failures (`console.error`) is not modelled.
- The page-flip widget: its construction options, `loadFromImages`/`updateFromImages` (modelled only by the list passed to it), and `turnToPage`, `flipPrev`, `flipNext` with the toolbar and edge handlers that call them (`src/flipbookApp.js:118-126`). The current page index and page count are parameters of `UpdateButtons`.
- Timer durations (300, 250 and 30 ms): timers are armed and fired as events, so relative timing is free.
- The `resize` event dispatched after each zoom, and all CSS class and style updates (zoom container size, `zoomed`, `dragging`) other than the navigation buttons' opacity and cursor, which `UpdateButtons` models.
- Floating-point zoom: zoom is a real number, so repeated 0.1 steps and the `zoom === 1` comparisons are exact in the model.
- Scroll offsets are the values the handlers assign. The browser's clamping of them and the centring arithmetic after the zoom button (taken as parameters) are layout.
- Buttons missing from the page (the optional chaining on the toolbar elements) are not modelled. All three navigation buttons are assumed present.
- `src/main.js` is not part of this model: it only builds the document URL and logs a failed initialisation.
