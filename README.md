# Fennec URL Screenshots: the batch capture pipeline

This project is a Dafny model of the batch screenshot pipeline in the Firefox for
Android add-on `bootstrap.js`. The pipeline has four parts:

- `_readList` splits the bundled site list into lines.
- `_takeScreenshots` walks the lines in order. For each one it loads the site in the
  selected tab and captures the entire page through a scale fallback (device pixel
  ratio, then 2, then 1). It saves the capture data when there is any.
- `_capture` checks that the document has a body and picks the capture rectangle for
  the area mode (`entire` or `visible`). It then maps the MIME type to a file extension,
  with PNG as the fallback, and sizes the output as scale times the CSS size.
- `_saveImage` is called once for each site that produced data.

Modules, one per part of the pipeline:

- `SiteList` (`site_list.dfy`): the line split and its inverse.
- `CaptureEngine` (`capture_engine.dfy`): one `_capture` call, as pure functions.
  - `Document` holds what `_capture` reads from the tab.
  - `Draw` is the renderer oracle. It stands for `drawWindow` followed by `toDataURL`,
    and either throws or yields a data URL.
- `RetryPolicy` (`retry_policy.dfy`): the nested try/catch fallback, stated as a policy
  over the list of scales `[dpr, 2, 1]`.
  - A `Page` gives the document and the renderer that each attempt meets.
  - When `drawWindow` throws, the canvas that `_capture` appended to the body is never
    removed. So the k-th attempt may see a document and a rendering that differ from
    the first one. `docAt(k)` and `drawAt(k)` model this instead of assuming cleanup.
- `Batch` (`batch.dfy`): the site loop, as a method that returns an event log. The log
  holds `Load`, `Attempt`, `Save`, `Noop` and `Abort` events.
  - `TakeScreenshots` is the loop, `VisitSite` is one iteration, and
    `CaptureWithRetries` is the nested cascade of the loop body.
  - Each method is proved against a specification function (`BatchRun`, `Run`,
    `CaptureWithFallback`).
  - The properties are proved of those functions. They are load order, where a run may
    stop, and conformance to a protocol automaton (`Step`/`Replay`). The automaton is an
    independent statement of how a run may proceed: each site gets one to three attempts
    at dpr, 2 and 1, in that order, and then exactly one save or no-op.
  - Each save belongs to the iteration of the site just loaded. Its `url` tags the loop
    iteration, not the saved file: `_saveImage` names the file after `document.domain`
    (bootstrap.js:355). The saved image's MIME type and extension agree with the run's
    format.
- `Wrappers` (`wrappers.dfy`): `Option`.

External collaborators become parameters of a `Host`:

- `load(i, url)` is the page on which the i-th load of `url` settles.
- `saveThrows(i, data)` says whether `_saveImage` throws synchronously.

Behaviour of the code that the model states as it is:

- A failed `drawWindow` leaves its canvas in the body. The canvas is appended at
  bootstrap.js:317, and the removal at bootstrap.js:328 runs only when drawing succeeded.
  Each retry therefore draws on a document that holds the canvases of the attempts that
  threw. `Page.docAt(k)` and `Page.drawAt(k)` give the document and the renderer that
  the k-th attempt meets.
- An exception thrown by `_saveImage` (bootstrap.js:249) is not caught inside the loop.
  It ends the task (`.catch` at bootstrap.js:254), so no later site is visited.
  `RunStopsOnlyAtAbort` states this.
- The retry scales are `dpr`, 2 and 1 (bootstrap.js:228, 233, 238). They are strictly
  descending only when `dpr > 2` (`TiersDescendingIff`). With a ratio of 2 or less, the
  retry at 2 is not at a lower scale.
- An unknown MIME type is replaced by `image/png` with extension `png`
  (bootstrap.js:299-301). It is not rejected.
- The loop always uses the `entire` area mode.

## Model

| member | source | states |
|---|---|---|
| SiteList.SplitLines | bootstrap.js:186 | the list has one more entry than the text has newlines, and no entry contains a newline |
| SiteList.JoinSplit | bootstrap.js:186 | joining the entries with newlines gives back the text, so no line (blank or not) is dropped, merged or reordered |
| SiteList.SplitJoin | bootstrap.js:186 | splitting newline-free entries joined by newlines gives back exactly those entries |
| CaptureEngine.Geometry | bootstrap.js:269-289 | a capture rectangle exists exactly for the modes `entire` and `visible` |
| CaptureEngine.Normalize | bootstrap.js:291-302 | the chosen type is always PNG or JPEG, the extension names that type, the requested format is kept exactly when it is one of the two, and any other format becomes `image/png` with extension `png` |
| CaptureEngine.Capture | bootstrap.js:259-333 | null exactly when there is no body or the mode is unknown; captured data is scale × the mode's CSS size (scrollWidth/scrollHeight for `entire`, innerWidth/innerHeight for `visible`) and carries a type its extension agrees with; an unknown format is captured as `image/png` with extension `png` |
| CaptureEngine.CaptureDraws | bootstrap.js:269-326 | the renderer is asked for (0, 0, scroll size) in `entire` mode and (viewport offset, inner size) in `visible` mode; the attempt throws exactly when the renderer does, and the data URL is the renderer's output |
| CaptureEngine.NullBeforeDrawing | bootstrap.js:264-289 | the null exits do not depend on the renderer, so they happen before any canvas is drawn |
| RetryPolicy.TiersDescendingIff | bootstrap.js:226-238 | the scales dpr, 2, 1 are strictly descending if and only if dpr > 2 |
| RetryPolicy.Cascade | bootstrap.js:225-246 | the scales tried are a non-empty prefix of the tier list, and any data has a type its extension agrees with |
| RetryPolicy.FirstNonThrowingDecides | bootstrap.js:225-246 | every attempt before the last one threw; the cascade stops early only at an attempt that did not throw; there is data exactly when the last attempt captured, and then it is that attempt's data |
| RetryPolicy.ScalesInOrder | bootstrap.js:226-238 | the scales attempted are [dpr], [dpr, 2] or [dpr, 2, 1] |
| RetryPolicy.NullStopsCascade | bootstrap.js:226-229 | a null result (no body, unknown mode) at the first scale ends the cascade after one attempt with no data |
| RetryPolicy.AllThrowNoData | bootstrap.js:237-246 | when every scale throws, all three are tried and there is no capture data |
| RetryPolicy.RetryRedraws | bootstrap.js:226-238 | at dpr 2, a retry at the same scale on an unchanged document can capture where the first attempt threw, because each attempt draws again |
| RetryPolicy.ScaleOneFallback | bootstrap.js:232-246 | when dpr and 2 throw and 1 captures, the data has the scale-1 size of the document the third attempt sees |
| Batch.PreferredFormat | bootstrap.js:214-216 | the run's format is JPEG exactly when the `use_jpeg` preference is present and true, and PNG otherwise |
| Batch.CaptureWithRetries | bootstrap.js:225-246 | the nested attempts of the loop body try exactly the scales the retry policy tries and end with the policy's capture data |
| Batch.VisitSite | bootstrap.js:222-253 | one iteration produces the site's event block (load, attempts, save or no-op, abort when saving throws) from the policy's result on the page that site's load yields |
| Batch.TakeScreenshots | bootstrap.js:212-255 | the loop's event log is the batch run over the sites in list order, stopping right after a save that throws |
| Batch.ReadList | bootstrap.js:184-187 | the events are those of the batch run over the lines of the site file |
| Batch.SiteTraceLoads | bootstrap.js:222-253 | one iteration loads its own site once and nothing else |
| Batch.RunLoadsInOrder | bootstrap.js:222-223 | the loaded urls are a prefix of the site list, in list order, one load per site |
| Batch.RunStopsOnlyAtAbort | bootstrap.js:248-254 | the run stops before the end of the list only right after a site whose save threw, and no earlier site's save threw |
| Batch.EverySiteLoaded | bootstrap.js:222-253 | when no save throws, every entry (empty ones included) is loaded exactly once, in order |
| Batch.ReadListLoadsEveryLine | bootstrap.js:186-223 | when no save throws, the loaded urls joined with newlines are the site file's text |
| Batch.VisitsConform | bootstrap.js:225-246 | every site's cascade result tries a prefix of dpr, 2, 1 and carries data of the run's format with the matching extension |
| Batch.SiteTraceFollows | bootstrap.js:222-253 | one iteration follows the protocol from between sites and ends between sites, just after a save, or stopped (exactly when saving threw) |
| Batch.RunFollows | bootstrap.js:219-254 | the run from any site on follows the protocol to its end and never stops in the middle of a site |
| Batch.BatchFollowsProtocol | bootstrap.js:212-255 | every batch run follows the protocol: one to three attempts at dpr, 2, 1 per loaded site, then exactly one save or no-op, each save tagged with the iteration's site and carrying the preferred format and its extension |

## Left out

- Fetching the site list with XMLHttpRequest (bootstrap.js:179-190) is network I/O. Only the split of the response text is modelled. A failed request never calls the handler, so no batch starts.
- `Task.spawn`, the generator's `yield`, promises and the 10-second settle delay in `_loadTab` (bootstrap.js:192-210) are asynchronous scheduling. A load is an atomic step that yields a page. A load event that never fires would suspend the batch forever, because the source has no timeout. The model assumes every load completes.
- Canvas creation, `drawWindow` and `toDataURL` (bootstrap.js:304-331) are foreign rendering. They are the `Draw` oracle. How a canvas left in the body changes layout and rendering is not modelled. Each attempt gets an arbitrary document (`Page.docAt`) and an arbitrary renderer (`Page.drawAt`).
- `_saveImage` (bootstrap.js:335-402) is reduced to a `Save` event plus the oracle for a synchronous throw. The model does not cover the file name from `document.domain`, `createUnique`, the MIME service, the download manager, the private-browsing check, or write failures reported asynchronously after `saveURI`.
- Preferences, the observer-driven menu rebuild, `setupUI`/`cleanupUI` with their single-capture menu callbacks, `startup`/`shutdown`/`windowListener`, `log`, `showToast` (the "could not capture" toast on a missing body) and `tr` (bootstrap.js:59-177, 409-496) are host UI glue.
- Floating point is not modelled. Scale and offsets are exact reals and sizes are integers. The captured width and height are the exact product. Rounding of the product and the truncation when the product is assigned to `canvas.width`/`canvas.height` are not modelled.
- The white background passed to `drawWindow` is a constant of the renderer call. It does not appear in the model.
