# VoidDownload — a Dafny model of the download page's release logic

The download page's script (`src/js/main.js`) asks a repository-hosting API for
the latest release. It looks for the first asset whose name ends in `.apk`, and
writes the result into two page elements: the `#version` label and the
`#downloadBtn` link. A second routine, `detectDevice`, relabels the same button
from the browser's user agent.

This project models that logic and proves what the page ends up showing for
every answer the endpoint can give:

- `wrappers.dfy` — `Option`.
- `text.dfy` — the string operations the script relies on: `endsWith`,
  `includes` (a left-to-right scan, proved equal to "occurs at some index") and
  `toLowerCase`.
- `release.dfy` — the answer of the endpoint as an input value
  (`FetchOutcome`: a rejected fetch, or a response with a status and a body that
  is undecodable, lacks `assets`, or is a release). It also holds `FindApk`, the
  first-match search of `assets.find`, and `Settle`, the state each answer leads
  to (`Ready`, `NoApk` or `Failed` with the exception raised).
- `dom.dfy` — the elements as small classes holding only the properties the
  script writes: text, class list, colour; href, `aria-disabled`, the
  `disabled` attribute, opacity, cursor, the button's label and its click
  listeners; the wrapper's animation. It also holds the optional analytics
  function, passed in as a nullable object instead of read from a global.
- `app.dfy` — the `VoidDownload` class. Its methods assign those fields in the
  order the source does. `LoadLatestRelease` follows try / catch (fallback,
  then rethrow) / finally (clear the loading class). `Init` catches what
  escapes and writes the error label.
- `device.dfy` — `detectDevice` as a decision table (`Classify`) and a method
  on the button.
- `page.dfy` — the two `DOMContentLoaded` listeners together. Both touch the
  download button.

What the proofs establish:

- The loading class is gone on every exit path.
- The link is the URL of the first `.apk` asset in array order. With no such
  asset, the link is never written.
- Any exception in the try block is turned into the fallback and then
  rethrown. The outer handler's "Erro ao carregar versão" in `#ef4444` replaces
  the fallback text, but the fallback's button styling stays.
- A body without `assets` throws before the label is written, so `success` is
  never added.
- The release flow never changes the button's label. It re-enables a button
  that `detectDevice` disabled. An iPhone or iPad visitor therefore ends with a
  button that has `aria-disabled="false"` and a pointer cursor, but is still
  dimmed and still reads "Disponível apenas para Android 📱".

Notes on behaviour:

- For a release without an `.apk` asset the link is left as the page had it.
  It is not cleared.
- On failure the outer handler's text is the one that stays.
- The analytics event carries the category `APK`.
- `apiUrl` is the API root, whose answer has no `assets` array. With that URL,
  a successful request ends in the `Failed(TypeError)` verdict. The model takes
  the answer as an input and does not depend on the URL.

## Model

| member | source | states |
|---|---|---|
| Text.EndsWithIff | src/js/main.js:46 | `endsWith(suffix)` holds exactly when the name is some string followed by the suffix |
| Text.ContainsIff | src/js/main.js:189-191 | the scan used for `includes` succeeds exactly when the word occurs at some index of the string |
| Text.ToLower | src/js/main.js:186 | lower-casing keeps the length and lowers each character in place |
| Text.ToLowerIdempotent | src/js/main.js:186 | after lower-casing no upper-case letter remains, and lower-casing again changes nothing |
| Release.FindApk | src/js/main.js:46 | the search returns the first asset in array order whose name ends in `.apk`, and returns none exactly when no asset does |
| Release.SettlePicksFirstApk | src/js/main.js:45-67 | on an ok response with a release, the page is ready exactly when some asset is a package, its link is the first package's URL, and otherwise the verdict is "no package" with the release's tag |
| Release.SettleFailsIff | src/js/main.js:26-46 | the load fails exactly for a rejected fetch, a status outside 200-299, an undecodable body or a body without `assets` |
| Dom.Analytics.Send | src/js/main.js:115-119 | the analytics function receives the event, appended after those it already had |
| App.VoidDownload.constructor | src/js/main.js:2-9 | the controller holds the version label, the download button, its wrapper and the analytics function it was given |
| App.VoidDownload.Init | src/js/main.js:11-17 | after `init`, by verdict: ready shows "Versão tag" with `success`, the first package's link and an enabled button; no package appends " (APK não encontrado)" and dims and disables the button without touching the link; failure shows "Erro ao carregar versão" in `#ef4444` with the fallback's disabled, dimmed, not-allowed button. The loading class is gone, and the button's label is never written |
| App.VoidDownload.LoadLatestRelease | src/js/main.js:19-42 | the exception rethrown is the one the answer raises (none on ready and no package). On failure the fallback text, colour and button styling are in place. On every path the loading class is removed and nothing else of the class list changes except `success` on the ready paths |
| App.VoidDownload.UpdateUI | src/js/main.js:44-68 | a body without `assets` throws before any write. Otherwise the label gets the tag and `success`, then the button is enabled with the first package's link and a click listener for the tag, or is annotated as having no package |
| App.VoidDownload.SimulateFallback | src/js/main.js:70-78 | the fallback text and muted colour, with `aria-disabled="true"`, opacity 0.6 and a not-allowed cursor; nothing else changes |
| App.VoidDownload.ShowSuccess | src/js/main.js:80-81 | the wrapper gets the pulse animation |
| App.VoidDownload.ShowNoApkFound | src/js/main.js:89-93 | the label text gains the not-found note, the button gets `aria-disabled="true"` and opacity 0.6, and its link is untouched |
| App.VoidDownload.SetLoading | src/js/main.js:95-101 | the class list gains or loses exactly `loading`, and nothing else changes |
| App.VoidDownload.HandleError | src/js/main.js:103-107 | the label shows "Erro ao carregar versão" in `#ef4444`, and nothing else changes |
| App.VoidDownload.TrackDownload | src/js/main.js:109-121 | when an analytics function is present it receives one `download` event with category `APK`, the version as label and value 1; otherwise nothing happens |
| Device.ClassifyByOccurrence | src/js/main.js:185-197 | Android exactly when "android" occurs in the lower-cased agent (whatever else occurs); iPhone/iPad exactly when it does not and "iphone" or "ipad" does; otherwise unrecognised |
| Device.ClassifyIgnoresCase | src/js/main.js:186 | the classification does not depend on the case of the user agent |
| Device.DetectDevice | src/js/main.js:185-197 | Android changes only the button label; iPhone/iPad sets the unavailable label, `aria-disabled="true"`, opacity 0.6 and a not-allowed cursor; any other agent leaves the button unchanged |
| Page.OnDomContentLoaded | src/js/main.js:124-130 | with both listeners run, the button's label is the device label (the release flow never rewrites it). An iPhone/iPad visitor whose release has a package ends with an enabled, pointer-cursor, still dimmed button. Without a package, or on failure, the button stays disabled. A failed load always ends on the error label |

## Left out

- The real `fetch`, `response.json()` and `apiUrl`: network I/O. The answer is the input `FetchOutcome`.
- The one-second delay before the request and the 600 ms timer that clears the success animation: timers with no effect on the final state. The latter is the only way the animation is reset, so `ShowSuccess` leaves the animation set.
- `console.log` in `trackDownload` and `console.warn` in `handleError`: logging. `HandleError` takes the error but writes only the label.
- Dispatch of clicks: the model records each click listener that `updateUI` registers, by the tag it will pass to `TrackDownload`. It does not model the browser calling them.
- `addVisualEffects` (parallax, hover transforms, fade-in on scroll): cosmetic, floating-point and browser-observer code.
- `document.getElementById` and the `DOMContentLoaded` registration: the elements are passed in.
- Text.ToLower: lowers only the ASCII letters A-Z. JavaScript's `toLowerCase` also maps other Unicode letters, which can change the length of a string. This does not affect the three ASCII words looked for.
- Release.Asset: assumes every asset has a string `name` and the release a string `tag_name`. An asset without a name (where `endsWith` would throw) and a missing tag (shown as "undefined") are not modelled.
- Interleaving of the asynchronous load with other events: only the order of the two `DOMContentLoaded` listeners is modelled. `Page.OnDomContentLoaded` runs `DetectDevice` before all of `Init`. The constructor's `init` stops at its first `await` after adding the loading class, and that class is the only thing it has written by then. `detectDevice` writes only the button, so both orders reach the same state.
