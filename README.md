# Judge0 clone IDE front end — a Dafny model

This project models the logic inside the single page script of a browser
front end for a Judge0-style code runner (`frontend/script.js`). The user picks a
language, edits code in an embedded Monaco editor, runs it through a remote
execution service, toggles a light/dark theme and drags two gutters to
resize the panes. The model covers the parts of the event handlers whose
behaviour can be stated exactly:

- `catalog.dfy` (module `Catalog`): the language table, the sample programs,
  the id → editor-mode classifier and the "sample or empty string" lookup.
- `selector.dfy` (module `Selector`): the selector's change handler.
- `run.dfy` (module `Run`): the run button. The service's reply is a record
  of optional fields. Failures are a message. The model covers the
  synchronous "running" feedback, the request body, and the rendering of the
  output, status, time and memory lines.
- `theme.dfy` (module `Theme`): the theme toggle on the body's and the
  icon's class lists, and the editor theme it forwards.
- `resize.dfy` (module `Resize`): the two resize handles. It holds the flags
  `isResizingH`/`isResizingV`, the cursor hint, the clamped pane sizes, a
  step function over mouse events and a replay of event sequences.
- `monaco.dfy` (module `Monaco`): the observable state of the editor widget
  (text, mode, theme, number of layout requests). It is a foreign library,
  so only the effects of the calls the page makes are recorded.
- `js.dfy` (module `Js`): the JavaScript semantics the script relies on:
  absent values, truthiness for `||`, nullishness for `??`, and the text of
  an integral number in string concatenation.

The global `editor` is `undefined` until Monaco has loaded. Every handler
therefore takes an `Editor?`, and `null` stands for "not loaded yet".

Points of the code a reader might not expect, which the model keeps:
- The status line uses `||`, so an empty description also shows "done",
  while time and memory use `??`, so `0` and `""` are shown as they are.
- The `#gutterV` move handler does not ask the editor for a layout pass. Only
  the `#gutter` move handler and the mouse-up handler do (`LayoutRequests`).
- Nothing keeps the two resize flags exclusive. A press on the second gutter
  before a release of the first sets both, and one move then resizes both
  panes (`Resize.BothFlagsReachable`).
- In a container narrower than 540 px (or a right pane lower than 160 px)
  the upper bound of the clamp wins over the lower one. Below 320 px (or
  80 px) the computed size is negative. The browser rejects a negative CSS
  length, so the pane leaves the flex layout but keeps its previous inline
  size (`Resize.CssLength`).

## Model

| member | source | states |
|---|---|---|
| `Catalog.LanguageIdsListed` | frontend/script.js:7-18 | the offered ids are 71, 63, 54, 62, 50, 68, 72, 73, 60 and 74 |
| `Catalog.LanguageIdsUnique` | frontend/script.js:7-18 | no two options share an id |
| `Catalog.IdToMonacoLang` | frontend/script.js:58-70 | the mode is never empty; it is "javascript" exactly for 63 and 74; it is "plaintext" exactly for ids outside the language table |
| `Catalog.ModesOfCatalog` | frontend/script.js:58-70 | 71 is "python"; two different offered ids share a mode only when they are 63 and 74, so the other eight offered ids each have a mode of their own |
| `Catalog.SampleEntry` | frontend/script.js:76 | `samples[id]`: the sample when the table has one, absent otherwise |
| `Catalog.SampleOrEmpty` | frontend/script.js:76 | the text is the sample for an id with a sample, and "" for an id without one |
| `Catalog.SamplesCoverLanguages` | frontend/script.js:7-41 | the ids with a sample are exactly the offered ids |
| `Catalog.SelectionText` | frontend/script.js:30-41 | for an offered id the editor text becomes exactly its sample, which is non-empty; for any other id it becomes "" |
| `Monaco.Editor.Create` | frontend/script.js:47-55 | the created editor holds the Python sample, in mode "python", theme "vs-dark", with no layout requested |
| `Monaco.CreatedEditorMatchesFirstOption` | frontend/script.js:7-8 | the created editor's text and mode are what selecting the first option (71) would set |
| `Monaco.Editor.SetValue` | frontend/script.js:76 | only the text changes, to the given value |
| `Monaco.Editor.SetModelLanguage` | frontend/script.js:77-78 | only the mode changes, to the given value |
| `Monaco.Editor.SetTheme` | frontend/script.js:127-131 | only the theme changes, to the given value |
| `Monaco.Editor.Layout` | frontend/script.js:115 | one more layout pass is requested; text, mode and theme are unchanged |
| `Selector.OnLanguageChange` | frontend/script.js:73-80 | with a loaded editor, the text becomes the id's sample or "", and the mode becomes the id's mode; theme and layouts are unchanged |
| `Js.DecimalString` | frontend/script.js:109-110 | the decimal text of a number is a non-empty digit string with no leading zero |
| `Js.DecimalRoundTrip` | frontend/script.js:109-110 | reading the decimal text of n back gives n |
| `Js.NumberToString` | frontend/script.js:109-110 | an integral number is shown as its decimal digits without leading zeros ("0" for zero), after "-" when negative, and the digits read back to its magnitude |
| `Js.ScalarText` | frontend/script.js:109-110 | the text a number or string field turns into when concatenated to a label |
| `Js.Truthy` | frontend/script.js:106-108 | the truthiness `\|\|` tests on a string field: absent and "" are falsy |
| `Js.Or` | frontend/script.js:106-108 | `a \|\| b`: `a` when truthy, else `b` |
| `Js.Nullish` | frontend/script.js:109-110 | `a ?? b`: `a` when present, even 0 or "", else `b` |
| `Run.FirstTruthy` | frontend/script.js:106 | the result is the first non-empty candidate, or the fallback when none is non-empty |
| `Run.OutputText` | frontend/script.js:106-107 | the output text is never empty |
| `Run.Description` | frontend/script.js:108 | `data.status?.description`: absent when `status` is absent |
| `Run.StatusText` | frontend/script.js:108 | the status line is "Status: " followed by a non-empty text |
| `Run.TimeText` | frontend/script.js:109 | "Execution time: " followed by the time, or "-" when absent |
| `Run.MemoryText` | frontend/script.js:110 | "Memory: " followed by the memory, or "-" when absent |
| `Run.OutputIsFirstNonEmpty` | frontend/script.js:106 | the output is the first non-empty of stdout, stderr and compile output, in that order, else "(no output)" |
| `Run.StatusLine` | frontend/script.js:108 | the status is "Status: " + description when the description is non-empty, else "Status: done" (also when `status` is absent) |
| `Run.TimeAndMemoryLines` | frontend/script.js:109-110 | time and memory show "-" only when absent; a present value, 0 included, is shown |
| `Run.Render` | frontend/script.js:105-113 | the output is never empty; a failure keeps the time and memory lines |
| `Run.FailureLines` | frontend/script.js:111-114 | a failure shows "Error: " + message and "Status: error" and keeps time and memory |
| `Run.EmptyReplyRendering` | frontend/script.js:106-110 | empty outputs, an empty status object and absent time and memory show "(no output)", "Status: done", "-", "-" |
| `Run.StdoutOnlyRendering` | frontend/script.js:106-107 | a reply with only a non-empty stdout shows exactly that stdout |
| `Run.RunPanel.constructor` | frontend/script.js:84-88 | the panel starts with the texts the page's elements hold |
| `Run.RunPanel.Start` | frontend/script.js:91-97 | before the request leaves, output and status read "Running..." and "Status: running..."; time and memory are kept; the request carries the editor text ("" without an editor), the id and stdin |
| `Run.RunPanel.Finish` | frontend/script.js:105-115 | the panel shows the rendering of the reply or failure; a loaded editor gets one layout request and no other change |
| `Run.RunPanel.OnRunClick` | frontend/script.js:90-116 | a click shows the rendering of the service's answer to the request, rendered over the running feedback |
| `Theme.ToggleClass` | frontend/script.js:123 | the class is present afterwards exactly when it was absent before; no other class changes |
| `Theme.Toggled` | frontend/script.js:123-131 | the class lists after one click: "light-theme" toggled on the body, then the sun or the moon glyph swapped in on the icon |
| `Theme.ToggleFlips` | frontend/script.js:122-133 | a click flips light mode; the icon then shows the sun with "vs" in light mode and the moon with "vs-dark" in dark mode; no other class changes |
| `Theme.ToggleTwice` | frontend/script.js:122-133 | from any page, two clicks restore the body classes and the editor theme; from a page whose icon matches its theme they also restore the icon classes |
| `Theme.ToggleTwiceAfterFirstClick` | frontend/script.js:122-133 | from any starting page, the third click restores the state left by the first |
| `Theme.ThemeToggle.constructor` | frontend/script.js:119-120 | the body and icon start with the class lists of the page |
| `Theme.ThemeToggle.Toggle` | frontend/script.js:122-133 | the class lists become their toggled value; a loaded editor gets the matching theme and nothing else |
| `Resize.Clamp` | frontend/script.js:164-165 | raising to the lower bound, then lowering to the upper one, gives at most the upper bound, at least the lower bound when the bounds are ordered, and the upper bound when they cross |
| `Resize.ClampProperties` | frontend/script.js:162-165 | with ordered bounds the clamp is the nearest value of the range and keeps in-range values; it is idempotent |
| `Resize.LeftWidth` | frontend/script.js:158-165 | the pointer's offset from the container's left edge, clamped to [220, width − 320] |
| `Resize.OutputHeight` | frontend/script.js:192-198 | the pointer's offset from the right pane's top, clamped to [80, height − 80] |
| `Resize.LeftWidthBounds` | frontend/script.js:158-165 | the width is at most width − 320; at least 220 when width ≥ 540; exactly width − 320 (below 220) otherwise; non-negative exactly when width ≥ 320; in-range offsets kept |
| `Resize.OutputHeightBounds` | frontend/script.js:192-198 | the height is at most height − 80; at least 80 when height ≥ 160; exactly height − 80 otherwise; non-negative exactly when height ≥ 80; in-range offsets kept |
| `Resize.CssLength` | frontend/script.js:168 | assigning a pixel length to a style property: a negative length is rejected and the previous value stays |
| `Resize.MoveH` | frontend/script.js:156-172 | the `#gutter` move listener: nothing without its flag; with it, the editor pane leaves the flex layout and takes the clamped width |
| `Resize.MoveV` | frontend/script.js:190-203 | the `#gutterV` move listener: nothing without its flag; with it, the output section leaves the flex layout and takes the clamped height |
| `Resize.Step` | frontend/script.js:150-203 | the state after a press on either gutter, a release, or a move (both move listeners, `#gutter`'s first) |
| `Resize.LayoutRequests` | frontend/script.js:171-179 | an event asks the editor for at most one layout pass, and exactly one on a move during a `#gutter` drag or on a release ending a drag |
| `Resize.Replay` | frontend/script.js:150-203 | the state after a sequence of events, one step each |
| `Resize.PressSetsOnlyItsFlag` | frontend/script.js:150-188 | a press on a gutter sets that gutter's flag and cursor ("col-resize" / "row-resize") and changes nothing else |
| `Resize.MoveRespectsFlags` | frontend/script.js:156-203 | a move never changes flags or cursor; a pane changes only when its flag is set, and then leaves the flex layout and takes the clamped size, or keeps its size when that is negative |
| `Resize.ReleaseClears` | frontend/script.js:174-181 | a release clears both flags and the cursor; with neither flag set it changes nothing; nothing else changes |
| `Resize.MovesWhileIdleChangeNothing` | frontend/script.js:156-203 | any sequence of moves with both flags clear leaves the state unchanged |
| `Resize.MovesAfterReleaseChangeNothing` | frontend/script.js:174-203 | after a release, no sequence of moves resizes anything |
| `Resize.MovesKeepFlags` | frontend/script.js:156-203 | no sequence of moves changes the flags or the cursor |
| `Resize.DragFollowsLastMove` | frontend/script.js:156-172 | during a `#gutter` drag the flag stays set and the editor pane is out of the flex layout; its width is the clamped width of the latest move, or the earlier width when that one is negative |
| `Resize.BothFlagsReachable` | frontend/script.js:146-203 | pressing both gutters without a release sets both flags, and one move then resizes both panes |
| `Resize.Resizer.constructor` | frontend/script.js:146-147 | at load no flag is set, there is no cursor hint and no size is fixed |
| `Resize.Resizer.OnGutterMouseDown` | frontend/script.js:150-154 | the new state is the press step for `#gutter` |
| `Resize.Resizer.OnGutterVMouseDown` | frontend/script.js:184-188 | the new state is the press step for `#gutterV` |
| `Resize.Resizer.OnMouseMoveH` | frontend/script.js:156-172 | the state is the `#gutter` move step (a negative width is rejected); a loaded editor gets a layout request exactly when the flag was set |
| `Resize.Resizer.OnMouseMoveV` | frontend/script.js:190-203 | the state is the `#gutterV` move step (a negative height is rejected) |
| `Resize.Resizer.OnMouseMove` | frontend/script.js:156-203 | one move runs both listeners; the state is the move step, and the layout requests are counted by `LayoutRequests` |
| `Resize.Resizer.OnMouseUp` | frontend/script.js:174-181 | the state is the release step; a loaded editor gets a layout request exactly when a drag was in progress |

## Left out

- The network call (`fetch`, the JSON body, `res.json()`) and the endpoint. The service is a parameter: `OnRunClick` takes it as a function from request to `Reply`, and `Finish` takes the reply. Every thrown error (network failure, bad JSON, a `null` body) is a `Failed(message)`. The endpoint constant is commented out in the source, so in the deployed page every run takes the failure path.
- Loading Monaco through AMD `require` and its CDN path. Loading is reduced to "the editor is null or not".
- Filling the selector with options (frontend/script.js:21-27). The selector's value is always one of the table's ids, so it is an `int` and the `Number(...)` conversion is not modelled.
- `preventDefault` on the gutter presses, `getBoundingClientRect` and the CSS strings. Geometry enters as integer inputs. A pane's flex string is reduced to "taken out of the flex layout or not" (`leftFixed`, `outputFixed`). Its inline size is `Some(n)` for an accepted length of `n` pixels and `None` before any.
- The window `resize` listener (frontend/script.js:205-207). It only asks the editor for a layout pass.
- Overlapping run clicks and which response arrives last. `Start` and `Finish` are the two halves of a click, and another click may fall between them. Their interleaving is not modelled.
- Js.NumberToString: covers integers only. Fractional numbers and the exponent notation JavaScript uses from 1e21 on are not modelled. Reply fields that are neither strings nor numbers are not modelled either.
- Theme.ThemeToggle.Toggle: before Monaco has loaded, the real call to set the theme throws after the class lists have changed. The model changes only the class lists. The editor created later still starts in "vs-dark".
- The initial texts of the status, output, time and memory elements and the initial class lists come from the HTML page. That page is not part of this model, so the constructors take them as parameters.
