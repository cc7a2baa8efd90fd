# TradingView Assistant input remapper, modelled in Dafny

The content script of this browser extension (`content.js`) remaps input on a
charting page:

- Alt+Up/Down zooms the price axis vertically.
- Plain Left/Right scrolls the chart sideways.
- Alt+drag and Alt+wheel zoom the price axis.
- Plain Up/Down and (Shift+)Space are kept from changing the chart's symbol.

Each remapping prevents the real event's default action. When the price axis
or chart wrapper is found, it also dispatches a replacement there. Every
remapping except Alt+Up/Down also stops the event's propagation. The two key
rules pass the key untouched when their target is not found. The mouse and
wheel remappings still swallow the real event, with nothing sent in its
place. Six
boolean options, read from synced storage, switch the gestures on and off.
Three session flags (`isDraggingAxis`, `wasDraggingAxis`, `wasWheelingAxis`)
carry a drag across events. They also swallow the one click that follows a
drag zoom and the one plain Alt release that follows a wheel zoom.

The model is a state machine over abstract events:

- `Settings` (settings.dfy): the `settings` object, as a map from property
  name to `Option<bool>` (`None` is `undefined`). It also holds the defaults,
  the start-up merge and the key-by-key change listener.
- `Events` (events.dfy): the event fields the listeners read, `isTextElement`,
  and the `Action` record. An action says whether `preventDefault` and
  `stopImmediatePropagation` were called and which replacement event was
  dispatched: its type, its target, its deltas, `altKey` and the
  `isRedirected` marker.
- `Keyboard` (keyboard.dfy): the keydown rule chain, as a pure function.
- `Mouse` (mouse.dfy): the mousedown, mousemove, mouseup, click, wheel and
  keyup listeners, as step functions over the three flags.
- `Session` (session.dfy): the whole script as one transition function over
  events and storage callbacks, run over traces. The lemmas about sequences of
  events live here: a click or an Alt release is swallowed exactly once, a
  whole drag session, marked events are ignored, and replacements never
  re-trigger a remapping.
- `ContentScript` (content_script.dfy): class `Remapper`. Its fields are the
  `settings` object and the three flags, and it has one method per listener.
  Each method is written imperatively, as the listener is, and proved equal
  to `Session.Step`, so the lemmas of `Session` hold of any sequence of calls.

`getMainChart` and `getMainPriceAxis` are oracles. Every input whose listener
looks up a target (keydown, mousedown, mousemove, mouseup and wheel) carries
what the lookup would find on the page. That result is an `Option<Box>`
holding the element's width and height.

Only the events sent through `dispatchToAxis` carry the `isRedirected`
marker (content.js:62). The Left/Right wheel event is dispatched at the chart
wrapper without it (content.js:97-105). `Session.SyntheticIsInert` shows that
this is harmless: that event has no Alt key, so the wheel listener lets it
pass.

The comment on the click listener (content.js:158) names both Alt+drag and
Alt+wheel zoom. The code tests only `wasDraggingAxis`, and only a mousemove
during a drag sets it (content.js:145). So a real click after an Alt+wheel
zoom reaches the page (`Session.ClickAfterWheelZoomPasses`). The model follows
the code. The wheel zoom's own trap is the plain Alt release (content.js:184).
A wheel turn produces no click of its own, so nothing shows that the code
rather than the comment is wrong.

In the same way, the Alt+wheel replacement carries no `altKey`, because its
init dictionary has none (content.js:174). The Alt+Up/Down replacement sets it
(content.js:83). The model keeps both as written.

The three keyboard rules never apply to the same event
(`Keyboard.GesturesDisjoint`). So the early-return order of the chain never
changes an outcome.

## Model

| member | source | states |
|---|---|---|
| `ContentScript.Remapper.constructor` | content.js:5-12 | at load all six options are present and `true` (lines 5-12), and all three session flags are `false` (lines 124-126) |
| `ContentScript.Remapper.Load` | content.js:14-16 | the storage read overwrites exactly the keys present in the fetched data and keeps every other property; no data means no change |
| `Settings.Merged` | content.js:14-16 | the merge's keys are the old keys plus the fetched ones; fetched keys hold the fetched value and every other key its prior value |
| `ContentScript.Remapper.OnChanged` | content.js:18-20 | the loop assigns each changed key in order and leaves every property that is not among the changed keys as it was, with the flags untouched |
| `Settings.Applied` | content.js:18-20 | applying a change set adds exactly the changed keys and keeps the value of every key that did not change |
| `Settings.AppliedSetsEach` | content.js:18-20 | with the distinct keys `Object.entries` yields, every changed key ends up holding its `newValue` |
| `Keyboard.KeyDown` | content.js:67-121 | typing in a text target is never intercepted; the key is prevented exactly when a rule applies and finds its target, and is otherwise left alone |
| `Keyboard.GesturesDisjoint` | content.js:72-120 | no event satisfies two of the three rules, so first-match order is immaterial |
| `Keyboard.AltArrowZoom` | content.js:73-87 | Alt-only Up/Down with key zoom on ends processing: without an axis it passes; with one it is prevented but not stopped, and a marked wheel event with Alt set and deltaY of minus (Up) or plus (Down) half the axis height goes to the axis |
| `Keyboard.ArrowPan` | content.js:89-108 | unmodified Left/Right with navigation on ends processing: without a chart it passes; with one it is prevented and stopped, and a wheel event with deltaY 0 and deltaX of minus (Left) or plus (Right) a sixth of the chart width goes to the chart |
| `Keyboard.SymbolKeysBlocked` | content.js:110-120 | a key is swallowed with nothing dispatched exactly when it is plain Up/Down with that option on, or Space without Alt/Ctrl/Meta with that option on; Alt+Up/Down never is |
| `ContentScript.Remapper.KeyDown` | content.js:67-121 | the keydown listener reads the settings, changes no field and returns the rule chain's action |
| `Mouse.DragStart` | content.js:128-139 | a real, non-text, Alt-only, primary-button press with drag zoom on starts a drag even when no axis is found, and is prevented and stopped; any other press changes nothing and passes |
| `ContentScript.Remapper.MouseDown` | content.js:128-139 | the mousedown listener updates the fields and returns the action as `Session.Step` prescribes |
| `Mouse.MoveAndReleaseOnlyWhileDragging` | content.js:141-155 | moves and releases do nothing unless a drag is on and the event is real; then a move marks the drag as moved and a release ends it, and each is prevented, stopped and replayed on the axis as mousemove or mouseup when an axis is found |
| `ContentScript.Remapper.MouseMove` | content.js:141-147 | the mousemove listener updates the fields and returns the action as `Session.Step` prescribes |
| `ContentScript.Remapper.MouseUp` | content.js:149-155 | the mouseup listener updates the fields and returns the action as `Session.Step` prescribes |
| `ContentScript.Remapper.Click` | content.js:157-164 | the click listener updates the fields and returns the action as `Session.Step` prescribes |
| `Mouse.AltWheelZoom` | content.js:166-177 | a real, non-text, Alt-only wheel turn with wheel zoom on arms the Alt-release trap and is swallowed; a marked wheel event with five times its deltaY and deltaMode 0 goes to the axis if found; any other turn passes |
| `ContentScript.Remapper.Wheel` | content.js:166-177 | the wheel listener updates the fields and returns the action as `Session.Step` prescribes |
| `ContentScript.Remapper.KeyUp` | content.js:179-190 | the keyup listener updates the fields and returns the action as `Session.Step` prescribes |
| `Session.RedirectedIgnored` | content.js:128-190 | a trace of marked mouse, click, wheel and keyup events leaves the whole state unchanged and passes every event |
| `Session.FlagSources` | content.js:124-190 | only a mousedown sets `isDraggingAxis`, only a mousemove sets `wasDraggingAxis`, only a wheel turn sets `wasWheelingAxis` |
| `Session.QuietClicks` | content.js:157-164 | with `wasDraggingAxis` clear, no click is swallowed in any trace without a mousemove, and the flag stays clear |
| `Session.ClickSuppressedOnce` | content.js:157-164 | a real click is swallowed exactly when the click trap is armed, and no later click is until another mousemove |
| `Session.QuietAltReleases` | content.js:179-190 | with `wasWheelingAxis` clear, no keyup is swallowed in any trace without a wheel turn, and the flag stays clear |
| `Session.AltReleaseSuppressedOnce` | content.js:179-190 | a real plain Alt release is swallowed exactly when the Alt-release trap is armed, and no later keyup is until another wheel turn |
| `Session.FlagClears` | content.js:157-190 | only a real click clears `wasDraggingAxis` and only a real plain Alt release clears `wasWheelingAxis`; every other event leaves an armed trap armed |
| `Session.DragFlagPersists` | content.js:157-164 | an armed click trap survives any trace without a real click |
| `Session.WheelFlagPersists` | content.js:179-190 | an armed Alt-release trap survives any trace without a real plain Alt release, such as a Shift keyup or Alt released with Ctrl held |
| `Session.NextClickAfterMove` | content.js:141-164 | after a real move during a drag, with any events in between, the next real click is swallowed and no later click is until another move |
| `Session.NextAltReleaseAfterWheel` | content.js:166-190 | after an Alt wheel zoom, with any events in between, the next real plain Alt release is swallowed and no later keyup is until another wheel turn |
| `Session.ClickAfterWheelZoomPasses` | content.js:157-177 | with no moved drag pending, a real click right after an Alt wheel zoom is passed to the page |
| `Session.MovesWhileDragging` | content.js:141-147 | during a drag every real move is swallowed and replayed on the axis, and after at least one move the drag counts as moved |
| `Session.DragSession` | content.js:128-164 | press, moves and release of an Alt drag are each swallowed and replayed on the axis as mousedown, mousemove and mouseup; afterwards no drag is on and the following click is swallowed, clearing the flag |
| `Session.SyntheticIsInert` | content.js:51-177 | every replacement event, re-entering the listeners in the state its dispatcher left, is passed through and changes nothing, so no remapping recurses |

## Left out

- Pixel geometry: `clientX`/`clientY` of the replacement events and the
  fallback `origEv.clientY || rect centre` are not modelled. Deltas use exact
  `real` arithmetic, not floating point.
- `getMainChart`/`getMainPriceAxis` DOM traversal (content.js:23-46): both are
  oracles. Their results are attached to each event as an `Option<Box>`.
- Known defect in the locator, recorded but not modelled:
  `getMainChart(el).parentElement` (content.js:43) throws when no chart is
  found, and `bothAxes[1]` (content.js:44) throws when the parent chain is
  missing. In the mouse and wheel listeners every such throw happens after
  the listener has already changed the flags and called
  `preventDefault`/`stopImmediatePropagation`, so there it looks the same as
  "not found" from outside, apart from the console error. In rule 1 the first
  lookup (content.js:75) throws before anything is done, which also matches
  "not found". The second lookup (content.js:52) comes after
  `e.preventDefault()` (content.js:77). A throw there leaves the key prevented
  with nothing dispatched, which the model does not represent (next line).
- Rule 1 looks up the axis twice: once with no element (content.js:75) and
  once from the event target inside `dispatchToAxis` (content.js:52). The
  model uses one oracle for both lookups. If the second lookup finds nothing
  or throws, the real code prevents the key and dispatches nothing. The model
  does not represent that case.
- Ordering of the asynchronous `chrome.storage` callbacks relative to events:
  they are inputs of the trace (`OnLoad`, `OnStorageChange`) in whatever
  order they arrive.
- Capture-phase registration, `passive: false`, bubbling and real
  `dispatchEvent` semantics are not modelled. The model dispatches
  synchronously and re-enters only the script's own listeners
  (`Session.SyntheticIsInert`).
- Stored values other than booleans: storage values are modelled as booleans,
  and `undefined` appears only as a change's missing `newValue`.
- The storage read asks for the six keys only. `Settings.Merged` accepts any
  keys, as `Object.assign` does.
- settings.js (the options page) is not part of this model. It is DOM
  hydration and storage writes, and it restates the same six names with the
  same default of `true`.
- `console.log`/`console.error` output.
