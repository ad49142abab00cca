# Smooth Scroll Chrome — a verified model of the scroll engine and widget

Smooth Scroll Chrome is a browser extension that scrolls a page, or one
scrollable element of it, slowly and automatically. Its content script keeps a
small state machine: running or not, paused or not, a speed in pixels per
display frame, an animation-frame handle, a target (the whole page or an
element), and a sub-pixel accumulator. Every display frame a tick adds the
speed to the accumulator, scrolls the target by the whole pixels gathered, and
schedules the next frame. The run stops by itself at the scroll limit. A
floating widget on the page drives the same engine. It lets the user pick the
scrollable element under the pointer, and it can be dragged.

This project models that core in Dafny and proves properties of it.

- **Page (`dom.dfy`, module `Dom`).** The attached elements, with their layout
  metrics, computed `overflow-y` and `parentElement`. Also the window's scroll
  offset, `getScrollPosition`, and the host's `scrollTo`/`scrollBy`, which
  clamp the offset into the scrollable range.
- **Labels (`labels.dfy`).** The target label rule, `#id`, else
  `.firstClass`, else the lower-cased tag name. The content script and the
  widget share it.
- **Scrollability (`scrollability.dfy`).** `isScrollable`,
  `isPageScrollable`, and the candidate list of `findScrollableElements`. The
  list is built by a loop over the elements in document order.
- **Accumulator (`accumulator.dfy`).** The sub-pixel step, and the exact
  distance covered over `n` ticks.
- **Engine spec (`engine_spec.dfy`).** The engine as a state machine on
  values: one function per command, the tick, and the state query. The host
  around the engine is part of the state: the page, the set of scheduled
  animation-frame callbacks with the next handle, and the log of dispatched
  `smoothscroll:*` events.
- **Engine properties (`engine_props.dfy`).** What each command does. It also
  holds the invariant every command and frame keeps: paused implies running,
  the remainder lies in [0, 1), the speed is a reachable one, and exactly one
  callback is scheduled exactly while the engine runs unpaused.
- **Engine runs (`engine_run.dfy`).** The exact outcome of `n` frames. It
  proves that every run ends within `25 × room + 1` frames on a page that
  only the engine changes between frames. It also works
  through a 1000-pixel page: offset 500 after 1250 frames, `ended` at frame 1251.
- **Engine class (`engine.dfy`).** Class `ScrollEngine`, whose fields are the
  script's variables plus the host. Each method performs the script's
  statements in place and is proved to produce the state the matching
  value-level function computes.
- **Widget (`widget.dfy`).** The ancestor walk `findScrollableFromTarget`, the
  drag clamp, and show/hide/toggle. Class `FloatingWidget` keeps the widget's
  position, drag state and display.

Speeds and the accumulator are modelled as exact `real`s. Pixel offsets and
extents are `int`, and the widget's coordinates are `real`. The browser's
animation-frame scheduling becomes the explicit `Frame` step: the host takes
the one scheduled callback off its queue and runs `scrollStep`. The model
chooses that an element no longer attached reports zero extent and no parent
(a browser reports zero extent but may keep `parentElement` when an ancestor
was removed). A tick aimed at such an element therefore ends the run.

## Model

| member | source | states |
|---|---|---|
| Dom.ScrollPosition | content/content.js:90-101 | a detached element reports position 0 with limit 0; the page reads `scrollY`, falling back to the root's `scrollTop`, with the limit taken against the viewport height |
| Dom.ScrollTo | content/content.js:224-228 | the host's `scrollTo` keeps the limit, puts the offset at the request clamped into [0, max(0, limit)], leaves a detached element alone, changes no other element, and leaves the window's `scrollY` and viewport height alone when the target is an element |
| Dom.ScrollBy | content/content.js:128-138 | the host's `scrollBy` keeps the limit; from below the limit, a forward move lands at the current offset plus the distance, capped at the limit |
| Scrollability.IsScrollable | content/content.js:29-37 | `isScrollable`: false for the page, the body and the root; otherwise taller content than the box and `overflow-y` of `scroll` or `auto`; its consequences are stated by ScrollableHasRoom |
| Scrollability.IsPageScrollable | content/content.js:42-44 | `isPageScrollable`: the root is taller than the viewport; stated as a scroll range by PageScrollableIffRoom |
| Scrollability.ScrollableHasRoom | content/content.js:29-37 | a scrollable target is an attached element other than the body and the root, and its limit is positive |
| Scrollability.PageScrollableIffRoom | content/content.js:42-44 | the page counts as scrollable exactly when its scroll limit is positive |
| Scrollability.ElementEntriesSound | content/content.js:63-82 | every element entry belongs to a scrollable element of the scanned elements and carries that element's label |
| Scrollability.ElementEntriesComplete | content/content.js:63-82 | every scrollable scanned element has its entry |
| Scrollability.CandidateListShape | content/content.js:49-85 | the page entry is first exactly when the page scrolls and appears nowhere else; all other entries are those of exactly the scrollable elements |
| Scrollability.FindScrollableElements | content/content.js:49-85 | the loop over the elements builds the candidate list, with the page-entry, soundness and completeness properties above |
| Labels.ToLower | content/content.js:66 | same length; each upper-case ASCII letter becomes its lower-case counterpart (code point plus 32), so none remains; other characters are kept |
| Labels.FirstClassToken | content/widget.js:306 | the first space-separated token is a prefix of the class name with no space, ending at the end or at a space |
| Labels.ElementLabel | content/content.js:66-74 | the label of an element; its rules are stated by LabelRules and LabelKindFromFirstChar |
| Labels.GetElementLabel | content/widget.js:300-311 | `getElementLabel`, with `null` as the whole page; its rules are stated by LabelRules |
| Labels.LabelRules | content/widget.js:300-311 | a missing element (`null`) gives "Whole Page"; a non-empty id wins (`#id`); then a non-empty first class token (`.token`), only for a string `className`; otherwise the lower-cased tag name |
| Labels.LabelKindFromFirstChar | content/content.js:66-74 | for any tag name starting with an ASCII letter (custom elements included), the label's first character tells which rule made it (`#` exactly for an id, `.` exactly for a class token, a lower-case letter for the tag) and the rest reads back as the id, the first class token, or the lower-cased tag name |
| Accumulator.AccStep | content/content.js:121-125 | one tick conserves distance (remainder plus pixels equals the old remainder plus the speed), moves the floor of the sum, keeps a remainder in [0, 1), and moves at all exactly when the sum reaches one pixel |
| Accumulator.AccumulateExact | content/content.js:120-139 | over `n` ticks from a remainder in [0, 1), the pixels moved are the floor of the exact distance and the remainder is the rest |
| Accumulator.TotalAdvanceFromFreshStart | content/content.js:156 | after a start, `n` ticks move exactly `floor(n × speed)` pixels |
| Accumulator.TenTicksAtMediumSpeed | content/content.js:10 | ten ticks at the default 0.4 move 4 pixels |
| EngineSpec.StartScroll | content/content.js:148-160 | `startScroll`, whose target defaults to `null`: a call without an element (`Start(WholePage)`) aims the engine back at the whole page even when an element was set; its effect is stated by StartScrollNoOpWhenActive, StartScrollIdempotent and StartScrollEffect |
| EngineSpec.PauseScroll | content/content.js:165-176 | `pauseScroll`; stated by PauseScrollEffect and PauseResumeSymmetry |
| EngineSpec.ResumeScroll | content/content.js:181-189 | `resumeScroll`; stated by ResumeScrollEffect and PauseResumeSymmetry |
| EngineSpec.ToggleScroll | content/content.js:194-202 | `toggleScroll`; stated by ToggleScrollCases and ToggleTwiceWhileActive |
| EngineSpec.StopScroll | content/content.js:207-216 | `stopScroll`; stated by StopScrollEffect |
| EngineSpec.ResetScroll | content/content.js:221-230 | `resetScroll`; stated by ResetScrollEffect |
| EngineSpec.SetSpeedPreset | content/content.js:235-242 | `setSpeedPreset`; stated by SetSpeedPresetEffect |
| EngineSpec.SetSpeedMultiplier | content/content.js:247-253 | `setSpeedMultiplier`; stated by SetSpeedMultiplierEffect |
| EngineSpec.SetTargetElement | content/content.js:258-274 | `setTargetElement`; stated by SetTargetElementEffect |
| EngineSpec.ScrollStep | content/content.js:106-143 | `scrollStep`; stated by ScrollStepInactive, ScrollStepAtLimit and ScrollStepAdvance |
| EngineSpec.Frame | content/content.js:142 | the host running the one scheduled callback; stated by FrameKeepsInv and FramesOutcome |
| EngineSpec.GetState | content/content.js:279-288 | `getState`; stated by ReportedMultiplierRange and SetSpeedMultiplierEffect |
| EngineSpec.ClampMultiplier | content/content.js:248 | the multiplier is clamped into [0.1, 1]: kept inside the range, cut to the nearer bound outside it |
| EngineProps.AtMostOneTickPending | content/content.js:142 | under the invariant at most one callback is scheduled, and one is scheduled exactly while running unpaused |
| EngineProps.InitialIsValid | content/content.js:8-13 | the load-time state keeps the invariant, is stopped, and runs at the medium preset |
| EngineProps.StartScrollNoOpWhenActive | content/content.js:149-151 | start on an active engine changes nothing |
| EngineProps.StartScrollIdempotent | content/content.js:148-160 | starting twice, with any targets, is starting once |
| EngineProps.StartScrollEffect | content/content.js:153-159 | an effective start runs unpaused on the given target with a fresh remainder and one callback, appends `started`, and keeps speed and page |
| EngineProps.PauseScrollEffect | content/content.js:165-176 | pause ignores a stopped engine; otherwise it pauses, cancels the callback, appends `paused`, and keeps target, speed, remainder and page |
| EngineProps.ResumeScrollEffect | content/content.js:181-189 | resume acts only when running and paused; it then schedules one callback and appends `resumed`, keeping the rest |
| EngineProps.PauseResumeSymmetry | content/content.js:165-189 | pause then resume of an active run gives back the same engine with one new callback, after `paused` and `resumed` |
| EngineProps.ToggleScrollCases | content/content.js:194-202 | toggle starts an idle engine on its current target, resumes a paused one, and pauses an active one |
| EngineProps.ToggleTwiceWhileActive | content/content.js:194-202 | two toggles of an active engine are a pause then a resume |
| EngineProps.StopScrollEffect | content/content.js:207-216 | stop, between frames or inside the tick, leaves the engine idle with nothing scheduled, appends `stopped`, and keeps target, speed, remainder and page |
| EngineProps.ResetScrollEffect | content/content.js:221-230 | reset leaves the engine idle, at offset 0 on a page or attached target, after `stopped` then `reset` |
| EngineProps.SetSpeedPresetEffect | content/content.js:235-242 | the three presets set 0.2, 0.4 or 0.6 and append `speedchanged` with the preset; any other name changes nothing |
| EngineProps.SetSpeedMultiplierEffect | content/content.js:247-253 | the speed becomes 0.4 times the clamped multiplier; the state query reports exactly the clamped value; runs, pause and target are untouched |
| EngineProps.ReportedMultiplierRange | content/content.js:279-288 | the reported multiplier is the speed over 0.4, between 0.1 and 1.5, and paused is reported only while running |
| EngineProps.SetTargetElementEffect | content/content.js:258-274 | the target is replaced with running and paused kept; an active run passes through `paused` and `resumed` and ends with one callback; `targetchanged` comes last |
| EngineProps.ScrollStepInactive | content/content.js:107-109 | the tick does nothing unless running and unpaused |
| EngineProps.ScrollStepAtLimit | content/content.js:111-118 | at or past the limit the tick stops the engine, schedules nothing, and appends `stopped` then `ended` |
| EngineProps.ScrollStepAdvance | content/content.js:120-142 | below the limit the tick moves the target by the floor of remainder plus speed (capped at the limit), keeps the fraction, and schedules one callback |
| EngineProps.FrameKeepsInv | content/content.js:106-143 | a display frame keeps the invariant and leaves an idle or paused engine alone |
| EngineProps.ApplyKeepsInv | content/content.js:290-307 | every command of the exposed API, and a frame, keeps the invariant |
| EngineProps.RunKeepsInv | content/content.js:148-274 | any sequence of commands and frames keeps the invariant: paused implies running, at most one callback scheduled |
| EngineRun.FramesOutcome | content/content.js:106-143 | after `n` frames of an active run below the limit: still running, nothing dispatched, the target at its start plus the floor of `acc + n × speed` capped at the limit; once a tick met the limit: idle, with exactly `stopped` and `ended` added |
| EngineRun.IdleStaysIdle | content/content.js:107-109 | once idle, further frames change nothing |
| EngineRun.EventuallyEnds | content/content.js:113-118 | on a page nothing but the engine changes, every active run stops itself within `25 × room + 1` frames; `ended` is dispatched exactly once and nothing is left scheduled |
| EngineRun.FreshRunAdvance | content/content.js:120-142 | from a remainder of 0, while no tick has met the limit, `n` frames leave the target at its start plus exactly `floor(n × speed)` pixels, capped at the limit |
| EngineRun.StartedRunAdvance | content/content.js:148-160 | after `startScroll` from an idle or paused engine, the speed is kept and `n` frames move the target exactly `floor(n × speed)` pixels (capped) while no tick has met the limit |
| EngineRun.SlowestSpeedCoversRoom | content/content.js:23 | at the slowest reachable speed (0.4 × 0.1), 25 frames per pixel of room reach the limit |
| EngineRun.MediumSpeedScenario | content/content.js:106-160 | on a 1000-pixel page in a 500-pixel viewport at 0.4: offset 500 and still running after 1250 frames; stopped, with `started`, `stopped`, `ended`, after 1251 |
| Engine.ScrollEngine.constructor | content/content.js:8-13 | the load-time state: stopped, speed 0.4, whole page, remainder 0 |
| Engine.ScrollEngine.StartScroll | content/content.js:148-160 | performs `startScroll`'s statements in place, reaching the value-level start's state and keeping the invariant |
| Engine.ScrollEngine.PauseScroll | content/content.js:165-176 | in place, the value-level pause; keeps the invariant |
| Engine.ScrollEngine.ResumeScroll | content/content.js:181-189 | in place, the value-level resume; keeps the invariant |
| Engine.ScrollEngine.ToggleScroll | content/content.js:194-202 | in place, the value-level toggle, by calling the three methods above |
| Engine.ScrollEngine.StopScroll | content/content.js:207-216 | in place, the value-level stop, also from inside the tick; restores the invariant |
| Engine.ScrollEngine.ResetScroll | content/content.js:221-230 | in place, the value-level reset; keeps the invariant |
| Engine.ScrollEngine.SetSpeedPreset | content/content.js:235-242 | in place, the value-level preset change; keeps the invariant |
| Engine.ScrollEngine.SetSpeedMultiplier | content/content.js:247-253 | in place, the value-level multiplier change; keeps the invariant |
| Engine.ScrollEngine.SetTargetElement | content/content.js:258-274 | in place, the value-level target change, including the pause and resume around it |
| Engine.ScrollEngine.ScrollStep | content/content.js:106-143 | the tick in place (guard, limit check, accumulate, scroll, reschedule), equal to the value-level tick, re-establishing the invariant |
| Engine.ScrollEngine.Frame | content/content.js:142 | the host running the scheduled callback, equal to the value-level frame |
| Engine.ScrollEngine.GetState | content/content.js:279-288 | the report: paused only while running; multiplier times 0.4 is the speed, within [0.1, 1.5]; the position is the target's |
| Widget.Ancestry | content/widget.js:354-359 | the walk's chain starts at the target, follows `parentElement`, and never includes the body or the root |
| Widget.AncestryEnd | content/widget.js:355 | the chain stops where the loop does: the last element's parent is missing, the body or the root |
| Widget.FindScrollableFromTarget | content/widget.js:351-362 | nothing exactly when no element of the chain is scrollable (so nothing for no target); otherwise the nearest scrollable one, never the body or the root |
| Widget.DragClamp | content/widget.js:130-136 | the offset never exceeds the viewport's room; it is non-negative when the widget fits; it is kept when already inside, and cut to 0 or the room otherwise; when the widget is larger than the viewport it is the (negative) room |
| Widget.FloatingWidget.constructor | content/widget.js:7-12 | no widget yet; position 20, 20 |
| Widget.FloatingWidget.InitWidget | content/widget.js:87-91 | creates the widget once, shown with no `display` of its own; a second call changes nothing; position and drag state are never touched |
| Widget.FloatingWidget.MouseDown | content/widget.js:110-122 | outside the minimize button, a drag starts from the pointer and the widget's offsets from the right and bottom edges |
| Widget.FloatingWidget.MouseMove | content/widget.js:124-139 | during a drag the offsets follow the pointer, clamped: at most the viewport's room, and non-negative when the widget fits; otherwise nothing moves |
| Widget.FloatingWidget.MouseUp | content/widget.js:141-147 | the drag ends |
| Widget.FloatingWidget.ShowWidget | content/widget.js:430-434 | an existing widget becomes visible; without one nothing changes |
| Widget.FloatingWidget.HideWidget | content/widget.js:436-440 | the widget is not visible afterwards |
| Widget.FloatingWidget.ToggleWidget | content/widget.js:442-447 | an existing widget's visibility flips (`none` becomes `block`, anything else `none`); without one nothing changes |

## Left out

- The message transport (`chrome.runtime.onMessage`, content/content.js:310-357) only forwards to the modelled commands. The `setSpeed` message chooses between preset and multiplier by the message's fields, and that choice is not modelled.
- The exposed API object (content/content.js:291-307) is represented by the `Command` type and `Run`, not as an object.
- Floating point: speeds, the accumulator and widget coordinates are exact reals, so rounding of sums such as 0.4 + 0.4 + 0.4 is not modelled. The `10 × 0.4 = 4` scenario holds exactly here.
- EngineProps.ReportedMultiplierRange states the reported multiplier only up to 1.5. The code reports 1.5 after the "fast" preset, above MAX_SPEED_MULTIPLIER, so the promise that the multiplier never leaves [0.1, 1] does not hold. The model follows the code.
- The comment on `setSpeedMultiplier` says the range is 0.1 to 5, but MAX_SPEED_MULTIPLIER is 1. The model uses 1, as the code does.
- `SPEED_PRESETS[preset]` also finds names inherited from `Object.prototype` (such as `"toString"`), which would set a function as the speed. Only the three own keys are modelled.
- Dom.ScrollTo: the smooth scroll of `resetScroll` is represented by the position it ends at. Its easing, and ticks meeting a half-finished reset, are not modelled.
- Dom.ScrollTo: for the page the model caps the offset at `scrollHeight − innerHeight`, the limit `getScrollPosition` computes, whereas a browser caps `window.scrollTo`/`scrollBy` at `scrollHeight − documentElement.clientHeight`, higher by the height of a horizontal scrollbar. The engine cannot observe the difference, since a tick from below the limit moves at most one pixel, but offsets in that band are not modelled.
- Labels.ToLower lower-cases ASCII letters only. `toLowerCase` on other Unicode letters is not modelled; tag names are ASCII.
- Dom.ScrollPosition and Dom.ScrollBy use integer pixels. Fractional `scrollTop` values and zoom are not modelled.
- Animation-frame handles start at 1 and only grow, as browsers hand them out. The source's truthiness test `if (animationFrameId)` is modelled as "a handle is held".
- Event listeners run outside the model. The events are only logged in order, with their details. The widget's status text, button icons and slider updates (content/widget.js:150-297) react to them and are not modelled, and neither is a listener calling back into the engine.
- The widget's DOM construction and `updateWidgetPosition` styles, the minimize button, the selection overlay and highlight, `elementFromPoint`, Escape handling and `userSelect` are not part of this model (content/widget.js:39-84, 150-245, 313-427).
- Saving and loading the widget position through `chrome.storage` (content/widget.js:15-27) is not modelled.
- The `smoothscroll:showwidget`/`hidewidget`/`togglewidget` listeners (content/widget.js:285-296) do what ShowWidget, HideWidget and ToggleWidget do on an existing widget. They are not modelled separately.
- Widget.FloatingWidget.MouseMove takes the widget's size and the viewport's size as inputs. `getBoundingClientRect` and `window.innerWidth`/`innerHeight` are host queries.
- EngineRun.EventuallyEnds: changes to the page between frames from outside the engine (the user scrolling, content growing, the target being removed) are not modelled; a page that keeps growing never ends the run in the source, and the bound holds only for a page that only the engine changes.
- The popup, the background service worker and the keyboard shortcuts are not part of this model.
