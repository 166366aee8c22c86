# Petal interaction gesture classifier in Dafny

This project models `PetalInteraction` from the dna2petal visualization. This component turns raw pointer events on one bound surface into gesture callbacks:
- the echoes `mousedown`, `mousemove`, `mouseup`, `mouseout` and `mouseenter`;
- press-and-hold (`mousehold`);
- clicks grouped into `click`, `dblclick` and `comboclick`.

It keeps two closure records and four lock entries:
- `state.hold` is the anchor of the current hold attempt.
- `state.combo` is the combo session: its count, the positions recorded on release, and the place and time of the latest press.
- `lock.mouseDown` and `lock.holdBeatCombo` are flags.
- `lock.checkHold` and `lock.checkCombo` are timer handles.

The project has these modules:

- `GestureTypes` (types.dfy) holds the values: the configuration (its defaults as in the source), pointer events, positions, sessions, the callbacks with their arguments, and a snapshot `State` of the closure records.
- `Distance` (distance.dfy) holds `check_distance`. The source compares `Math.sqrt(dx*dx+dy*dy)` with the tolerance. The model compares squared integers instead, and a lemma proves that this agrees with the real square root.
- `Transitions` (transitions.dfy) specifies every handler as a function from the old state to the new state and the callbacks invoked, in order. It also defines `Inv`, the invariant of reachable states.
- `Traces` (traces.dfy) covers runs of events and timer firings. It proves that every step keeps `Inv`, and it proves the gesture-level behaviour: N quick taps, hold beats combo, leaving mid-press, re-entry, rebinding.
- `Classifier` (classifier.dfy) is the classifier as a class. Its fields are the closure records. Its methods update them step by step as the JavaScript does. Each method is proved to perform exactly the `Transitions` function of the old state, and callbacks are appended to `log`. Each timer is a pending flag, with a method that fires it. The clock is a `now` argument.
- `AsWritten` (aswritten.dfy) models two source defects as written (see Findings).

The model follows the code in these behaviours:
- `mousehold` fires once per hold attempt. `check_hold` does not re-arm its timer (interactions.js:83-89).
- Releasing the pointer does not cancel the hold timer (interactions.js:159-165). The timer fires later and reports nothing.
- A session's number of positions need not equal its count. Leaving mid-press resolves a session that has a count of 1 and no positions. Re-entry opens a session with a count of 0, and a release then records a position in it.

A session opened by re-entry has no press coordinates or press time, because the source leaves them undefined. For such a session:
- the release distance test is false (comparing NaN);
- a timingable position records NaN as its elapsed time.

## Model

| member | source | states |
|---|---|---|
| Distance.CheckDistance | visualization/interactions.js:59-63 | false for a negative tolerance; false when the two points coincide |
| Distance.CheckDistanceIsEuclidean | visualization/interactions.js:59-63 | for every input, the integer test equals "tolerance non-negative and Euclidean distance (the real square root) strictly greater than the tolerance" |
| Distance.CheckDistanceSymmetricMonotone | visualization/interactions.js:59-63 | the test is symmetric in its two points, and a point farther than a tolerance is farther than every smaller non-negative one |
| Transitions.Init | visualization/interactions.js:34-44 | after `interaction_init`: no hold anchor, no session, no pending timer, both flags false, target kept; the state satisfies `Inv` for every configuration |
| Transitions.ComboCallback | visualization/interactions.js:66-77 | count 0 emits nothing; 1 emits `click` with the first position (absent if none was recorded); 2 emits `dblclick` with all positions; 3 or more emits `comboclick` with all positions; only combo gestures |
| Transitions.CheckCombo | visualization/interactions.js:65-81 | resolving emits the callback for the count; afterwards no session, hold mark false, no pending combo timer; hold state, pressed flag and target unchanged |
| Transitions.DoHold | visualization/interactions.js:126-143 | when not pressed, nothing changes; a press (re)starts the hold timer at the point; a move restarts it exactly when it exceeds the hold tolerance from the anchor |
| Transitions.DoComboDown | visualization/interactions.js:91-99 | while pressed: cancels the combo timer, opens a count-0 session if none exists, increments the count by exactly one, makes this press the anchor and timestamp, leaves positions unchanged |
| Transitions.ReleasePosition | visualization/interactions.js:103-106 | the recorded position is the release point, untimed unless the combo is timingable; when timingable it carries the time since the latest press, or NaN for a session with no press (re-entry) |
| Transitions.DoComboUp | visualization/interactions.js:101-124 | without a session nothing happens; otherwise exactly one position is appended, then the session resolves at once (moved beyond tolerance from the latest press, or a hold beat a non-holdable combo) or the combo timer is armed |
| Transitions.CheckHold | visualization/interactions.js:83-89 | while pressed, emits `mousehold` at the anchor and sets the hold mark when the combo is not holdable; when not pressed, emits nothing and changes nothing else; either way the timer ends not pending |
| Transitions.FireCombo | visualization/interactions.js:65-81 | a firing combo timer resolves the session: it emits exactly the callback `ComboCallback` chooses by the count (one iff the count is positive); afterwards no session, no mark, no pending timer, nothing else changed |
| Transitions.OnMouseDown | visualization/interactions.js:145-151 | pressed afterwards; hold restarted at the press when enabled; with combo enabled: timer cancelled, count incremented by one, anchor and timestamp set to this press, positions unchanged; echo emitted |
| Transitions.OnMouseMove | visualization/interactions.js:153-157 | the hold restarts at the new point only when pressed, hold enabled, tolerance non-negative and the move exceeds it; otherwise nothing changes; echo emitted |
| Transitions.OnMouseUp | visualization/interactions.js:159-165 | with a session: one position appended, then resolved at once (callback before the echo) or timer armed; always released and hold anchor cleared; hold timer not cancelled; the hold mark is kept unless the session resolves at once; target kept; echo last |
| Transitions.OnMouseOut | visualization/interactions.js:167-180 | while pressed: both timers cancelled, an existing session resolved exactly once, no hold anchor, no session, released; when not pressed nothing changes; the echo is emitted in both cases |
| Transitions.OnMouseEnter | visualization/interactions.js:182-191 | with a button: pressed, hold restarted when hold tracking is enabled, session replaced by a fresh count-0 one when combo tracking is enabled, combo timer, hold mark and target untouched, only the echo emitted; with button 0 nothing changes |
| Traces.Step | visualization/interactions.js:83-191 | every handler and timer firing keeps `Inv`; in particular, a pending combo timer always has a session to resolve |
| Traces.Run | visualization/interactions.js:83-191 | any sequence of events keeps `Inv` |
| Traces.RunSnoc | visualization/interactions.js:83-191 | a run extended by one event ends in that event's state and emits the run's callbacks followed by the event's |
| Traces.TapExtendsSession | visualization/interactions.js:91-124 | on a released classifier, one press and a release within the combo tolerance of it add one to the session's count, append the release position, re-anchor at the press, arm the combo timer and emit only the two echoes |
| Traces.TapAfterRun | visualization/interactions.js:91-124 | the same for a tap appended to any run ending released with such a session |
| Traces.TapsBuildOneSession | visualization/interactions.js:91-124 | N taps, each released within the combo tolerance (anywhere, for the default negative tolerance), with no timer firing build one session: count N, one release position per tap in order, anchor at the last press, combo timer armed; only echoes emitted |
| Traces.TapsThenTimeout | visualization/interactions.js:65-124 | N taps, each released within the combo tolerance, then the combo timeout emit exactly one combo callback, chosen by N and carrying all N positions; afterwards no session and no combo timer pending |
| Traces.HoldBeatsCombo | visualization/interactions.js:116-121 | non-holdable combo: press, hold timer, release emits `mousehold` and then a `click` at once, before the release echo; afterwards no session, no combo timer and no hold timer pending, hold mark cleared, released |
| Traces.HoldableComboKeepsCounting | visualization/interactions.js:116-123 | holdable combo: the same sequence reports the hold and leaves a count-1 session with its timer armed |
| Traces.HoldTimerAfterReleaseIsSilent | visualization/interactions.js:159-165 | the release leaves the hold timer pending; when it fires, it emits nothing and changes nothing else |
| Traces.MoveRestartsHold | visualization/interactions.js:126-143 | a move while pressed moves the hold anchor to the new point iff it exceeds the hold tolerance; the hold stays pending |
| Traces.LeaveMidPress | visualization/interactions.js:167-180 | press then leave emits `click` with no position, then the exit echo; no hold, no session, no pending timer |
| Traces.ReentrySessionIsSilent | visualization/interactions.js:182-191 | re-entry with a button and a release record one position in a count-0 session with no anchor; its timeout emits nothing |
| Traces.BindStartsFresh | visualization/interactions.js:221-232 | after any history, bind followed by a press gives a session with a count of one and the new target |
| Traces.UnbindResets | visualization/interactions.js:233-244 | after any history, unbind leaves the initial state with no target |
| Classifier.PetalInteraction.constructor | visualization/interactions.js:29-31 | a new classifier is in the initial state, with no target and an empty log |
| Classifier.PetalInteraction.InteractionInit | visualization/interactions.js:34-44 | the state becomes `Init` of the current target; log unchanged |
| Classifier.PetalInteraction.Bind | visualization/interactions.js:221-223 | the state becomes `Init` with the surface as target; `Valid` |
| Classifier.PetalInteraction.Unbind | visualization/interactions.js:242-243 | the state becomes `Init` with no target; `Valid` |
| Classifier.PetalInteraction.CheckCombo | visualization/interactions.js:65-81 | in place, exactly `Transitions.CheckCombo` of the old state, its callback appended to the log |
| Classifier.PetalInteraction.DoHold | visualization/interactions.js:126-143 | in place, exactly `Transitions.DoHold` |
| Classifier.PetalInteraction.DoComboDown | visualization/interactions.js:91-99 | in place, exactly `Transitions.DoComboDown` |
| Classifier.PetalInteraction.DoComboUp | visualization/interactions.js:101-124 | in place, exactly `Transitions.DoComboUp`, its callbacks appended |
| Classifier.PetalInteraction.MouseDown | visualization/interactions.js:145-151 | keeps `Valid`; new state and log as `Transitions.OnMouseDown` |
| Classifier.PetalInteraction.MouseMove | visualization/interactions.js:153-157 | keeps `Valid`; new state and log as `Transitions.OnMouseMove` |
| Classifier.PetalInteraction.MouseUp | visualization/interactions.js:159-165 | keeps `Valid`; new state and log as `Transitions.OnMouseUp` |
| Classifier.PetalInteraction.MouseOut | visualization/interactions.js:167-180 | keeps `Valid`; new state and log as `Transitions.OnMouseOut` |
| Classifier.PetalInteraction.MouseEnter | visualization/interactions.js:182-191 | keeps `Valid`; new state and log as `Transitions.OnMouseEnter` |
| Classifier.PetalInteraction.FireHoldTimer | visualization/interactions.js:83-89 | only when pending; keeps `Valid`; new state and log as `Transitions.CheckHold` |
| Classifier.PetalInteraction.FireComboTimer | visualization/interactions.js:65-81 | only when pending; keeps `Valid`; new state and log as `Transitions.FireCombo` |
| Classifier.SingleClick | visualization/interactions.js:145-165 | default configuration: bind, a press, a release anywhere and the timeout on the object give exactly the two echoes and one `click` at the release position |
| Classifier.PressThenLeave | visualization/interactions.js:167-180 | default configuration: press then leave on the object gives the echo, a `click` without a position, the exit echo, and no pending timer |
| AsWritten.CheckComboAsWritten | visualization/interactions.js:69-71 | as written, resolution throws exactly for a count of 1 with a click callback registered; otherwise it behaves as `Transitions.CheckCombo` |
| AsWritten.FireComboAsWritten | visualization/interactions.js:65-81 | as written, a firing combo timer is spent; if resolution throws, nothing else changes (session, count, positions and hold mark survive) and nothing is emitted; otherwise it is `Transitions.FireCombo` |
| AsWritten.TwoClicksReportedAsDoubleClick | visualization/interactions.js:70 | two separate single clicks, each followed by its timeout, emit no click, and then one `dblclick` with both positions |
| AsWritten.Cancel | visualization/interactions.js:93 | `clearTimeout` on the handle cancels one timer only if the handle still names a scheduled one |
| AsWritten.PressAsWritten | visualization/interactions.js:91-94 | a press cancels the timer the handle names (one fewer scheduled exactly when the handle was live) and ensures a session exists |
| AsWritten.ReleaseAsWritten | visualization/interactions.js:101-124 | without a session a release changes nothing; one that arms schedules one more timer without cancelling the earlier one and keeps the session; one that resolves nulls the handle, drops the session and cancels nothing |
| AsWritten.ReenterAsWritten | visualization/interactions.js:185-189 | re-entry opens a session and leaves every scheduled timer in place |
| AsWritten.LeaveAsWritten | visualization/interactions.js:167-180 | leaving while pressed cancels only the timer the handle names and drops the session |
| AsWritten.FireAsWritten | visualization/interactions.js:65-66 | a timer that fires with no session throws; one that runs drops the session and nulls the handle; every firing consumes one scheduled timer |
| AsWritten.StaleComboTimerThrows | visualization/interactions.js:123 | click, re-entry and release schedule two combo timers; the first resolves the session, and the second throws, even after an unbind or rebind (`interaction_init` cancels only the timer the handle names) |
| Traces.ClickThenReenter | visualization/interactions.js:145-191 | with one combo timer, a click followed by a re-entry with a button held leaves a fresh session and the click's timer still pending |
| Traces.ReleaseThenTwoTimers | visualization/interactions.js:65-124 | from that state the release replaces the pending timer, the timer resolves the press-less session silently and a second firing finds no combo timer pending |
| Traces.StaleComboTimerCorrected | visualization/interactions.js:123 | with a single combo timer, the same gesture emits only the echoes, ends with no session and no pending combo timer, and never fires without a session |

## Left out

- Listener registration and removal in `bind` and `unbind` (interactions.js:224-241) are browser plumbing. Only the reset and the target assignment are modelled.
- Touch-to-mouse synthesis (interactions.js:193-215) is not modelled. It re-dispatches events through browser APIs. Touch events with more than one changed touch are dropped there (lines 201-204).
- `clone_mouse_event` (interactions.js:46-57) is reduced to the `MouseEvent` record that echoes carry. The event type is implied by the callback, and the button is taken as the already-combined `which || button`.
- The axis field names `config.axis` are not modelled: events carry their two coordinates directly.
- The mutable object returned by `config()` (interactions.js:218-220) is not modelled. The configuration is fixed when the classifier is created.
- Real timers are not modelled. The delays `hold.last` and `combo.timeout` only decide when a timer fires. In the model, the environment decides when to call `FireHoldTimer` or `FireComboTimer` (or the `HoldTimer`/`ComboTimer` events), so interleavings that the delays would rule out are also allowed.
- `new Date().getTime()` is not modelled. The handler receives it as `now`.
- `Math.sqrt` and floating-point coordinates are not modelled. Coordinates and tolerances are integers, and the squared comparison is proved equal to the square-root test.
- Optional callbacks are not modelled. `log` records every callback the classifier invokes when all of them are registered. In the intended behaviour, a missing callback changes no state. Its one effect in the code as written is the line-70 defect (see Findings).
- The `target` argument passed to every callback is not repeated in each log entry. It is the classifier's `target` field.
- Transitions.DoComboUp, Classifier.PetalInteraction.DoComboUp: they keep at most one combo timer, replacing a pending one when they arm. The code as written can leave several scheduled (see Findings); `AsWritten` models that case.
- Transitions.ComboCallback, Transitions.CheckCombo, Transitions.FireCombo, Classifier.PetalInteraction.CheckCombo: they pass the first recorded position to `click`. The code as written reads a misspelled field there (see Findings).
- The line-70 throw inside a handler is not modelled: `AsWritten` models it only when the combo timer runs `check_combo`. When `do_combo_up` resolves at once (lines 112 and 119) or `event_mouseout` resolves (line 173), the throw also aborts the rest of that handler: lines 162-164 or 175-179 are skipped, the pointer stays marked pressed with its hold anchor, no echo is emitted, and later moves can restart the hold timer and report `mousehold` with the button up. No as-written member models these handler aborts.

## Findings

| source | as written | input that shows it | evidently intended | confidence | as-written member | corrected member |
|---|---|---|---|---|---|---|
| visualization/interactions.js:70 | for a count of 1, `click` is called with `state.combo.positons[0]`, a misspelled and undefined field, so the call throws before lines 78-80 clear the session | default configuration with a click callback: tap at p, wait out the combo timeout, tap at q, wait again: no `click`, then one `dblclick` with [p, q] | call `click` with the first recorded position and clear the session | high; not executed | AsWritten.TwoClicksReportedAsDoubleClick | Transitions.CheckCombo |
| visualization/interactions.js:123 | a release arms a new combo timer without cancelling the one the handle names, and `check_combo` (line 80) nulls the handle without cancelling, so several combo timers can be scheduled | tap; leave unpressed; press outside and drag back in (re-entry with a button); release within `combo.timeout`: the first timer resolves the session, and the second reads `state.combo.count` of null (line 66) and throws | at most one combo timer at a time: cancel before re-arming | high; not executed | AsWritten.StaleComboTimerThrows | Traces.Step |
