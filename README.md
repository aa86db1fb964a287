# LinuxKeyHelpers in Dafny

LinuxKeyHelpers is a set of small Linux input helpers for games. They read
input events through libinput (or X11 record, in the oldest script) and
inject key presses and wheel ticks through a uinput virtual device. This
project models the following parts:

- **libmacro**, in its Python form (`libmacro.py`) and its C form
  (`libmacro.c`, `libmacro.h`). It sorts libinput events into six event
  types: key press and release, mouse button press and release, vertical
  and horizontal scroll. Every other kind of event is dropped. It hands
  each event on and writes key presses to its virtual device. The C form
  also creates and releases the libinput/udev context.
- **Toggle sprint**. A press of either Ctrl toggles whether the sprint key
  F9 is held. There are three versions:
  - the libmacro script `ToggleSprintBedrock.py`
  - the stand-alone C daemon `ToggleSprintBedrock.c`
  - the older X11 script `bedrock_toggle_sprint_old.py`
- **Scroll fixes** for a GNOME bug that loses the first wheel scroll after
  a change of direction:
  - `ScrollFixGnomeWayland.py` repeats that scroll
  - `old/FixGnomeScrollXwayland.py` only reports it

What a program sends to its virtual device is modelled as an ordered log
of `Device.Action` values:

- `Write(type, code, value)` for one raw input event (`Syn` is the
  SYN_REPORT write)
- `Sleep(ms)` for a deliberate pause
- `Press(key)`, `Release(key)` and `ScrollV(ticks)` for a script's calls
  into the libmacro script base class

The libinput queue is modelled as a finite `seq<RawEvent>`. Objects and
globals that the source updates in place become classes. Their methods are
specified by pure step functions (`KeyStep`, `HandleEventStep`,
`RecordStep`, `Repeats`, `ScrollReports`) and by replay functions over
event sequences. The lemmas prove the programs' invariants about those
functions.

Modules: `Wrappers` (Option), `Codes` (kernel and libinput constants),
`Device`, `LibMacroTypes`, `Classifier`, `LibMacroPy`, `LibMacroC`,
`ToggleSprintPy`, `ToggleSprintC`, `ToggleSprintOld`, `ScrollFixWayland`,
`ScrollFixXwayland`.

## Model

| member | source | states |
|---|---|---|
| LibMacroTypes.Encode | LinuxKeyHelpers/libmacro/include/libmacro.h:6-13 | each of the six event types encodes to an integer in 0..5; the C enum's implicit last value is 5 |
| LibMacroTypes.Decode | LinuxKeyHelpers/libmacro.py:104-110 | decoding is defined exactly on 0..5, and encoding a decoded type gives back the integer |
| LibMacroTypes.DecodeEncode | LinuxKeyHelpers/libmacro/include/libmacro.h:6-13 | decoding an encoded type gives back the type |
| LibMacroTypes.EncodeInjective | LinuxKeyHelpers/libmacro/include/libmacro.h:6-13 | the six encodings are distinct |
| LibMacroTypes.ToRecord | LinuxKeyHelpers/libmacro/include/libmacro.h:21-24 | the record's type field decodes to the event's type, and its value field is the event's value |
| LibMacroTypes.FromRecord | LinuxKeyHelpers/libmacro/include/libmacro.h:21-24 | a record is read as an event exactly when its type field is in 0..5, keeping both fields |
| LibMacroTypes.RecordRoundTrip | LinuxKeyHelpers/libmacro/include/libmacro.h:21-24 | event → record → event is the identity |
| LibMacroTypes.RecordRoundTripBack | LinuxKeyHelpers/libmacro/include/libmacro.h:21-24 | record → event → record is the identity on valid type fields |
| Classifier.Classify | LinuxKeyHelpers/libmacro.py:135-165 | an event is dropped exactly when its kind is not 402, 404 or 300, or it is a scroll with neither axis; kind 402 gives a button type and 300 a key type; a scroll with axis 0 is vertical, even when axis 1 is also present; horizontal only without axis 0; press exactly when the state is nonzero; the value is the code, or the scroll value unchanged (sign included) |
| LibMacroPy.Callbacks | LinuxKeyHelpers/libmacro.py:130-166 | a queue yields at most one callback per event |
| LibMacroPy.CallbacksPrepend | LinuxKeyHelpers/libmacro.py:130-166 | the callbacks for a queue are those of its first event followed by those of the rest, in order |
| LibMacroPy.VerticalScrollsPreserved | LinuxKeyHelpers/libmacro.py:146-151 | a run of vertical scrolls is reported as the same run: same length, same order, each amount unchanged |
| LibMacroPy.PressWrites | LinuxKeyHelpers/libmacro.py:179-184 | a press writes only the given key, commits it with SYN, and leaves its last value at 1 |
| LibMacroPy.ReleaseWritesAsWritten | LinuxKeyHelpers/libmacro.py:186-191 | the release as written writes value 1, committed by SYN, so the key's last value is 1 |
| LibMacroPy.ReleaseAsWrittenLeavesKeyHeld | LinuxKeyHelpers/libmacro.py:179-191 | after a press and the as-written release, the key's last written value is still 1 (held) |
| LibMacroPy.ReleaseWrites | LinuxKeyHelpers/libmacro.py:186-191 | the corrected release writes value 0, committed by SYN |
| LibMacroPy.ReleaseWritesReleaseKey | LinuxKeyHelpers/libmacro.py:179-191 | after a press and the corrected release, the key's last value is 0, and a committed log stays committed |
| LibMacroPy.Engine.constructor | LinuxKeyHelpers/libmacro.py:102 | the module starts with no virtual device |
| LibMacroPy.Engine.Run | LinuxKeyHelpers/libmacro.py:112-176 | if seat assignment fails, nothing is created, no event is processed and nothing is released; otherwise the device is created empty, the callbacks are exactly `Callbacks(queue)`, every event is destroyed once and in order, and the contexts are released at the end |
| LibMacroPy.Engine.PressKey | LinuxKeyHelpers/libmacro.py:179-184 | without a device the log is unchanged; with one it gains exactly `Write(EV_KEY, code, 1)` and then `Syn` |
| LibMacroPy.Engine.ReleaseKey | LinuxKeyHelpers/libmacro.py:186-191 | the same as PressKey: value 1 and then SYN, guarded by the device check |
| LibMacroC.Deliver | LinuxKeyHelpers/libmacro/src/libmacro.c:56-104 | a handled event gives a filled record exactly when Classify reports it; a scroll with neither axis gives an unfilled record |
| LibMacroC.DeliverAll | LinuxKeyHelpers/libmacro/src/libmacro.c:47-106 | successive calls return at most one record per queued event |
| LibMacroC.FilledEvents | LinuxKeyHelpers/libmacro/src/libmacro.c:54-104 | at most one event per returned record |
| LibMacroC.FilledEventsAreCallbacks | LinuxKeyHelpers/libmacro/src/libmacro.c:56-104 | the filled records of the C loop, in order, are exactly the Python engine's callbacks for the same queue |
| LibMacroC.WaitForEvent | LinuxKeyHelpers/libmacro/src/libmacro.c:47-106 | the destroyed prefix followed by the untouched rest is the queue; every skipped event had an unhandled kind; the last destroyed event is the one returned, and it is handled; it waits (None) exactly when nothing in the queue is handled; the records of later calls continue from the rest |
| LibMacroC.InitAsWritten | LinuxKeyHelpers/libmacro/src/libmacro.c:26-37 | NULL exactly when seat assignment fails, with the context freed but udev and libinput still referenced; on success the result is indeterminate, since there is no return |
| LibMacroC.Init | LinuxKeyHelpers/libmacro/src/libmacro.c:26-37 | corrected: NULL exactly when seat assignment fails; otherwise a live context, never an indeterminate pointer |
| LibMacroC.InitAsWrittenLosesContext | LinuxKeyHelpers/libmacro/src/libmacro.c:26-37 | a successful init as written allocates live resources but returns no context, while the corrected init returns one |
| LibMacroC.Deinit | LinuxKeyHelpers/libmacro/src/libmacro.c:39-45 | NULL leaves everything as it was; a context ends with libinput fully unreferenced, one udev reference dropped, and the context freed |
| ToggleSprintPy.GeneratedSet | LinuxKeyHelpers/ToggleSprintBedrock.py:74-75 | keys_generated is exactly {KEY_F9} |
| ToggleSprintPy.ToggleActions | LinuxKeyHelpers/ToggleSprintBedrock.py:13-29 | toggling always releases F9 first; F9 is left held exactly when the new state is sprinting; only F9 is touched |
| ToggleSprintPy.QuickReleaseActions | LinuxKeyHelpers/ToggleSprintBedrock.py:31-39 | nothing exactly when not sprinting; otherwise a release, then a re-press that leaves F9 held; only F9 is touched |
| ToggleSprintPy.KeyStep | LinuxKeyHelpers/ToggleSprintBedrock.py:41-66 | the state flips exactly on a Ctrl press; nothing is sent exactly for events other than a Ctrl press or a release of Enter/Esc/E/Z/Shift; those releases send `Sleep(100)` or `Sleep(50)` and then the quick release |
| ToggleSprintPy.KeyStepKeepsConsistent | LinuxKeyHelpers/ToggleSprintBedrock.py:13-75 | each key event keeps the invariant: only declared keys are touched, and F9 is held exactly when sprinting |
| ToggleSprintPy.ReplayKeepsConsistent | LinuxKeyHelpers/ToggleSprintBedrock.py:9-75 | from the initial state, any sequence of key events keeps that invariant |
| ToggleSprintPy.Script.constructor | LinuxKeyHelpers/ToggleSprintBedrock.py:9-11 | sprint_state starts false, with nothing sent |
| ToggleSprintPy.Script.ReleaseKey | LinuxKeyHelpers/ToggleSprintBedrock.py:17 | appends exactly one `Release(key)` |
| ToggleSprintPy.Script.SleepMs | LinuxKeyHelpers/ToggleSprintBedrock.py:27 | appends exactly one `Sleep(ms)` |
| ToggleSprintPy.Script.PressKey | LinuxKeyHelpers/ToggleSprintBedrock.py:28 | appends exactly one `Press(key)` |
| ToggleSprintPy.Script.ToggleSprint | LinuxKeyHelpers/ToggleSprintBedrock.py:13-29 | flips the state, appends exactly `ToggleActions` of the new state, and keeps the invariant |
| ToggleSprintPy.Script.QuickRelease | LinuxKeyHelpers/ToggleSprintBedrock.py:31-39 | keeps the state, appends exactly `QuickReleaseActions`, and keeps the invariant |
| ToggleSprintPy.Script.HandleKey | LinuxKeyHelpers/ToggleSprintBedrock.py:41-66 | the new state and the appended actions are those of `KeyStep`, and the invariant is kept |
| ToggleSprintPy.Script.HandleMouseButton | LinuxKeyHelpers/ToggleSprintBedrock.py:68-69 | changes nothing |
| ToggleSprintPy.Script.HandleMouseScroll | LinuxKeyHelpers/ToggleSprintBedrock.py:71-72 | changes nothing |
| ToggleSprintC.Not | LinuxKeyHelpers/ToggleSprintBedrock.c:102 | C's `!` gives 1 exactly for 0 and gives 0 otherwise |
| ToggleSprintC.ToggleWrites | LinuxKeyHelpers/ToggleSprintBedrock.c:101-113 | only F9 is written, each write is committed by SYN, and F9's last value is 1 exactly when the new state is nonzero |
| ToggleSprintC.HandleEventStep | LinuxKeyHelpers/ToggleSprintBedrock.c:119-128 | something is written exactly on a PRESSED state with left or right Ctrl; then the state becomes `!state` and the toggle writes follow; otherwise nothing changes |
| ToggleSprintC.DrainStep | LinuxKeyHelpers/ToggleSprintBedrock.c:78-83 | an event that is not a keyboard key changes nothing; something is written exactly for a keyboard event with state PRESSED and left or right Ctrl |
| ToggleSprintC.KeyInputs | LinuxKeyHelpers/ToggleSprintBedrock.c:77-85 | at most one key input per queued event |
| ToggleSprintC.DrainedIsHandleAllOfKeys | LinuxKeyHelpers/ToggleSprintBedrock.c:77-85 | draining a queue does exactly what handling its keyboard events alone, in arrival order, does |
| ToggleSprintC.HandleEventKeepsConsistent | LinuxKeyHelpers/ToggleSprintBedrock.c:101-128 | each event keeps the invariant: the state is 0 or 1, only F9 is written, every write is committed, and F9's last value is the state (0 before any write) |
| ToggleSprintC.HandleAllKeepsConsistent | LinuxKeyHelpers/ToggleSprintBedrock.c:20-128 | any sequence of key events keeps that invariant |
| ToggleSprintC.TwoCtrlPresses | LinuxKeyHelpers/ToggleSprintBedrock.c:101-128 | from state 0, two presses of left or right Ctrl, in any mix, write exactly an F9 press, SYN, an F9 release, SYN, and end in state 0 |
| ToggleSprintC.Daemon.constructor | LinuxKeyHelpers/ToggleSprintBedrock.c:18-20 | state 0, nothing written, stop unset; F9 is the only declared key and the invariant holds |
| ToggleSprintC.Daemon.Emit | LinuxKeyHelpers/ToggleSprintBedrock.c:91-99 | appends exactly one write |
| ToggleSprintC.Daemon.ToggleSprint | LinuxKeyHelpers/ToggleSprintBedrock.c:101-113 | the state becomes `!state` and the device gains exactly the toggle writes |
| ToggleSprintC.Daemon.QuickRelease | LinuxKeyHelpers/ToggleSprintBedrock.c:115-117 | changes nothing |
| ToggleSprintC.Daemon.HandleEvent | LinuxKeyHelpers/ToggleSprintBedrock.c:119-128 | the new state and the writes are those of `HandleEventStep`, and the invariant is kept |
| ToggleSprintC.Daemon.Drain | LinuxKeyHelpers/ToggleSprintBedrock.c:77-85 | every event is destroyed, in order; the new state and the writes are those of `Drained`; the invariant is kept |
| ToggleSprintOld.ReleaseSprintWrites | LinuxKeyHelpers/bedrock_toggle_sprint_old.py:85-90 | only F9 is written, committed, and its last value is 0 |
| ToggleSprintOld.PressSprintWrites | LinuxKeyHelpers/bedrock_toggle_sprint_old.py:92-105 | it begins with the release writes; only F9 is written, committed, and its last value is 1 |
| ToggleSprintOld.ToggleStep | LinuxKeyHelpers/bedrock_toggle_sprint_old.py:117-135 | flips the state; sends the press writes when now sprinting and the release writes otherwise |
| ToggleSprintOld.RecordStep | LinuxKeyHelpers/bedrock_toggle_sprint_old.py:146-176 | the state flips exactly on a press of keycode 37 or 105 |
| ToggleSprintOld.RecordStepCases | LinuxKeyHelpers/bedrock_toggle_sprint_old.py:146-176 | the state flips exactly on a press of keycode 37 or 105; releases of 104, 9, 26 and 52 send `Sleep(100)` and releases of 50 and 62 send `Sleep(50)`, without changing the state; nothing is sent exactly for all other events |
| ToggleSprintOld.ReplaySnoc | LinuxKeyHelpers/bedrock_toggle_sprint_old.py:144-176 | handling one more event is one more step after the events before it |
| ToggleSprintOld.ReplayCountsToggles | LinuxKeyHelpers/bedrock_toggle_sprint_old.py:144-151 | over any sequence of events, the state flips once per Ctrl press and for nothing else (its parity decides the final state) |
| ToggleSprintOld.RecordStepKeepsConsistent | LinuxKeyHelpers/bedrock_toggle_sprint_old.py:85-176 | each event keeps the invariant: only F9 is written, every write is committed, and F9's last value is 1 exactly when sprinting |
| ToggleSprintOld.ReplayKeepsConsistent | LinuxKeyHelpers/bedrock_toggle_sprint_old.py:80-176 | any sequence of events keeps that invariant |
| ToggleSprintOld.Relay.constructor | LinuxKeyHelpers/bedrock_toggle_sprint_old.py:80-83 | sprint_state starts false, with nothing written |
| ToggleSprintOld.Relay.ReleaseSprint | LinuxKeyHelpers/bedrock_toggle_sprint_old.py:85-90 | appends exactly the release writes |
| ToggleSprintOld.Relay.PressSprint | LinuxKeyHelpers/bedrock_toggle_sprint_old.py:92-105 | appends exactly the press writes |
| ToggleSprintOld.Relay.QuickRelease | LinuxKeyHelpers/bedrock_toggle_sprint_old.py:107-114 | changes neither the state nor the device |
| ToggleSprintOld.Relay.ToggleSprint | LinuxKeyHelpers/bedrock_toggle_sprint_old.py:117-135 | the state and the writes are those of `ToggleStep` |
| ToggleSprintOld.Relay.HandleRecord | LinuxKeyHelpers/bedrock_toggle_sprint_old.py:146-176 | the state and the sent actions are those of `RecordStep`, and the invariant is kept |
| ToggleSprintOld.Relay.HandleNext | LinuxKeyHelpers/bedrock_toggle_sprint_old.py:144-176 | one turn of the loop adds one `RecordStep` to what was sent so far |
| ToggleSprintOld.Relay.Handler | LinuxKeyHelpers/bedrock_toggle_sprint_old.py:139-176 | handling a reply's events leaves the state and the sent actions of `Replay` over them, in order, and keeps the invariant |
| ScrollFixWayland.RelEventsGenerated | LinuxKeyHelpers/ScrollFixGnomeWayland.py:28-29 | the declared relative axes include every axis any action can move (a wheel tick moves REL_WHEEL) |
| ScrollFixWayland.RepeatsMeaning | LinuxKeyHelpers/ScrollFixGnomeWayland.py:18-25 | at most one tick; `scroll_wheel_vertical(1)` exactly when a positive distance follows a negative one, `scroll_wheel_vertical(-1)` exactly when a negative distance follows a positive one; a tick has the sign of the distance |
| ScrollFixWayland.FirstScrollNeverRepeats | LinuxKeyHelpers/ScrollFixGnomeWayland.py:10-25 | with last_distance 0, as at the start, no scroll is repeated |
| ScrollFixWayland.TicksMoveDeclaredAxes | LinuxKeyHelpers/ScrollFixGnomeWayland.py:18-29 | a log of wheel ticks moves only axes that `rel_events_generated` declares |
| ScrollFixWayland.ReplayLast | LinuxKeyHelpers/ScrollFixGnomeWayland.py:26 | after handling a sequence of scrolls one by one, last_distance is the last distance, including 0, and the start value only survives an empty sequence |
| ScrollFixWayland.ReplayTicks | LinuxKeyHelpers/ScrollFixGnomeWayland.py:18-29 | over any sequence of scrolls there is at most one repeat per scroll, and each repeat is a single wheel tick up or down |
| ScrollFixWayland.ReversalsSnoc | LinuxKeyHelpers/ScrollFixGnomeWayland.py:18-26 | reading the scrolls pairwise from the front, one more scroll adds the repeats of that scroll against the one before it |
| ScrollFixWayland.ReplayIsReversals | LinuxKeyHelpers/ScrollFixGnomeWayland.py:18-26 | what the handler sends, step by step, is exactly each scroll's repeat against the scroll just before it (or the start value for the first), in order |
| ScrollFixWayland.DownDownUpUpDown | LinuxKeyHelpers/ScrollFixGnomeWayland.py:18-26 | distances +1, +1, -1, -1, +1: nothing after two scrolls, `scroll_wheel_vertical(-1)` at the third, nothing more at the fourth, and `scroll_wheel_vertical(1)` at the fifth |
| ScrollFixWayland.Script.constructor | LinuxKeyHelpers/ScrollFixGnomeWayland.py:8-10 | last_distance starts at 0, with nothing sent |
| ScrollFixWayland.Script.ScrollWheelVertical | LinuxKeyHelpers/ScrollFixGnomeWayland.py:22-25 | appends exactly one `ScrollV(ticks)` |
| ScrollFixWayland.Script.HandleKey | LinuxKeyHelpers/ScrollFixGnomeWayland.py:12-13 | changes nothing |
| ScrollFixWayland.Script.HandleMouseButton | LinuxKeyHelpers/ScrollFixGnomeWayland.py:15-16 | changes nothing |
| ScrollFixWayland.Script.HandleMouseScroll | LinuxKeyHelpers/ScrollFixGnomeWayland.py:18-26 | appends exactly `Repeats(old last_distance, distance)`, whichever axis; last_distance becomes the distance; only wheel ticks, on declared axes, are ever sent |
| ScrollFixXwayland.ScrollReports | LinuxKeyHelpers/old/FixGnomeScrollXwayland.py:60-71 | at most one report; "repeat down" exactly for an amount of exactly 1 after direction -1; "repeat up" exactly for exactly -1 after direction 1; nothing for any other magnitude |
| ScrollFixXwayland.NextDirection | LinuxKeyHelpers/old/FixGnomeScrollXwayland.py:73-77 | a positive amount sets direction 1, a negative one sets -1, and 0 keeps the old direction; the direction stays in {-1, 0, 1} |
| ScrollFixXwayland.Sign | LinuxKeyHelpers/old/FixGnomeScrollXwayland.py:74-77 | the direction a nonzero amount sets is nonzero, with the amount's sign |
| ScrollFixXwayland.DirectionStaysDirection | LinuxKeyHelpers/old/FixGnomeScrollXwayland.py:57-77 | over any sequence of scrolls the direction stays in {-1, 0, 1} |
| ScrollFixXwayland.ZeroScrollsKeepDirection | LinuxKeyHelpers/old/FixGnomeScrollXwayland.py:74-77 | scrolls of 0 leave the direction unchanged |
| ScrollFixXwayland.DirectionIsLastNonzeroSign | LinuxKeyHelpers/old/FixGnomeScrollXwayland.py:74-77 | the direction is the sign of the last nonzero scroll |
| ScrollFixXwayland.UpThenDown | LinuxKeyHelpers/old/FixGnomeScrollXwayland.py:57-77 | from the start, one click up then one click down reports exactly "repeat down" |
| ScrollFixXwayland.TwoClicksAfterUp | LinuxKeyHelpers/old/FixGnomeScrollXwayland.py:57-77 | a two-click scroll down after one click up reports nothing, but the direction becomes 1 |
| ScrollFixXwayland.Watcher.constructor | LinuxKeyHelpers/old/FixGnomeScrollXwayland.py:53-57 | direction 0, nothing reported, nothing written to the device |
| ScrollFixXwayland.Watcher.HandleScroll | LinuxKeyHelpers/old/FixGnomeScrollXwayland.py:60-77 | the reports gain exactly `ScrollReports`, the direction becomes `NextDirection`, it stays in {-1, 0, 1}, and the device is never written |

## Left out

- The ctypes/FFI layer is not modelled: the `libmacro.py` bindings, `libmacro/python/allpython.py` and `libmacro/python/libmacro.py`. These are foreign calls with no logic of their own.
- Creating the udev and libinput contexts, the uinput ioctls and the device name are not modelled. Seat assignment is a parameter (`seatRc`). The uinput device is the action log.
- Blocking waits are not modelled: `libinput_dispatch`, `poll` and the outer `while True` / `while(!stop)` loops. The queue is a finite sequence, and a run ends when it is used up. `LibMacroC.WaitForEvent` returns None where the C code would go on waiting.
- Signals, `KeyboardInterrupt` and other exceptions are left out. The C daemon's `stop` flag is a field only.
- Printing is dropped, except in `old/FixGnomeScrollXwayland.py`, whose two messages are the script's only output and are modelled as `ScrollFixXwayland.Report` values. `time.sleep` becomes a `Sleep(ms)` action in the log.
- X11 record setup and reply parsing in `bedrock_toggle_sprint_old.py` are not modelled. The handler receives the reply's already parsed `(keycode, press)` records. Its `while len(data)` loop is modelled as a loop over those records in order.
- Floating point is not modelled. Raw scroll values are `int`, the C cast from double to int is not modelled, and the scroll scripts' distances are `real`. NaN and infinities are not modelled.
- The libmacro script base class (`LibMacro`, `LibMacroScript`) is not part of this model. `press_key`, `release_key` and `scroll_wheel_vertical` are each modelled as appending one action. How the engine dispatches events to `handle_key` and the other handlers is not modelled.
- `LibMacroPy.Engine.Run`: the model does not interleave the callback's own key injections with the run. The callback is external code.
- `LibMacroC.Deinit`: `libinput_unref` is modelled as dropping one reference per call. How many references libinput really holds is not modelled.
- `LibMacroC.Deliver`: the C code reads a scroll amount with `libinput_event_pointer_get_axis_value` (`libmacro.c` lines 76 and 79) and the Python code with `libinput_event_pointer_get_scroll_value` (`libmacro.py` lines 150 and 154). The model takes both to give the same value for a wheel-scroll event, which is why `LibMacroC.FilledEventsAreCallbacks` can equate the two. libinput itself is not part of this model.
- `ToggleSprintC.Daemon.Emit`: every `write` to the uinput file descriptor is taken to succeed. The code ignores the result of `write` (`ToggleSprintBedrock.c` line 98), and a failed `open` of `/dev/uinput` (line 49) is not modelled.
- `LibMacroC.Deliver`: for a scroll event with neither axis, the unassigned fields of the returned record are modelled as an `Uninitialised` result, not as arbitrary values.
- `ScrollFixXwayland.Watcher`: the unreachable part of the main loop in `old/FixGnomeScrollXwayland.py` is not modelled. It follows an unconditional `continue`.
- `test.py` is not part of this model. Its handlers only print.
- None of the programs filters out events that come from its own virtual device, and neither does the model.
- `LibMacroPy.Engine.ReleaseKey` is kept as written: it writes value 1. The corrected `LibMacroPy.ReleaseWrites` exists only as the finding's corrected definition, since nothing else in the model calls the engine's release.

## Findings

| source | as written | input that shows it | evidently intended | confidence | as-written member | corrected member |
|---|---|---|---|---|---|---|
| LinuxKeyHelpers/libmacro/src/libmacro.c:26-37 | `libmacro_init` has no `return` on its success path: it falls off the end of a non-void function, so the caller gets an indeterminate pointer | any successful seat assignment (`rc == 0`) | return the allocated `context` | high; not executed | LibMacroC.InitAsWritten (with LibMacroC.InitAsWrittenLosesContext) | LibMacroC.Init |
| LinuxKeyHelpers/libmacro.py:186-191 | `libmacro_release_key` writes value 1, the same as a press | `libmacro_press_key(k)` then `libmacro_release_key(k)`: the last value written for `k` is 1, so the key stays held | write value 0 | high; not executed | LibMacroPy.ReleaseWritesAsWritten (with LibMacroPy.ReleaseAsWrittenLeavesKeyHeld) | LibMacroPy.ReleaseWrites (with LibMacroPy.ReleaseWritesReleaseKey) |
