# AwesomeMouseMode message-rewriting engine, in Dafny

AwesomeMouseMode subclasses the windows of a host application (Ableton
Live) and rewrites the messages bound for them. `OurWndProc`, the installed
window procedure, does the following:

- it disambiguates pen and touch drags, which the host would otherwise read
  as absolute jumps;
- it quantizes high-resolution wheel input into whole 120-unit notches;
- it turns a trackpad pinch (a Ctrl-only wheel event) into zoom keystrokes;
- it replays a one-finger touch pan as a Ctrl+Alt click-and-drag;
- it remaps Ctrl+Shift+Z to Ctrl+Y and `=` to `+`.

A window registry records each hooked window's original procedure. A
window-event hook maps and unmaps windows.

This project models two revisions of the engine as imperative Dafny:

- the current revision, `AwesomeMouseMode/src/dllmain.cpp`;
- the earlier one, `AwesomeMouseMode/dllmain.cpp`.

Each group of globals that the source updates in place becomes a class with
those fields. The class packs its fields into a value (`State()`), and each
handler is specified by a step function on such values. A method ensures
that its new state, output and effects are exactly the step function's
result on the old state and the inputs. Lemmas state that function's cases.
The interceptor classes hold no globals of their own. Their `WndProc` does
not promise its whole new state: the registry is left as it is, and the
components' new states, the effects and the reply are exactly `Dispatch` of
the components' old states.

- Every platform query made while a message is handled is a field of an
  `Env` value. These are `GetMessageExtraInfo`, cursor visibility,
  `GetKeyState`, `GetCursorPos`, `GetGestureInfo`, `ClientToScreen` and the
  `rand() % 100` draw.
- Every outward action is an `Effect` in an ordered list. These are
  `CallWindowProc`, `SendInput`, `SetCursorPos` and
  `CloseGestureInfoHandle`.
- `OurWndProc`'s return value is a `Reply`: either 0, or the result of its
  one forward to the original procedure.

Files:

| file | what it holds |
|---|---|
| `Win32.dfy` | Shared vocabulary. It covers the `(short)` cast, `MAKELONG` packing, C's truncating division and the constants. It also has the messages, effects, `MakeKeyboardEvent`, `IS_PEN_EVENT` and a fold giving the keys held after synthetic input. |
| `Keys.dfy` | The Ctrl+Shift+Z and `=` remaps. The code is identical in both revisions. |
| `WheelMath.dfy` | Wheel scaling and notch extraction, with run conservation and the equality of the two revisions' notch formulas. |
| `Registry.dfy` | `MapWindow`, `UnmapWindow`, `UnmapAllWindows` and `OurWinEventProc`. The code is identical in both revisions (`dllmain.cpp:283-338`). |
| `Pointer.dfy`, `Wheel.dfy`, `Gesture.dfy`, `Interceptor.dfy` | The current revision's pointer disambiguator, wheel quantizer, pan-gesture translator and `OurWndProc`. |
| `Earlier.dfy` | The earlier revision's pointer state, wheel and `OurWndProc`. |

Where the code and its design description disagree, the model follows the
code:

- `WM_LBUTTONUP` clears only `gDragDown` and `gDragPenDown`. The origin,
  the running delta and the digitizer flags survive it. So the running
  delta is not necessarily zero while no button is down.
- `=` becomes `+` whether or not Shift is held.
- The jitter filter and the Ctrl/Shift hold apply only while
  `gHadDigitizerEvent` was already set when the move arrived (the code's
  `!wasAcknowledged`). So they apply to every tracked pen move except the
  first one after a corrective move has cleared that flag.
- A move that is not pen-tagged is not always passed through unchanged:
  - in the current revision, a corrective move with Ctrl or Shift held is
    rewritten to the origin;
  - in the earlier revision, every such move after a digitizer event is
    rewritten to the origin.
- The button release at the end of a pan goes to the end event's own
  point, not to the last drag point.
- "Pan button down implies active or coasting" is not an invariant. The
  first mouse move after a pan begins clears `gInPanGesture` while the
  click stays down. The invariant kept instead is that a coasting pan is
  never in its first-move window. The model also proves that the host sees
  exactly one unmatched synthetic press while the click is held.
- The zoom path accumulates the raw delta, without scaling.
- `OurWinEventProc` compares the hook's event code against the
  window-message constants `WM_DESTROY` (2) and `WM_KILLFOCUS` (8). The
  current revision registers the hook for event codes 1 to 8
  (`WM_CREATE` to `WM_KILLFOCUS`), the earlier one for 2 to 8. The model routes on the
  numbers 2 and 8 exactly as written.
- A message for a window that is not hooked is swallowed with result 0,
  as written.
- The `(short)` cast on a forwarded wheel amount wraps once the amount
  passes 32767. `Wheel.ScrollWrapExample` shows one raw delta whose
  notches go out with the opposite sign.

## Model

| member | source | states |
|---|---|---|
| Win32.Wrap16 | AwesomeMouseMode/src/dllmain.cpp:123 | The `(short)` cast keeps the value modulo 2^16 in the signed range, and is the identity on values that already fit. |
| Win32.Pack | AwesomeMouseMode/src/dllmain.cpp:196 | Packing a point with `MAKELONG((short)x,(short)y)` and reading it back gives the point whenever both coordinates fit in 16 bits. |
| Win32.PackToPoint | AwesomeMouseMode/src/dllmain.cpp:96 | Re-packing the coordinates read out of an lParam gives the same lParam. |
| Win32.TDiv | AwesomeMouseMode/src/dllmain.cpp:350 | C division by a positive divisor truncates toward zero: bounds for non-negative and for negative dividends. |
| Win32.MakeKeyboardEvent | AwesomeMouseMode/src/dllmain.cpp:433-440 | A keyboard INPUT for the key, cut to a WORD. It is flagged KEYUP exactly when `keyUp` holds and has no flags otherwise. The earlier revision's copy (`dllmain.cpp:271-278`) is identical. |
| Win32.IsPenEvent | AwesomeMouseMode/src/dllmain.cpp:62-64 | An event is pen-tagged exactly when the top 24 bits of its extra info are 0xFF5157; the low byte is free. The earlier revision's macro (`dllmain.cpp:51-53`) is identical. |
| Win32.Forwarded | AwesomeMouseMode/src/dllmain.cpp:428-429 | Forwarding delivers exactly one forward, to the window's original procedure. |
| Win32.HeldAfterAppend | AwesomeMouseMode/src/dllmain.cpp:250 | Applying two batches of synthetic keys one after the other is the same as applying them joined. |
| Pointer.HoldsCtrlOrShift | AwesomeMouseMode/src/dllmain.cpp:166 | Ctrl or Shift is held exactly when the key word has one of the two bits set. |
| Pointer.IsErrant | AwesomeMouseMode/src/dllmain.cpp:167 | A move is errant exactly when it is pen-tagged, a digitizer event is pending, and it lands on both coordinates of the button-down point; such a move is not tracked. |
| Pointer.Jitter | AwesomeMouseMode/src/dllmain.cpp:184 | A draw above 70 always holds the move. Otherwise the move is held exactly when both delta coordinates lie strictly between -3 and 3. |
| Pointer.PressStep | AwesomeMouseMode/src/dllmain.cpp:94-112 | A press sets both down flags from the pointer type and makes the click point the origin. The counter is kept. |
| Pointer.ReleaseStep | AwesomeMouseMode/src/dllmain.cpp:113-116 | A release clears both down flags and changes nothing else. |
| Pointer.DoubleClickStep | AwesomeMouseMode/src/dllmain.cpp:117-127 | Only the counter may change, and it stays in 0..3. A pen double-click is forwarded at the last tracked pen point and arms the counter with 3; a mouse double-click is forwarded as it is. |
| Pointer.MoveStep | AwesomeMouseMode/src/dllmain.cpp:151-241 | A move keeps both down flags and counts the counter down to 0. With the cursor shown it is forwarded unchanged. |
| Pointer.MoveStepCases | AwesomeMouseMode/src/dllmain.cpp:151-241 | The invariant 0..3 is kept. A shown-cursor pen move only becomes the baseline, and only when no double-click is being absorbed. A hidden-cursor pen move that is not errant is tracked: while a digitizer event was already pending (not the first tracked move after a corrective move), a Ctrl/Shift hold or a jittery move goes out at the origin; any other goes out at origin plus the summed delta and zeroes it. Any other hidden-cursor move after a digitizer event or pen press clears the event and the click flag, and re-homes the origin if a digitizer click was pending. With Ctrl/Shift held it goes out at the origin with the delta zeroed; without, it passes through. Any other hidden-cursor move passes through with nothing changed but the counter. |
| WheelMath.ScaleVertical | AwesomeMouseMode/src/dllmain.cpp:382 | The 4/3 scale rounds toward zero. It keeps the sign of the delta, and four times the delta lies within three of three times the result, on the side toward zero. |
| Keys.RedoInputs | AwesomeMouseMode/src/dllmain.cpp:242-252 | Keys are synthesized exactly when Z goes down with Ctrl and Shift held. They are exactly Shift-up, Y-down, Y-up, Shift-down. |
| Keys.RedoIsCtrlY | AwesomeMouseMode/src/dllmain.cpp:243-250 | With Ctrl and Shift held, the host sees Y pressed with Ctrl held and Shift up, and afterwards the keyboard is exactly as before. |
| Keys.RemapChar | AwesomeMouseMode/src/dllmain.cpp:254-260 | `=` becomes `+`, every other character is unchanged, and `=` never goes out. |
| WheelMath.ScaleHorizontal | AwesomeMouseMode/src/dllmain.cpp:399 | The horizontal scale `(delta * -2) / 1` is exactly `-2 * delta`. |
| WheelMath.NotchCount | AwesomeMouseMode/src/dllmain.cpp:350 | `acc / 120` counts whole notches toward zero, and the remainder keeps the sign of `acc` and is below one notch. |
| WheelMath.NotchPart | AwesomeMouseMode/src/dllmain.cpp:383 | `(acc/120)*120` is a multiple of 120 within one notch of `acc`, between 0 and `acc`. |
| WheelMath.EarlyNotchPartAgrees | AwesomeMouseMode/dllmain.cpp:223 | The earlier `abs`-and-sign formula cuts the same notches as the current truncating formula, for every accumulator. |
| WheelMath.EarlyNotchPart | AwesomeMouseMode/dllmain.cpp:223 | The earlier formula is a multiple of 120 between 0 and the accumulator, within one notch of it. |
| WheelMath.Step | AwesomeMouseMode/src/dllmain.cpp:381-384 | One quantizer step: emitted plus kept equals accumulator plus scaled delta, the emission is whole notches, and what is kept is below one notch. |
| WheelMath.RunConserves | AwesomeMouseMode/src/dllmain.cpp:378-391 | Over any sequence of scaled deltas there is one emission per event. The emissions plus the final residual sum exactly to the start plus all deltas. Every emission is whole notches and the residual stays below one notch. |
| WheelMath.VerticalExample | AwesomeMouseMode/src/dllmain.cpp:378-391 | Raw deltas 40, 40, 40 from an empty accumulator emit 0, 0, 120 and leave 39. |
| WindowRegistry.Registry.MapWindow | AwesomeMouseMode/src/dllmain.cpp:445-456 | Idempotent. A new window's current procedure is recorded and OurWndProc installed; nothing else changes. Same code at `dllmain.cpp:283-294`. |
| WindowRegistry.Registry.UnmapWindow | AwesomeMouseMode/src/dllmain.cpp:459-470 | Idempotent. A hooked window gets its recorded procedure back and leaves the map; nothing else changes. Same code at `dllmain.cpp:297-308`. |
| WindowRegistry.Registry.UnmapAllWindows | AwesomeMouseMode/src/dllmain.cpp:473-478 | The draining loop terminates with an empty map. Every hooked window gets its own recorded procedure back and every other window keeps its procedure. Same code at `dllmain.cpp:311-316`. |
| WindowRegistry.Registry.OnWinEvent | AwesomeMouseMode/src/dllmain.cpp:482-500 | Event 2 unhooks a hooked window, giving it back its recorded procedure; event 8 hooks a new window, recording its current procedure and installing OurWndProc. Either on a window already in that state, or any other event, changes nothing, and no other window is affected. Same code at `dllmain.cpp:320-338`. |
| WindowRegistry.Registry.MapThenUnmap | AwesomeMouseMode/src/dllmain.cpp:445-470 | Hooking a window that was not hooked and then unhooking it restores the map and every window's procedure. |
| Pointer.PointerDisambiguator.OnButtonDown | AwesomeMouseMode/src/dllmain.cpp:94-112 | The new state is PressStep of the old one. The click point becomes the origin and the delta is zeroed. A pen click sets the digitizer click and event flags and the pen-down flag; a mouse click clears pen-down and keeps the flags. |
| Pointer.PointerDisambiguator.OnButtonUp | AwesomeMouseMode/src/dllmain.cpp:113-116 | The new state is ReleaseStep of the old one: only the two down flags are cleared, and every other field is unchanged. |
| Pointer.PointerDisambiguator.OnDoubleClick | AwesomeMouseMode/src/dllmain.cpp:117-127 | The new state and the forwarded point are DoubleClickStep of the old state. A pen double-click is moved to the last tracked pen point and sets the counter to 3. Otherwise nothing changes. |
| Pointer.PointerDisambiguator.OnMove | AwesomeMouseMode/src/dllmain.cpp:151-241 | The new state and the forwarded point are exactly MoveStep of the old state and the inputs, and the counter stays in 0..3. |
| Pointer.PointerDisambiguator.TrackPenMove | AwesomeMouseMode/src/dllmain.cpp:165-198 | A tracked move goes out as origin plus the new running delta, after which the delta is zero and the baseline is the move. The digitizer event and click flags are always set. While a digitizer event was already pending, a Ctrl/Shift hold holds the move at the origin with the baseline and delta unchanged, and a jittery move (under 3 units, or a draw above 70) is held at the origin with the sum kept. |
| Pointer.PointerDisambiguator.AbsorbWarp | AwesomeMouseMode/src/dllmain.cpp:199-219 | A corrective move clears the digitizer event, re-homes the origin once if a digitizer click is pending, and, with Ctrl/Shift held, zeroes the delta and goes out at the origin. |
| Wheel.KeyTaps | AwesomeMouseMode/src/dllmain.cpp:362-368 | `count` press/release pairs of one key, all keyboard records. |
| Wheel.ZoomKeystrokes | AwesomeMouseMode/src/dllmain.cpp:362-368 | The `for` loop emits exactly `KeyTaps(vk, count)`. |
| Wheel.KeyTapsKeys | AwesomeMouseMode/src/dllmain.cpp:362-368 | Tapping a key that is up presses it exactly `count` times, presses no other key, and leaves the keyboard as it was. |
| Wheel.ZoomEffectsSpec | AwesomeMouseMode/src/dllmain.cpp:353-375 | The zoom input for `n` notches is keyboard records only, `n` net zoom steps, all on one zoom key. Ctrl is released while they are tapped and held again at the end, so the keyboard ends as it began. |
| Wheel.ZoomKey | AwesomeMouseMode/src/dllmain.cpp:355 | The zoom key is the plus key exactly when the notch count is positive, and the minus key otherwise. |
| Wheel.ZoomEffects | AwesomeMouseMode/src/dllmain.cpp:353-375 | No input for zero notches. For `n` notches the input is `2*abs(n)+2` keyboard records: it begins by releasing Ctrl and ends by pressing it again. |
| Wheel.WheelStep | AwesomeMouseMode/src/dllmain.cpp:344-392 | The horizontal accumulator and the trackpad flag are kept and every accumulator stays below one notch. Every delivery is a forward to the original procedure, and the reply is its result exactly when one forward happened. |
| Wheel.HorizontalWheelStep | AwesomeMouseMode/src/dllmain.cpp:393-425 | The vertical and zoom accumulators are kept and the horizontal one stays below one notch. Every delivery is a forward to the original procedure, the reply is its result exactly when one happened, and the trackpad flag is down after one. |
| Wheel.WheelStepCases | AwesomeMouseMode/src/dllmain.cpp:344-392 | Ctrl-only and not inside a trackpad scroll: the event is swallowed. Zoom steps × 120 plus the new zoom remainder equals the old remainder plus the raw delta, and the keystrokes are exactly those for that many steps. Otherwise: the forwarded amount is whole notches and, with the new remainder, equals the old plus the 4/3-scaled delta. Zero is swallowed; anything else is forwarded once with the same key word and the amount cast to 16 bits. |
| Wheel.HorizontalWheelStepCases | AwesomeMouseMode/src/dllmain.cpp:393-425 | The notch and remainder law with the -2 scale. A non-zero amount goes out as exactly [Ctrl-down, Ctrl+wheel forward under the trackpad flag, Ctrl-up]. Zero is swallowed with the flag unchanged. |
| Wheel.WheelQuantizer.OnWheel | AwesomeMouseMode/src/dllmain.cpp:344-392 | The new accumulators, the effects and the reply are exactly WheelStep of the old accumulators and the message, and every accumulator stays below one notch. |
| Wheel.WheelQuantizer.OnHorizontalWheel | AwesomeMouseMode/src/dllmain.cpp:393-425 | The new accumulators, the effects and the reply are exactly HorizontalWheelStep of the old accumulators and the message, and every accumulator stays below one notch. |
| Wheel.ScrollWrapExample | AwesomeMouseMode/src/dllmain.cpp:390 | A raw delta of 24660 accumulates 274 whole notches (32880), which the `(short)` cast sends out as -32656. |
| Gesture.ChordKeys | AwesomeMouseMode/src/dllmain.cpp:294-311 | Ctrl and Alt are held while the synthetic click is delivered, and both are released afterwards. |
| Gesture.ClickEffects | AwesomeMouseMode/src/dllmain.cpp:294-311 | The synthetic click is seven steps: Ctrl and Alt down, cursor to the screen point, a move, a press at the gesture point, Ctrl and Alt up. Nothing is forwarded and every delivery goes to the original procedure. |
| Gesture.ClickEffectsBalance | AwesomeMouseMode/src/dllmain.cpp:294-311 | The synthetic Ctrl+Alt click delivers exactly one more button press than releases to the original procedure, so it leaves one click held. |
| Gesture.PanBalance | AwesomeMouseMode/src/dllmain.cpp:283-333 | A pan event's cancel, click, release and drag pieces change the host's count of held synthetic clicks by -1, +1, -1 and 0. |
| Gesture.PanGesture.OnPan | AwesomeMouseMode/src/dllmain.cpp:283-335 | The new pan state and the effects are exactly PanStep of the old state and the gesture. |
| Gesture.PanGesture.StartPan | AwesomeMouseMode/src/dllmain.cpp:282-313 | A begin, or a flagless event while coasting, releases a click still held at the last point and makes the Ctrl+Alt click at the gesture point. The click is then held, the pan is in its first-move window and no longer coasting, and the last point is the gesture point. Any other event changes nothing. |
| Gesture.PanGesture.SettlePan | AwesomeMouseMode/src/dllmain.cpp:314-326 | Inertia marks the pan as coasting and closes the first-move window. An end stops the coasting, and if a click is held it releases it at the gesture point and puts the cursor back at the recorded real position. |
| Gesture.PanGesture.DragPan | AwesomeMouseMode/src/dllmain.cpp:328-332 | Any event but a begin, while the click is held, sends one move to the gesture point and records it as the last point. Nothing else changes. |
| Gesture.PanGesture.OnMouseMove | AwesomeMouseMode/src/dllmain.cpp:129-150 | The new pan state, the verdict and the effects are exactly FilterStep of the old state. The three outcomes: a move with the click held after the first move cancels it (release at the last point, cursor back) and is swallowed; a move elsewhere while the finger is down is swallowed; otherwise the first-move window closes and, with no click held, the real cursor is recorded. |
| Gesture.PanStep | AwesomeMouseMode/src/dllmain.cpp:283-335 | The recorded real cursor position is kept. An end leaves the click released and the pan not coasting, and inertia closes the first-move window. |
| Gesture.PanStepCases | AwesomeMouseMode/src/dllmain.cpp:283-335 | States the exact ordered effects: [release old click] + [Ctrl-down, Alt-down, cursor, move, press, Ctrl-up, Alt-up] on a begin or restart, then [release at the point, cursor back] on an end, then [drag] when neither. States every new flag; an end leaves down and inertia false. The host's unmatched presses track the down flag, nothing is forwarded, and every delivery goes to the original procedure. |
| Gesture.FilterStep | AwesomeMouseMode/src/dllmain.cpp:129-150 | The filter keeps the inertia flag and the last point, and never forwards. A move it lets through has no effects and closes the first-move window. |
| Interceptor.Interceptor.WndProc | AwesomeMouseMode/src/dllmain.cpp:81-430 | An unhooked window gets 0 with no effect and no state change. Otherwise the effects, the reply and the new pointer, wheel and pan states are exactly Dispatch of the old states. Every delivery goes to the window's original procedure, the reply is the forward's result exactly when one forward happened, and only the message's own components change. |
| Interceptor.Interceptor.OnPointer | AwesomeMouseMode/src/dllmain.cpp:94-241 | The effects, the reply and the new pointer and pan states are exactly Dispatch's for a button or move message. A move is offered to the pan filter first; if the filter swallows it the pointer is untouched, otherwise it is forwarded at MoveStep's point. |
| Interceptor.Interceptor.OnWheel | AwesomeMouseMode/src/dllmain.cpp:344-425 | The effects, the reply and the new wheel state are exactly Dispatch's for a wheel message, that is WheelStep's or HorizontalWheelStep's. |
| Interceptor.Interceptor.OnGesture | AwesomeMouseMode/src/dllmain.cpp:273-342 | The effects, the reply and the new pan state are exactly Dispatch's: a GID_PAN gesture gives PanStep's effects followed by closing the handle, with reply 0; a failed query or another gesture id is forwarded unchanged. |
| Interceptor.Interceptor.OnKeyOrOther | AwesomeMouseMode/src/dllmain.cpp:242-260 | Key-down gives the redo keys followed by the forward, a character is forwarded remapped, and anything else is forwarded unchanged. |
| Interceptor.Dispatch | AwesomeMouseMode/src/dllmain.cpp:81-430 | For every message of a hooked window, every delivery goes to the window's original procedure, and the reply is the forward's result exactly when one forward happened. |
| Interceptor.DispatchKeeps | AwesomeMouseMode/src/dllmain.cpp:81-430 | Handling any message keeps the invariants of the pointer, wheel and pan states, and changes only the components the message belongs to. |
| Interceptor.DispatchConsumes | AwesomeMouseMode/src/dllmain.cpp:129-150 | A mouse move gets reply 0 exactly when the pan filter swallows it, and then the pointer state is kept and the effects are the filter's. A GID_PAN gesture gets 0 and its handle is closed last. |
| Earlier.TrackedDeltaTelescopes | AwesomeMouseMode/dllmain.cpp:127-144 | After any run of tracked pen moves, the running delta is the start delta plus the distance from the start baseline to the last move. |
| Earlier.TrackedDeltaSnoc | AwesomeMouseMode/dllmain.cpp:132-137 | One more tracked move continues from the delta and the last point that the moves before it left. |
| Earlier.EarlyPenRunTracks | AwesomeMouseMode/dllmain.cpp:127-144 | Over any run of hidden-cursor pen moves that avoid the button-down point, folded through EarlyMove, the origin is kept, the baseline ends at the last move, a digitizer event is pending, and the running delta is TrackedDelta of the run: the start delta plus the distance from the start baseline to the last move. |
| Earlier.EarlyPress | AwesomeMouseMode/dllmain.cpp:82-97 | The click point becomes the origin, the delta is zeroed and the down flag set. A pen click sets the digitizer click and event flags; a mouse click keeps them. The baseline and the counter are kept. |
| Earlier.EarlyRelease | AwesomeMouseMode/dllmain.cpp:98-100 | Only the down flag is cleared. |
| Earlier.EarlyDoubleClick | AwesomeMouseMode/dllmain.cpp:101-111 | Only the counter may change. A pen double-click is forwarded at the last tracked pen point and sets the counter to 3; a mouse double-click is forwarded as it is. |
| Earlier.EarlyMoveCases | AwesomeMouseMode/dllmain.cpp:112-175 | The counter counts down within 0..3. A tracked pen move adds its step to the delta, which is never reset by emitting, and goes out at origin plus delta. After a digitizer event, any other hidden-cursor move zeroes the delta, clears the event, re-homes the origin if a click is pending, and goes out at the origin. Without a pending event it re-homes the origin and passes through. A shown-cursor pen move only becomes the baseline outside a double-click. |
| Earlier.EarlyWheelStep | AwesomeMouseMode/dllmain.cpp:216-232 | The same notch and remainder law as the current vertical scroll, through the older formula. Zero is swallowed and anything else is forwarded once with the same key word; the accumulators stay below one notch. |
| Earlier.EarlyHorizontalWheelStep | AwesomeMouseMode/dllmain.cpp:233-263 | The -2 scale. A non-zero amount goes out as exactly [Ctrl-down, Ctrl+wheel forward, Ctrl-up] and its result is returned; zero is swallowed. |
| Earlier.EarlyDispatch | AwesomeMouseMode/dllmain.cpp:69-268 | Every delivery is a forward to the window's original procedure, and the reply is its result exactly when one forward happened. Every message except a wheel message is forwarded. |
| Earlier.EarlyDispatchKeeps | AwesomeMouseMode/dllmain.cpp:69-268 | Handling any message keeps the pointer and wheel invariants, and changes only the component the message belongs to. |
| Earlier.EarlyPointer.OnButtonDown | AwesomeMouseMode/dllmain.cpp:82-97 | The new state is EarlyPress of the old one. |
| Earlier.EarlyPointer.OnButtonUp | AwesomeMouseMode/dllmain.cpp:98-100 | The new state is EarlyRelease of the old one. |
| Earlier.EarlyPointer.OnDoubleClick | AwesomeMouseMode/dllmain.cpp:101-111 | The new state and the forwarded point are EarlyDoubleClick of the old state. |
| Earlier.EarlyPointer.OnMove | AwesomeMouseMode/dllmain.cpp:112-175 | The new state and the forwarded point are exactly EarlyMove of the old state and the inputs, and the counter stays in 0..3. |
| Earlier.EarlyWheel.OnWheel | AwesomeMouseMode/dllmain.cpp:216-232 | The new accumulators, the effects and the reply are exactly EarlyWheelStep of the old accumulators and the message. |
| Earlier.EarlyWheel.OnHorizontalWheel | AwesomeMouseMode/dllmain.cpp:233-263 | The new accumulators, the effects and the reply are exactly EarlyHorizontalWheelStep of the old accumulators and the message. |
| Earlier.EarlyInterceptor.WndProc | AwesomeMouseMode/dllmain.cpp:69-268 | An unhooked window gets 0 with no state change. Otherwise the effects, the reply and the new pointer and wheel states are exactly EarlyDispatch of the old states: pointer messages are rewritten by the drag state, wheel messages go through the accumulators, keys and characters are remapped as in the current revision, and WM_GESTURE and unnamed messages are forwarded unchanged. |
| Earlier.EarlyInterceptor.OnPointer | AwesomeMouseMode/dllmain.cpp:82-175 | The effects, the reply and the new pointer state are exactly EarlyDispatch's: each pointer message is forwarded once, a double-click and a move at the point the pointer state gives. |

## Left out

- Locking (`std::recursive_mutex`): each registry operation is atomic here.
- Re-entrant delivery. A synthetic input or a call to the original
  procedure that re-enters `OurWndProc` is recorded as an effect and never
  dispatched again. `gInTrackpadScroll` is modelled and checked by the zoom
  path, but it is only raised inside a delivery, so no nested call
  observes it.
- `WM_GESTURENOTIFY` (it only pushes a gesture configuration to the
  platform). It falls to the forward like any other message.
- The earlier revision's `WM_GESTURE` block. It sits behind
  `kEnableMultiTouch = false`, so the message is forwarded unchanged.
- `DllMain`, hook registration, `DEBUG_TRACE` and
  `AwesomeMouseMode/src/VstMain.cpp`.
- The platform calls themselves. `GetCursorInfo`, `GetKeyState`,
  `GetCursorPos`, `ClientToScreen`, `GetGestureInfo` and `rand()` are
  values supplied with the message. `CallWindowProc`, `SendInput`,
  `SetCursorPos` and `CloseGestureInfoHandle` are effects. The result of a
  forward is opaque.
- 32-bit overflow of `int` and `LONG` arithmetic, which is undefined in C++.
  Points and accumulators are unbounded integers; only the 16-bit
  `(short)` casts are modelled.
- The compile-time switches (`kEnableDigitizerFix` and the others) are fixed
  at their shipped values. Under them, the earlier revision's `break`
  inside `if (kEnableDigitizerFix)` never falls through to `WM_KEYDOWN`.
- The low-word and keyData parts of messages that are forwarded unchanged
  are carried but not interpreted.
