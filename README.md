# Adjustment, button and subtexture models

This project models three widgets of the Nbtk/Mx toolkit and proves properties about them in Dafny:

- **NbtkAdjustment** (`nbtk/nbtk-adjustment.c`): a bounded scrolling value.
  - It keeps a lower and an upper bound, a value, step and page increments, and a page size.
  - It has a construction flag, an elastic flag, and an optional interpolation run that moves the value over a number of timeline frames.
- **NbtkButton** (`nbtk/nbtk-button.c`): the press / hover / checked state machine.
  - It sets the widget's style pseudo-class ("active", "hover", "checked" or none).
  - It emits "clicked".
- **MxSubtexture** (`mx/mx-subtexture.c`): a frame record of four integers cut from a parent texture, with change-detecting setters, the preferred-size queries, and the realize / unrealize and parent-texture guards.

Each widget is modelled twice, and the two are proved to agree:

- **A value module** (`AdjustmentState`, `ButtonState`, `SubtextureState`):
  - a datatype holding the private fields;
  - one function per operation, giving the fields afterwards, with contracts stating what the operation promises.
- **A class** (`NbtkAdjustment.Adjustment`, `NbtkButton.Button`, `MxSubtextureActor.Subtexture`):
  - fields that mirror the C private struct, and methods whose bodies update them step by step as the C functions do;
  - each method is proved to leave exactly the state the value function describes (`ensures Current() == S.F(old(Current()), …)`).

The lemma modules (`AdjustmentLemmas`, `ButtonLemmas`, `SubtextureLemmas`) prove properties that span several calls. They include invariants over arbitrary sequences of operations and events, the landing of an interpolation run, and round trips.

Modelling choices:

- **Numbers.**
  - `ClutterFixed` 16.16 fixed-point numbers are unbounded integers counting 1/65536ths (`FixedMath`).
  - `clutter_qdivx` is C's truncating division of the dividend shifted left by 16.
  - `clutter_qmulx` is the product shifted right by 16, which rounds toward minus infinity.
  - GLib's `CLAMP` tests the upper bound first. This matters when the window is empty.
- **Notifications.** `g_object_notify` calls and signal emissions are recorded in order, in a log.
  - For the adjustment, the log holds the property notifications and "changed".
  - For the button, it holds "label", "toggle-mode", "checked" and "clicked".
  - For the subtexture, it holds "top", "left", "width", "height" and "parent-texture". The subtexture also counts queued redraws and relayouts.
- **Timeline.** The timeline is replaced by explicit calls:
  - `NewFrame(frame, eased)` stands for the "new-frame" callback, and `Completed()` for the "completed" callback.
  - Both require that a run exists, because `stop_interpolation` drops the timeline, and with it the handlers.
  - `running` models `priv->interpolation != NULL`.
  - `fps` only paces the external timeline, and it is accepted and ignored.
- **Construction.** The adjustment's `g_object_new` sets every property through its setter, because all of them are construct properties. It sets them in the order the class installs them: lower, upper, value, step-increment, page-increment, page-size, elastic. `is_constructing` is set during this, so nothing is clamped until `constructed` runs `clamp_pagex` once.

Behaviour of the code that the model keeps, and that a reader might not expect:

- The window invariant `lower <= value <= max(lower, upper - page_size)` is not kept in every reachable state.
  - It can fail only when the page does not fit between the bounds: `clamp_pagex` then computes a window whose low end lies above its high end, so it may leave the value where it is.
  - Example: `g_object_new` with lower 0, upper 5, page size 30 and value -10 keeps the value -10 below `lower` (`AdjustmentLemmas.PageLargerThanRangeLeavesValueBelowLower`).
  - What does hold is proved as `AdjustmentLemmas.ReachableInWindow`. After a non-elastic construction, along any sequence of calls that never calls `set_elastic`, whenever `lower + page_size <= upper` the value lies in `[lower, upper - page_size]`.
  - `set_elastic` is excluded because it neither clamps nor notifies. Turning elasticity on, setting 200 on bounds 0..100 with page size 10, and turning it off again leaves the value outside the window (`AdjustmentLemmas.ElasticToggleLeavesValueOutsideWindow`).
- An interpolation does not necessarily land on the target it was given.
  - Completion stores `set_valuex(new_position)`, which clamps.
  - So the run lands on the target only in elastic mode, or when the target is in the window (`AdjustmentLemmas.InterpolationLands`).
- `clamp_pagex` can notify "value" without changing it when the requested window is narrower than the page (`AdjustmentLemmas.ClampPageNotifiesUnchangedValue`).
- `nbtk_adjustment_newx` writes the six numbers raw after construction. A value outside the window survives it (`AdjustmentLemmas.NewXDoesNotClamp`).
- `get_valuex` reports the run's target pulled into the window while a run exists, not the stored value (`AdjustmentLemmas.ReportedValueFixedDuringRun`).
- While a button is held, entering it replaces "active" with "hover" (`ButtonLemmas.EnterWhilePressedShowsHover`). The pseudo-class rule holds only for a button that is not pressed (`ButtonLemmas.ReachableResting`).

## Model

| member | source | states |
|---|---|---|
| FixedMath.IntToFixed | nbtk/nbtk-adjustment.c:811-812 | CLUTTER_INT_TO_FIXED(n) is a whole multiple of 65536 whose quotient is n |
| FixedMath.Max | nbtk/nbtk-adjustment.c:393-394 | MAX is at least both operands and equals one of them |
| FixedMath.Min | nbtk/nbtk-adjustment.c:393-394 | MIN is at most both operands and equals one of them |
| FixedMath.Clamp | nbtk/nbtk-adjustment.c:424-425 | CLAMP tests `high` first. It lies in [low, high] when low <= high, leaves an in-range x alone, and yields high above, low below, and always one of x, low, high |
| FixedMath.TruncDiv | nbtk/nbtk-adjustment.c:811-812 | C division truncates toward zero. \|q\|·\|b\| <= \|a\| < (\|q\|+1)·\|b\|, and the sign of q is the product of the operands' signs |
| FixedMath.FixedMul | nbtk/nbtk-adjustment.c:754-755 | qmulx is the floor of a·b / 65536: r·65536 <= a·b < (r+1)·65536 |
| FixedMath.FixedDiv | nbtk/nbtk-adjustment.c:811-812 | qdivx brackets \|a\|·65536 between \|r\|·\|b\| and (\|r\|+1)·\|b\|. The quotient is non-negative when the operands agree in sign and non-positive otherwise |
| FixedMath.MulIntToFixed | nbtk/nbtk-adjustment.c:754-755 | qmulx(INT_TO_FIXED(k), dx) is exactly k·dx, with no rounding |
| FixedMath.DivIntToFixed | nbtk/nbtk-adjustment.c:811-812 | qdivx(d, INT_TO_FIXED(n)) is d divided by n, truncated toward zero |
| AdjustmentState.StoredValue | nbtk/nbtk-adjustment.c:420-426 | after construction and not elastic, the stored value lies in [lower, max(lower, upper - page_size)]. An in-window request is kept, one below goes to lower, one above goes to the top. Otherwise the request is stored as is |
| AdjustmentState.Initial | nbtk/nbtk-adjustment.c:333-338 | a new instance is constructing, with no run, not elastic, and nothing notified |
| AdjustmentState.StopInterpolation | nbtk/nbtk-adjustment.c:206-228 | afterwards no run exists. Without a run nothing changes, and otherwise only the run flag changes |
| AdjustmentState.SetValuex | nbtk/nbtk-adjustment.c:409-433 | cancels any run and stores StoredValue(v). It notifies "value" exactly when the stored value changed, and nothing else changes |
| AdjustmentState.PageLow | nbtk/nbtk-adjustment.c:456 | the requested low end is clamped into [lower, upper - page_size] when the page fits |
| AdjustmentState.PageHigh | nbtk/nbtk-adjustment.c:457 | the requested high end is clamped into [lower + page_size, upper] when the page fits |
| AdjustmentState.ClampPagex | nbtk/nbtk-adjustment.c:443-475 | cancels any run and puts the value in the narrowed window whenever that window is non-empty. With the page fitting, the value ends in [lower, upper - page_size]. A value already inside is untouched and not notified. The bounds are never written, and at most one "value" notification is made |
| AdjustmentState.Reclamp | nbtk/nbtk-adjustment.c:502-506 | while constructing nothing happens. Otherwise the run is cancelled, the value is put in the window when the page fits, and an in-window value is left alone without notification |
| AdjustmentState.SetLower | nbtk/nbtk-adjustment.c:488-512 | reports a change iff the bound differs. Without a change the state is untouched. With one, it logs "changed" and "lower", then re-clamps after construction |
| AdjustmentState.SetUpper | nbtk/nbtk-adjustment.c:515-539 | as SetLower, for the upper bound |
| AdjustmentState.SetPageSize | nbtk/nbtk-adjustment.c:584-608 | as SetLower, for the page size |
| AdjustmentState.SetStepIncrement | nbtk/nbtk-adjustment.c:542-560 | reports a change iff the increment differs, and stores it with "changed" and its notification. The value and any run are never touched |
| AdjustmentState.SetPageIncrement | nbtk/nbtk-adjustment.c:563-581 | as SetStepIncrement, for the page increment |
| AdjustmentState.SetRange | nbtk/nbtk-adjustment.c:632-636 | the five setters store all five numbers and keep the flags and run positions. They report a change iff any number differed, and without one the state is untouched |
| AdjustmentState.SetValuesx | nbtk/nbtk-adjustment.c:611-647 | as written: no run remains, and the five range numbers are stored shifted left by 16 bits, because the setters take a gdouble and convert it. While constructing or elastic, the value is stored raw. When the stored fields equal the value and the scaled numbers, the call only cancels the run |
| AdjustmentState.SetValuesxIntended | nbtk/nbtk-adjustment.c:611-647 | as intended: no run remains and all five numbers are stored as given. While constructing or elastic, the value is stored raw. When nothing differs, the call only cancels the run |
| AdjustmentState.GetValuex | nbtk/nbtk-adjustment.c:383-398 | without a run it is the stored value. With a run it is never below lower, it is the target clamped into the window when the page fits, and it is lower otherwise |
| AdjustmentState.GetValue | nbtk/nbtk-adjustment.c:401-406 | the raw stored value, even while a run is active |
| AdjustmentState.GetValuesx | nbtk/nbtk-adjustment.c:668-699 | the bounds, increments and page size as stored, and the value as get_valuex reports it: the stored value without a run, and during a run the target clamped into the window (or lower when the page does not fit) |
| AdjustmentState.Interpolatex | nbtk/nbtk-adjustment.c:793-829 | with at most one frame it is exactly set_valuex(target). Otherwise it starts a run from the stored value toward the target, with dx = (target - value) / n_frames truncated, so \|dx\|·n <= \|target - value\|. The value and log are unchanged |
| AdjustmentState.FramePosition | nbtk/nbtk-adjustment.c:743-755 | a linear frame k asks for old_position + k·dx, and an elastic frame asks for the eased position |
| AdjustmentState.NewFrame | nbtk/nbtk-adjustment.c:736-757 | the run survives its own frame. The value becomes set_valuex of the frame position, notified iff changed, and no setting changes |
| AdjustmentState.Completed | nbtk/nbtk-adjustment.c:760-768 | the run ends and the value becomes set_valuex(new_position): the raw target when elastic, otherwise the target clamped to the window |
| AdjustmentState.SetElastic | nbtk/nbtk-adjustment.c:850-854 | only the flag changes. There is no re-clamp and no notification |
| AdjustmentState.ClampDestination | nbtk/nbtk-adjustment.c:863-868 | dest is CLAMP(value, lower, upper - page_size), with the upper test overriding. When the page fits, dest equals value iff the value is in the window |
| AdjustmentState.ClampToRange | nbtk/nbtk-adjustment.c:857-884 | returns true iff dest differs from value, and with false nothing changes. It is set_valuex(dest) without interpolation and interpolatex(dest) with it. When the page fits it returns true iff the value was outside the window, and settles it in the window without interpolation |
| AdjustmentState.Constructed | nbtk/nbtk-adjustment.c:99-115 | construction ends with no run. When the page fits, the value is in the window, and an in-window value is untouched |
| AdjustmentState.Construct | nbtk/nbtk-adjustment.c:239-330 | g_object_new stores every property raw. After the final clamp the value is in the window when the page fits, and an in-window value is kept |
| AdjustmentState.SetConstructProperties | nbtk/nbtk-adjustment.c:162-203 | the construct properties through their setters, in install order: the bounds, increments, page size and elastic flag are stored, no run remains, the log only grows, and while constructing the value is stored raw |
| AdjustmentState.SetBounds | nbtk/nbtk-adjustment.c:171-177 | "lower" then "upper": both stored, the other settings kept, the value untouched while constructing, the log only grows |
| AdjustmentState.SetIncrements | nbtk/nbtk-adjustment.c:183-193 | "step-increment", "page-increment", "page-size": all three stored, the other settings kept, the value untouched while constructing, no run started, the log only grows |
| AdjustmentState.NewX | nbtk/nbtk-adjustment.c:359-380 | newx leaves the six numbers exactly as given, unclamped, with no run, not elastic and nothing notified |
| AdjustmentLemmas.SetValuexIdempotent | nbtk/nbtk-adjustment.c:428-432 | repeating set_valuex with the same argument changes nothing and notifies nothing |
| AdjustmentLemmas.StopInterpolationIdempotent | nbtk/nbtk-adjustment.c:210-227 | stopping twice is stopping once, and without a run stopping does nothing |
| AdjustmentLemmas.DirectWritesCancelRun | nbtk/nbtk-adjustment.c:418 | set_valuex, clamp_pagex, set_valuesx and a one-frame interpolatex each leave no run |
| AdjustmentLemmas.SetRangeExtendsLog | nbtk/nbtk-adjustment.c:632-636 | the five setters only append to the log |
| AdjustmentLemmas.SetRangeKeepsWindow | nbtk/nbtk-adjustment.c:632-636 | after construction, if the value was in the window whenever the page fitted, that still holds for the final bounds |
| AdjustmentLemmas.SetValuesxClamps | nbtk/nbtk-adjustment.c:611-647 | from such a state, when the new page fits, the intended set_valuesx leaves CLAMP(value, lower, upper - page_size) |
| AdjustmentLemmas.SetValuesxSignals | nbtk/nbtk-adjustment.c:637-644 | for the intended set_valuesx: when nothing differs nothing is logged. Otherwise the log grows and ends with a "changed" emission |
| AdjustmentLemmas.SetValuesxScalesRange | nbtk/nbtk-adjustment.c:632-636 | set_valuesx as written, asked for upper 100, step 1 and page size 10 in fixed point, stores 100·2^32, 2^32 and 10·2^32, past any 32-bit ClutterFixed. The intended call stores 100·2^16 and 10·2^16 |
| AdjustmentLemmas.RunFrames | nbtk/nbtk-adjustment.c:736-757 | any sequence of frames keeps the run and the settings. After a non-empty sequence, a clamping value is bounded by the window, and an elastic or constructing value is the last frame's position |
| AdjustmentLemmas.ReportedValueFixedDuringRun | nbtk/nbtk-adjustment.c:391-395 | during a run, whatever frames arrive, get_valuex stays max(lower, min(upper - page_size, target)) |
| AdjustmentLemmas.InterpolationLands | nbtk/nbtk-adjustment.c:760-768 | after any frames and the completion, no run remains. The value is what set_valuex(target) would store from the start, and get_valuex reports it |
| AdjustmentLemmas.LinearFramesBetween | nbtk/nbtk-adjustment.c:808-812 | every linear frame position k in 0..n lies between the start and the target, so truncating division never overshoots |
| AdjustmentLemmas.ApplyKeepsSettled | nbtk/nbtk-adjustment.c:409-884 | every operation except set_elastic, including set_valuesx both as written and as intended, preserves: after construction and not elastic, the value is in the window whenever the page fits |
| AdjustmentLemmas.RunKeepsSettled | nbtk/nbtk-adjustment.c:409-884 | so does every sequence of those operations |
| AdjustmentLemmas.ReachableInWindow | nbtk/nbtk-adjustment.c:99-115 | from a non-elastic g_object_new, every state reached without calling set_elastic, with the page fitting, has value and get_valuex in [lower, upper - page_size] |
| AdjustmentLemmas.ElasticToggleLeavesValueOutsideWindow | nbtk/nbtk-adjustment.c:850-854 | set_elastic(TRUE), set_valuex(200) and set_elastic(FALSE) on bounds 0..100 with page 10 leave a clamping, well-formed adjustment with value 200 outside the window |
| AdjustmentLemmas.PageLargerThanRangeLeavesValueBelowLower | nbtk/nbtk-adjustment.c:456-472 | with page size 30 on bounds 0..5, a constructed value of -10 stays below lower |
| AdjustmentLemmas.NewXDoesNotClamp | nbtk/nbtk-adjustment.c:369-377 | newx keeps a value of 200 on bounds 0..100, and get_valuex reports 200 |
| AdjustmentLemmas.ClampPageNotifiesUnchangedValue | nbtk/nbtk-adjustment.c:459-474 | requesting [50, 50] with page 10 notifies "value" although the value stays 50 |
| AdjustmentLemmas.LinearRunScenario | nbtk/nbtk-adjustment.c:793-829 | 50 to 95 over 10 frames on 0..100 with page 10 steps by 4.5. Frame 4 stores 68, frame 9 is clamped to 90, get_valuex says 90, and completion lands on 90 |
| AdjustmentLemmas.ElasticRunScenario | nbtk/nbtk-adjustment.c:743-749 | an elastic run stores an eased position below lower while get_valuex says 0, and completion stores -20 unclamped |
| NbtkAdjustment.Adjustment.constructor | nbtk/nbtk-adjustment.c:239-330 | the object's fields after construction are exactly Construct's |
| NbtkAdjustment.Adjustment.NewX | nbtk/nbtk-adjustment.c:359-380 | the object's fields are exactly NewX's |
| NbtkAdjustment.Adjustment.ConstructProperties | nbtk/nbtk-adjustment.c:162-203 | the construct properties set through their setters, in install order |
| NbtkAdjustment.Adjustment.Constructed | nbtk/nbtk-adjustment.c:99-115 | in-place constructed agrees with Constructed |
| NbtkAdjustment.Adjustment.StopInterpolation | nbtk/nbtk-adjustment.c:206-228 | in place, agrees with StopInterpolation |
| NbtkAdjustment.Adjustment.GetValuex | nbtk/nbtk-adjustment.c:383-398 | returns GetValuex of the fields |
| NbtkAdjustment.Adjustment.GetValue | nbtk/nbtk-adjustment.c:401-406 | returns the stored value |
| NbtkAdjustment.Adjustment.SetValuex | nbtk/nbtk-adjustment.c:409-433 | in place, agrees with SetValuex |
| NbtkAdjustment.Adjustment.ClampPagex | nbtk/nbtk-adjustment.c:443-475 | in place with the `changed` flag, agrees with ClampPagex |
| NbtkAdjustment.Adjustment.SetLower | nbtk/nbtk-adjustment.c:488-512 | returns and stores what SetLower says |
| NbtkAdjustment.Adjustment.SetUpper | nbtk/nbtk-adjustment.c:515-539 | returns and stores what SetUpper says |
| NbtkAdjustment.Adjustment.SetStepIncrement | nbtk/nbtk-adjustment.c:542-560 | returns and stores what SetStepIncrement says |
| NbtkAdjustment.Adjustment.SetPageIncrement | nbtk/nbtk-adjustment.c:563-581 | returns and stores what SetPageIncrement says |
| NbtkAdjustment.Adjustment.SetPageSize | nbtk/nbtk-adjustment.c:584-608 | returns and stores what SetPageSize says |
| NbtkAdjustment.Adjustment.SetValuesx | nbtk/nbtk-adjustment.c:611-647 | as written: hands the range numbers to the setters shifted left by 16 bits, and agrees with SetValuesx |
| NbtkAdjustment.Adjustment.SetRange | nbtk/nbtk-adjustment.c:632-636 | the five range setters in place, returning and storing what SetRange says |
| NbtkAdjustment.Adjustment.SetValuesxIntended | nbtk/nbtk-adjustment.c:620-646 | in place with `emit_changed`, agrees with SetValuesxIntended |
| NbtkAdjustment.Adjustment.GetValuesx | nbtk/nbtk-adjustment.c:668-699 | returns GetValuesx of the fields |
| NbtkAdjustment.Adjustment.NewFrame | nbtk/nbtk-adjustment.c:736-757 | hides the run around set_valuex, and agrees with NewFrame |
| NbtkAdjustment.Adjustment.Completed | nbtk/nbtk-adjustment.c:760-768 | in place, agrees with Completed |
| NbtkAdjustment.Adjustment.Interpolatex | nbtk/nbtk-adjustment.c:793-829 | in place, agrees with Interpolatex |
| NbtkAdjustment.Adjustment.GetElastic | nbtk/nbtk-adjustment.c:844-847 | returns the elastic flag |
| NbtkAdjustment.Adjustment.SetElastic | nbtk/nbtk-adjustment.c:850-854 | in place, agrees with SetElastic |
| NbtkAdjustment.Adjustment.Clamp | nbtk/nbtk-adjustment.c:857-884 | returns and stores what ClampToRange says |
| ButtonState.Initial | nbtk/nbtk-button.c:529-537 | a new button has every bit clear, no pseudo-class and no text |
| ButtonState.Resting | nbtk/nbtk-button.c:210-217 | the resting pseudo-class is "checked" iff checked, "hover" iff hovered and not checked, and none otherwise |
| ButtonState.RealPressed | nbtk/nbtk-button.c:201-204 | sets "active" and nothing else |
| ButtonState.RealReleased | nbtk/nbtk-button.c:207-218 | sets the resting pseudo-class and nothing else |
| ButtonState.SetChecked | nbtk/nbtk-button.c:692-711 | stores the flag. The pseudo-class changes only if the flag changed, to "checked", or to "hover" or none. "checked" is always notified |
| ButtonState.ButtonPress | nbtk/nbtk-button.c:221-241 | handled iff button 1, which sets pressed and "active". Any other button changes nothing |
| ButtonState.ButtonRelease | nbtk/nbtk-button.c:244-275 | handled iff button 1 after a press. It flips checked iff in toggle mode, clears the press, restores the resting pseudo-class and logs exactly one "clicked". Otherwise nothing changes |
| ButtonState.Enter | nbtk/nbtk-button.c:278-292 | sets hover, and "hover" only when not checked |
| ButtonState.Leave | nbtk/nbtk-button.c:295-324 | clears hover and any press without a click, ending "checked" or with none |
| ButtonState.SetToggleMode | nbtk/nbtk-button.c:657-665 | stores the flag and notifies "toggle-mode" |
| ButtonState.SetLabel | nbtk/nbtk-button.c:590-630 | NULL stores the empty string, other text is stored as given, and "label" is notified |
| ButtonLemmas.StepKeepsResting | nbtk/nbtk-button.c:201-324 | every event and call keeps: not pressed implies the resting pseudo-class |
| ButtonLemmas.RunKeepsResting | nbtk/nbtk-button.c:201-324 | so does every event sequence |
| ButtonLemmas.ReachableResting | nbtk/nbtk-button.c:529-537 | every state a new button reaches keeps the rule |
| ButtonLemmas.ClickRoundTrip | nbtk/nbtk-button.c:221-275 | outside toggle mode, press and release give back the state, plus one "clicked" |
| ButtonLemmas.ToggleTwiceRestores | nbtk/nbtk-button.c:257-261 | in toggle mode one click flips checked, and two restore the state with two "checked" and two "clicked" |
| ButtonLemmas.LeaveCancelsClick | nbtk/nbtk-button.c:295-311 | after leave, no release is handled and nothing is clicked |
| ButtonLemmas.EnterWhilePressedShowsHover | nbtk/nbtk-button.c:282-283 | entering a held button replaces "active" with "hover" |
| ButtonLemmas.StepLog | nbtk/nbtk-button.c:244-711 | each event appends exactly its notifications to the log |
| ButtonLemmas.EmittedClicks | nbtk/nbtk-button.c:269 | those notifications contain one "clicked" iff the event is a button-1 release of a pressed button |
| ButtonLemmas.StepClicks | nbtk/nbtk-button.c:269 | each event adds one "clicked" iff it is a button-1 release of a pressed button |
| ButtonLemmas.ClicksCountPressedReleases | nbtk/nbtk-button.c:244-275 | across any event sequence, exactly one "clicked" is emitted per button-1 release that finds the button pressed, and none otherwise |
| ButtonLemmas.PressedReleasesAtMostReleases | nbtk/nbtk-button.c:247-253 | those releases are at most all button-1 releases |
| ButtonLemmas.ClicksBoundedByReleases | nbtk/nbtk-button.c:244-275 | across any event sequence, "clicked" count <= button-1 release count |
| NbtkButton.Button.constructor | nbtk/nbtk-button.c:547-550 | a new object has Initial's fields |
| NbtkButton.Button.WithLabel | nbtk/nbtk-button.c:561-564 | a new object with its label set through SetLabel |
| NbtkButton.Button.RealPressed | nbtk/nbtk-button.c:201-204 | in place, agrees with RealPressed |
| NbtkButton.Button.RealReleased | nbtk/nbtk-button.c:207-218 | in place, agrees with RealReleased |
| NbtkButton.Button.ButtonPress | nbtk/nbtk-button.c:221-241 | returns and stores what ButtonPress says |
| NbtkButton.Button.ButtonRelease | nbtk/nbtk-button.c:244-275 | returns and stores what ButtonRelease says |
| NbtkButton.Button.Enter | nbtk/nbtk-button.c:278-292 | returns false and agrees with Enter |
| NbtkButton.Button.Leave | nbtk/nbtk-button.c:295-324 | returns false and agrees with Leave |
| NbtkButton.Button.GetLabel | nbtk/nbtk-button.c:575-580 | returns the stored text |
| NbtkButton.Button.SetLabel | nbtk/nbtk-button.c:590-630 | in place, agrees with SetLabel |
| NbtkButton.Button.GetToggleMode | nbtk/nbtk-button.c:641-646 | returns the toggle flag |
| NbtkButton.Button.SetToggleMode | nbtk/nbtk-button.c:657-665 | in place, agrees with SetToggleMode |
| NbtkButton.Button.GetChecked | nbtk/nbtk-button.c:676-681 | returns the checked flag |
| NbtkButton.Button.SetChecked | nbtk/nbtk-button.c:692-711 | in place, agrees with SetChecked |
| SubtextureState.Initial | mx/mx-subtexture.c:410-417 | a new actor has no texture and no material, is hidden, and nothing is queued or notified |
| SubtextureState.FrameNotices | mx/mx-subtexture.c:203-229 | "top", "left", "width" and "height" each appear iff that field differs, and the list is empty iff the frame is unchanged |
| SubtextureState.WriteTop | mx/mx-subtexture.c:203-208 | stores `top` and notifies iff it differs |
| SubtextureState.WriteLeft | mx/mx-subtexture.c:210-215 | stores `left` and notifies iff it differs |
| SubtextureState.WriteWidth | mx/mx-subtexture.c:217-222 | stores `width` and notifies iff it differs |
| SubtextureState.WriteHeight | mx/mx-subtexture.c:224-229 | stores `height` and notifies iff it differs |
| SubtextureState.SetFrameInternal | mx/mx-subtexture.c:191-235 | the frame becomes the four numbers, with notifications for the changed fields in order. It queues one redraw iff something changed and the actor is visible, and nothing else changes |
| SubtextureState.SetFrame | mx/mx-subtexture.c:529-538 | set_frame is set_frame_internal, and the frame afterwards is the four numbers |
| SubtextureState.SetTop | mx/mx-subtexture.c:253-259 | replaces only `top`, and notifies only "top" and only if it differs |
| SubtextureState.SetLeft | mx/mx-subtexture.c:261-267 | replaces only `left` |
| SubtextureState.SetWidth | mx/mx-subtexture.c:269-275 | replaces only `width` |
| SubtextureState.SetHeight | mx/mx-subtexture.c:277-283 | replaces only `height` |
| SubtextureState.GetPreferredWidth | mx/mx-subtexture.c:63-85 | (width, width) with a parent texture, else (0, 0) |
| SubtextureState.GetPreferredHeight | mx/mx-subtexture.c:88-110 | (height, height) with a parent texture, else (0, 0) |
| SubtextureState.Realize | mx/mx-subtexture.c:113-123 | leaves a material. It is a no-op if one exists, and otherwise sets REALIZED |
| SubtextureState.Unrealize | mx/mx-subtexture.c:126-137 | leaves no material. With one, it drops it and clears REALIZED, and without one nothing changes |
| SubtextureState.SetParentTexture | mx/mx-subtexture.c:479-515 | the current texture is a no-op. Otherwise it stores the texture, queues one relayout and notifies once. A visible actor stays visible iff it had no texture or the new one is visible |
| SubtextureState.GetParentTexture | mx/mx-subtexture.c:463-468 | returns the stored texture |
| SubtextureState.SetVisible | mx/mx-subtexture.c:499-508 | the base actor's hide and show change only the visibility |
| SubtextureState.New | mx/mx-subtexture.c:437-452 | a new subtexture holds the given texture and frame, hidden and without material or redraws |
| SubtextureState.GetFrame | mx/mx-subtexture.c:552-575 | get_frame reports the four stored fields |
| SubtextureLemmas.SetFrameGetFrame | mx/mx-subtexture.c:552-575 | get_frame after set_frame returns exactly the four numbers |
| SubtextureLemmas.SetFrameUnchanged | mx/mx-subtexture.c:199-232 | writing the current frame changes nothing: no notification and no redraw |
| SubtextureLemmas.SetFrameIdempotent | mx/mx-subtexture.c:191-235 | writing a frame twice equals writing it once |
| SubtextureLemmas.RedrawIffChangedAndVisible | mx/mx-subtexture.c:231-232 | redraws grow by one iff visible and some field differed, never by more |
| SubtextureLemmas.SinglePropertySettersKeepOthers | mx/mx-subtexture.c:253-283 | each property setter writes its own field and keeps the other three |
| SubtextureLemmas.PropertiesAgreeWithSetFrame | mx/mx-subtexture.c:238-289 | setting top, left, width, height one by one gives the same frame as set_frame |
| SubtextureLemmas.PreferredSizeFollowsFrame | mx/mx-subtexture.c:63-110 | with a texture, the preferred size is the frame's size, and without one it is zero |
| SubtextureLemmas.RealizeUnrealize | mx/mx-subtexture.c:113-137 | realize and unrealize are each idempotent. On an unrealized actor, unrealize undoes realize, material and REALIZED flag alike, and realize after unrealize is a fresh realize |
| SubtextureLemmas.SameParentIsNoOp | mx/mx-subtexture.c:492-493 | setting the current texture changes nothing |
| SubtextureLemmas.ParentSwapVisibility | mx/mx-subtexture.c:495-509 | a visible actor swapping to a hidden texture ends hidden, but one that had no texture stays visible |
| SubtextureLemmas.NewReportsFrame | mx/mx-subtexture.c:437-452 | a new subtexture reports its frame and, having a texture, its preferred size |
| MxSubtextureActor.Subtexture.constructor | mx/mx-subtexture.c:437-452 | the object's fields are New's |
| MxSubtextureActor.Subtexture.WriteTop | mx/mx-subtexture.c:203-208 | reports and stores what WriteTop says |
| MxSubtextureActor.Subtexture.WriteLeft | mx/mx-subtexture.c:210-215 | reports and stores what WriteLeft says |
| MxSubtextureActor.Subtexture.WriteWidth | mx/mx-subtexture.c:217-222 | reports and stores what WriteWidth says |
| MxSubtextureActor.Subtexture.WriteHeight | mx/mx-subtexture.c:224-229 | reports and stores what WriteHeight says |
| MxSubtextureActor.Subtexture.SetFrameInternal | mx/mx-subtexture.c:191-235 | in place with `changed`, agrees with SetFrameInternal |
| MxSubtextureActor.Subtexture.SetFrame | mx/mx-subtexture.c:529-538 | in place, agrees with SetFrame |
| MxSubtextureActor.Subtexture.GetFrame | mx/mx-subtexture.c:552-575 | returns the four stored fields |
| MxSubtextureActor.Subtexture.SetTop | mx/mx-subtexture.c:253-259 | in place, agrees with SetTop |
| MxSubtextureActor.Subtexture.SetLeft | mx/mx-subtexture.c:261-267 | in place, agrees with SetLeft |
| MxSubtextureActor.Subtexture.SetWidth | mx/mx-subtexture.c:269-275 | in place, agrees with SetWidth |
| MxSubtextureActor.Subtexture.SetHeight | mx/mx-subtexture.c:277-283 | in place, agrees with SetHeight |
| MxSubtextureActor.Subtexture.GetPreferredWidth | mx/mx-subtexture.c:63-85 | returns GetPreferredWidth of the fields |
| MxSubtextureActor.Subtexture.GetPreferredHeight | mx/mx-subtexture.c:88-110 | returns GetPreferredHeight of the fields |
| MxSubtextureActor.Subtexture.Realize | mx/mx-subtexture.c:113-123 | in place, agrees with Realize |
| MxSubtextureActor.Subtexture.Unrealize | mx/mx-subtexture.c:126-137 | in place, agrees with Unrealize |
| MxSubtextureActor.Subtexture.GetParentTexture | mx/mx-subtexture.c:463-468 | returns the stored texture |
| MxSubtextureActor.Subtexture.SetParentTexture | mx/mx-subtexture.c:479-515 | in place, agrees with SetParentTexture |
| MxSubtextureActor.Subtexture.SetVisible | mx/mx-subtexture.c:499-508 | in place, agrees with SetVisible |

## Left out

- Elastic easing: the `ClutterAlpha` progress and its double-precision arithmetic are floating point and a call into Clutter. The eased position of each frame is a parameter of `NewFrame`.
- The double-typed wrappers, left out because they only convert between doubles and fixed point with `CLUTTER_FLOAT_TO_FIXED` and `CLUTTER_FIXED_TO_DOUBLE`:
  - `nbtk_adjustment_new`, `set_value`, `clamp_page`, `set_values`, `get_values` and `interpolate`;
  - the double conversions inside `set_property` and `get_property`.
  - The model works in fixed point throughout, and `Adjustment.constructor` takes fixed-point arguments.
- 32-bit overflow: `ClutterFixed` and `gint` are unbounded integers in the model. `clutter_qdivx` is computed at full width, as its 64-bit intermediate does for in-range operands. Sums such as `value + page_size` are not wrapped.
- GObject plumbing:
  - property tables, `get_property`, `dispose`, `finalize` and reference counting;
  - the coalescing of notifications between `g_object_freeze_notify` and `g_object_thaw_notify`, since the log records every request;
  - GObject's validation of property values against their declared ranges before `set_property` runs.
- Timeline creation, signal connection and `bounce_source`: the timeline is replaced by explicit `NewFrame` and `Completed` calls. Delivery after a run has been stopped cannot happen, and is excluded by their preconditions.
- Button rendering and style: `style_changed`, transition backgrounds, label font styling, allocation, painting, `hide`, tooltips, icons from files and pointer grabs are left out, because they are scene-graph and style calls.
  - Button: the class's `pressed`/`released` handlers are fixed to the defaults, because subclasses that override them are outside this file.
  - Button: the "transition-duration" property only stores a number that the style code reads.
  - Button: creating the label actor is not modelled. Only the stored text is.
- Subtexture painting and Cogl material handles: the material is a flag saying whether a handle exists.
  - Subtexture: show and hide are the base actor's, modelled as setting the visibility flag.
- The remaining context files:
  - `nbtk/nbtk-clipboard.c` (X11 selections);
  - `nbtk/nbtk-texture-cache.c` (a hash lookup around a foreign file loader);
  - `nbtk/nbtk-label.c` (delegation to `ClutterText`);
  - `nbtk/nbtk-private.h` (macros).
- Adjustment.GetValuesx: the C function writes only the out-pointers that are non-NULL. The model returns all six numbers.
- AdjustmentState.SetValuesx: the range numbers, scaled by 65536, overflow a 32-bit ClutterFixed for most inputs. The model keeps them as unbounded integers and does not model what the double-to-fixed conversion then stores.
- ApplyKeepsSettled: the operations exclude set_elastic. Toggling elasticity lets a value outside the window through, so the invariant does not hold across it (`ElasticToggleLeavesValueOutsideWindow`).
- RunKeepsSettled: the sequences exclude set_elastic, for the same reason.
- ReachableInWindow: covers only the states reached without calling set_elastic, for the same reason.
- AdjustmentState.NewFrame and NbtkAdjustment.Adjustment.NewFrame: "notify::value" handlers are not run, because the log only records notifications.
  - In the source, a handler runs while the frame callback has set `priv->interpolation` to NULL (line 742). A setter called from that handler finds no run to cancel, and the run resumes at line 756.
  - An `interpolatex` called from that handler has its new timeline overwritten at line 756.
  - The model does not capture this re-entrancy.

## Findings

| source | as written | input that shows it | evidently intended | confidence | as-written member | corrected member |
|---|---|---|---|---|---|---|
| nbtk/nbtk-adjustment.c:632-636 | `set_valuesx` passes its ClutterFixed range numbers to the private setters. Those take a `gdouble` (lines 87-96) and convert it with `CLUTTER_FLOAT_TO_FIXED` (lines 492, 519, 546, 567, 588), so each number is stored multiplied by 65536 | `set_valuesx(adj, 10<<16, 0, 100<<16, 1<<16, 10<<16, 10<<16)` stores upper = 100·2^32 and page size = 10·2^32, which do not fit 32 bits | store the five numbers as given, as `value` is | not executed | AdjustmentLemmas.SetValuesxScalesRange | AdjustmentState.SetValuesxIntended |

The as-written `AdjustmentState.SetValuesx` and `NbtkAdjustment.Adjustment.SetValuesx` keep the code's behaviour. The properties of the call are proved for `SetValuesxIntended` (`SetValuesxClamps`, `SetValuesxSignals`). The invariant across operations (`ApplyKeepsSettled`) covers both forms.
