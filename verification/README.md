# MotorMapping trial logic in Dafny

This project models the decision logic of the `MotorMapping` experiment
(`experiment.py`). A participant steers an on-screen cursor with a gamepad
stick and answers with the back triggers. Each block runs in one of three
phases (practice, training, test) under one joystick mapping and trial type:

- PP: physical practice, moving onto the target;
- MI: motor imagery;
- CC: choice-only control.

Each trial goes through these steps:

- It draws a target distance, angle and onset.
- It registers an onset ticket and a timeout ticket with the event manager.
- It runs a frame loop that classifies errors, latches reaction times, logs
  cursor samples, tracks whether the cursor rests on the target, and takes a
  trigger press as the response.
- It returns an outcome record, and writes the samples only when the trial
  ended without error.

Modules:

- `Screen`: integer pixel points and squared distances; Python's truncating
  `int()`; the joystick mappings; and the stick-to-cursor remap.
- `Stick`: `joystick_scaled` (deadzone and rescaling) and the mouse emulation
  of the stick.
- `Triggers`: `get_triggers`, for a gamepad and for the mouse with its 100 ms
  grace window.
- `Schedule`: the event tickets, the values `randrange` can draw, and the onset
  window.
- `TrialStep`: one pass of the trial loop as a function `Step` over the loop's
  locals (`Vars`) and what the frame reads from outside (`Frame`). `Run` folds
  the frames in order and stops at the first pass that leaves the loop.
- `TrialRuns`: properties of whole runs. These cover the latches, the loop
  invariant, the sample log, and the absence of a TypeError when the target is
  clear of the centre.
- `Inputs`: how `get_triggers` and `joystick_scaled` feed the frame that one
  pass of the loop reads.
- `Results`: the outcome record, with "NA" for values never set, and the
  decision to write samples.
- `Experiment`: the `MotorMapping` object itself.
  - `Block` picks the phase and the mapping.
  - `TrialPrep` stores the trial factors and registers the tickets.
  - `Trial` is the loop, written imperatively over the frames and proved to
    compute `Results.TrialOf`.

Python semantics kept:

- **Latches test truthiness.** `not movement_rt` is true for `None` and for
  `0.0`, so a latched zero is latched again.
- **Subtracting an unset onset raises TypeError.** It does so at lines 285 and
  299. Here the run ends as `Crashed`.
  - `TrialRuns.RunNeverCrashes` shows this cannot happen when no cursor
    position within `cursor_size` of the centre is on the target and the
    frames' clock readings come in program order (`TrialRuns.Chained`).
- **`err` may never be bound.** This happens when the timeout ticket has fired
  before the first loop test. Finishing the trial then raises
  UnboundLocalError, and `Conclude` returns `Crash`.

Two consequences of how `trial()` is written:

- A trial that reaches the timeout records `err` as "NA". There is no separate
  timeout code, so its samples are written.
- Every error before onset recycles the trial (lines 243-250). This includes
  "stick_mi" and "stick_cc", not only "too_soon".

## Model

| member | source | states |
|---|---|---|
| Screen.DistSq | experiment.py:219 | the squared distance is zero exactly when the two points coincide, so `cursor_movement > 0` is "off the centre" |
| Screen.TruncToZero | experiment.py:213-214 | `int()` truncates toward zero: for either sign the result is within one of the argument and not farther from zero |
| Screen.Mods | experiment.py:119-124 | each axis sign is ±1; x is flipped exactly for backwards and inverted_x, y exactly for backwards and inverted_y |
| Screen.MappingMirrorsNormal | experiment.py:212-215 | under every mapping the cursor offset from the centre is the normal mapping's offset times `(mod_x, mod_y)` |
| Screen.FlippedAxisMirrors | experiment.py:213-214 | flipping an axis sign mirrors that axis' pixel offset exactly, despite truncation |
| Screen.AxisOffsetBounded | experiment.py:213-214 | a stick value in [-1, 1] moves the cursor at most `target_dist_max` pixels along that axis |
| Screen.CursorWithinReach | experiment.py:212-215 | a stick inside the unit square keeps the cursor within `target_dist_max` of the centre on both axes, for every mapping |
| Screen.CentredStickCentredCursor | experiment.py:212-215 | a centred stick puts the cursor on the screen centre under every mapping |
| Screen.AxisOffset | experiment.py:213-214 | a centred axis gives no offset, and the offset has the sign of `j · mod` (`Screen.AxisOffsetBounded` bounds it by `target_dist_max`) |
| Screen.CursorPos | experiment.py:212-215 | a centred stick gives the centre, and each axis' offset from the centre is the mapping's sign for that axis times the normal mapping's offset |
| Screen.TruncOdd | experiment.py:213-214 | truncation commutes with negation |
| Screen.TruncMonotone | experiment.py:213-214 | truncation is monotone |
| Stick.Amplitude | experiment.py:421 | the amplitude is in [0, 1], is 1 exactly when the raw deflection reaches AXIS_MAX, and is otherwise deflection / AXIS_MAX |
| Stick.Rescale | experiment.py:428 | the rescaled amplitude is in [0, 1], 0 exactly at the deadzone edge and 1 exactly at full deflection |
| Stick.JoystickScaled | experiment.py:418-432 | the origin is returned exactly when x²+y² < (deadzone·AXIS_MAX)²; otherwise the raw angle is kept with amplitude (a − deadzone)/(1 − deadzone) of the capped amplitude a, which lies in [0, 1], is 0 exactly at the deadzone edge and 1 exactly at full deflection |
| Stick.AmplitudeAtDeadzone | experiment.py:421-422 | the capped amplitude equals the deadzone exactly when the raw deflection is deadzone·AXIS_MAX |
| Stick.DeadzoneOnSquares | experiment.py:421-423 | the deadzone test on the capped amplitude is the same as the comparison of squared raw deflections |
| Stick.RescaleMonotone | experiment.py:428 | rescaling preserves the order of amplitudes |
| Stick.RescaleContinuousAtDeadzone | experiment.py:422-428 | amplitudes just past the deadzone map to values near 0, so leaving the deadzone causes no jump |
| Stick.ScaledExamples | experiment.py:418-432 | a resting stick gives the origin; a full push along one axis gives amplitude 1 |
| Stick.MouseToRaw | experiment.py:391-395 | the emulated axis reads 0 at the centre, ±AXIS_MAX at ±`target_dist_max` pixels, and has the sign of the mouse offset |
| Triggers.Normalise | experiment.py:413 | the pressure times TRIGGER_MAX is the raw reading, and a reading in [0, TRIGGER_MAX] gives a pressure in [0, 1] |
| Triggers.GetTriggers | experiment.py:400-413 | on a gamepad each pressure is its raw reading / TRIGGER_MAX, in [0, 1] for readings in range, below 0.2 exactly up to raw 6553 and above 0.5 exactly from 16384; the mouse gives both triggers 1 exactly when the button is down after 100 ms of trial time, and 0 otherwise |
| Triggers.RawThresholds | experiment.py:218 | a raw trigger is below 0.2 exactly up to 6553 and above 0.5 exactly from 16384 |
| Triggers.GraceWindowReleases | experiment.py:408-410 | within the first 100 ms the emulated triggers are released whatever the mouse does |
| Schedule.RandRangeValues | experiment.py:158-161 | the values `randrange(start, stop, step)` can draw are start + i·step, all in [start, stop), none exactly when start >= stop, and the range is exhausted |
| Schedule.DrawableIsInRange | experiment.py:158-161 | a value can be drawn by `randrange(start, stop, step)` exactly when it lies in [start, stop) at a whole number of steps from start |
| Schedule.OnsetWindow | experiment.py:161-165 | the onset is one of the twenty multiples of 100 from 1000 to 2900, and the timeout ticket lies between 16000 and 17900 ms |
| TrialStep.Classify | experiment.py:223-233 | "too_soon" exactly for a trigger off rest before the onset ticket or for PP movement before onset; "stick_mi"/"stick_cc" exactly for MI/CC movement without a premature trigger |
| TrialStep.LogSample | experiment.py:253-264 | before onset or with a centred cursor nothing changes; otherwise the last position follows the cursor and exactly one sample, stamped with the ms since onset, is appended exactly when the cursor moved |
| TrialStep.LatchMovement | experiment.py:220-222 | only `movement_rt` and `initial_angle` may change; they change only after onset with no truthy `movement_rt` and the cursor off centre, and then become the input time since onset and the frame's angle (`TrialStep.MovementLatch` gives the converse) |
| TrialStep.FrameError | experiment.py:223-233 | a trigger off rest before the onset ticket is "too_soon"; without that, a cursor within `cursor_size` of the centre is "NA", and so is PP after onset (`TrialStep.Classify` and `TrialStep.StickErrors` give every case) |
| TrialStep.StampOnset | experiment.py:276-278 | only `target_on` may change; it stays when already truthy or before the onset ticket, and otherwise becomes the clock reading of line 278 |
| TrialStep.Track | experiment.py:280-300 | only `contact_rt`, `over_target` and `response_rt` may change; the loop continues, responds or crashes; `response_rt` is set only on a response, with a trigger above 0.5, to the clock reading of line 299 minus the onset; a crash happens only without an onset (`TrialStep.ContactLatch`, `TrialStep.OverTargetRules`, `TrialStep.ResponseGate`) |
| TrialStep.Step | experiment.py:209-300 | after a pass `err` is bound; it is "NA" exactly when the loop goes on, responds or crashes; an error recycles only before onset and breaks only after it |
| TrialStep.Advance | experiment.py:200-300 | the loop is left at its test exactly when the timeout ticket has fired, and then the locals are unchanged |
| TrialStep.Run | experiment.py:198-300 | without frames the loop is still running with its initial locals; a loop still running after a pass has `err` "NA" (`TrialRuns.RunStopped`, `TrialRuns.RunKeepsInv`, `TrialRuns.RunEvolves`) |
| TrialStep.StickErrors | experiment.py:224-230 | movement beyond the cursor size is "stick_mi" under MI, "stick_cc" under CC, "too_soon" under PP before onset, and no error under PP after onset |
| TrialStep.ErrorsEndTheFrame | experiment.py:231-250 | a trigger off rest before the onset ticket is "too_soon" whatever the stick did; an error recycles the trial before onset and breaks the loop after it; a frame without error does neither |
| TrialStep.MovementLatch | experiment.py:220-222 | `movement_rt` and `initial_angle` are latched together exactly on a frame after onset with the cursor off centre and no truthy `movement_rt`, and are otherwise unchanged |
| TrialStep.ContactLatch | experiment.py:281-285 | `contact_rt` is latched exactly on a frame on the target with no truthy `contact_rt`, whatever the triggers, and is otherwise unchanged |
| TrialStep.OverTargetRules | experiment.py:281-294 | the flag rises exactly on a tracked frame on the target with both triggers released, stays up while on the target, and drops off the target |
| TrialStep.ResponseGate | experiment.py:296-300 | a response happens exactly when a trigger is above 0.5 and either the trial is MI/CC or the cursor is over the target; under PP, never on the frame the flag rises |
| TrialRuns.RunStopped | experiment.py:200 | once a pass leaves the loop, later frames are never looked at |
| TrialRuns.RunEvolves | experiment.py:220-299 | across a run, truthy latches and a truthy onset never change, set values stay set, `err` stays bound, and the sample list only grows |
| TrialRuns.RunKeepsInv | experiment.py:198-300 | while the loop runs: nothing is latched or logged before onset; movement and angle are latched together; no response is set; no sample repeats its predecessor's position, samples are off centre, are in time order and within the elapsed time; and `(last_x, last_y)` is the last sample or (-1, -1) |
| TrialRuns.StepKeepsInv | experiment.py:209-300 | one running pass keeps the loop invariant |
| TrialRuns.StepNeverCrashes | experiment.py:282-299 | with the target out of reach of the centre, no pass subtracts an unset onset |
| TrialRuns.RunNeverCrashes | experiment.py:282-299 | with the target out of reach of the centre, no run over ordered frames ends in a TypeError |
| TrialRuns.RecycledLeavesNoData | experiment.py:243-250 | a recycled attempt has latched nothing, logged nothing and not stamped the onset |
| TrialRuns.RunningHasNoError | experiment.py:223-300 | a running or timed-out loop has no response and `err` unbound or "NA"; a response leaves `err` "NA"; an error break leaves `err` set to an error |
| TrialRuns.RunWellLogged | experiment.py:253-264 | however the loop ends, no sample repeats its predecessor's position, no sample is centred, nothing before onset, and times in order |
| Results.Assemble | experiment.py:324-339 | the record carries `err`, the trial type, the mapping and the target position; `target_onset` is "NA" exactly without a truthy onset and the drawn onset otherwise; each time field and `initial_angle` is "NA" exactly when unset; a set `movement_rt`, `contact_rt` and `response_rt` is recorded times 1000 (ms) and a set `initial_angle` as is; `target_dist` and `target_angle` are the drawn factors |
| Results.Conclude | experiment.py:302-339 | a running loop has no result; a recycle and a finish are told apart by the status; a record is returned exactly after a timeout, error break or response with `err` bound, with that `err`, and the samples are written exactly when it is "NA" (`Results.WrittenExactlyWithoutError`) |
| Results.TrialOf | experiment.py:198-339 | no frames give no result, and a returned record has the block's trial type and mapping (`Results.NeverLatchedIsNA`, `Results.UnboundErrOnlyWithoutPass`, `Results.NoDataWithoutTarget`) |
| Results.NeverLatchedIsNA | experiment.py:324-339 | each time field and `initial_angle` is "NA" exactly when it was never set during the run, and `target_onset` exactly when the target was never shown |
| Results.WrittenExactlyWithoutError | experiment.py:313-322 | `err` is "NA" exactly after a response or a timeout, and then all samples are written; an error break writes none; a response always has its time, a timeout never |
| Results.UnboundErrOnlyWithoutPass | experiment.py:200-223 | `err` is unbound exactly when there are no frames or the timeout has fired at the first loop test |
| Results.NoDataWithoutTarget | experiment.py:243-250 | a recycled trial has logged nothing; with the target clear of the centre, a trial fails with an exception exactly when its first loop test finds the timeout fired |
| Results.WrittenSamplesWellFormed | experiment.py:253-264 | no written sample repeats its predecessor's position, none is on the centre, and exist only after onset, with times in order from 0 |
| Inputs.StickComponents | experiment.py:430 | a centred stick or a zero amplitude gives the point (0, 0) |
| Inputs.DeadzoneStickNoMovement | experiment.py:209-233 | a raw deflection inside the deadzone, read through `joystick_scaled`, keeps the cursor on the centre, latches no movement and raises no stick error |
| Inputs.GamepadTriggerStates | experiment.py:209-218 | triggers read through `get_triggers` from a gamepad are released exactly when both raw readings are at most 6553, and pressed exactly when either reaches 16384 |
| Inputs.RestingGamepadNoError | experiment.py:209-233 | a gamepad with both triggers at rest and the stick inside the deadzone raises no error on that frame |
| Experiment.PhaseOf | experiment.py:127-128 | the phase is defined exactly for block numbers -2 to 3 (negative list indexing); block 1 is practice and block 3 is test |
| Experiment.BlockSettings | experiment.py:129-140 | practice and test run PP, training runs the condition; only the test phase uses the test mapping |
| Experiment.MotorMapping.Block | experiment.py:124-140 | the phase and settings follow the block number, nothing changes on an IndexError, and trial fields and tickets are kept |
| Experiment.MotorMapping.TrialPrep | experiment.py:157-167 | the drawn factors are stored, and the onset ticket and the timeout ticket 15 s later are registered |
| Experiment.MotorMapping.Trial | experiment.py:179-339 | the imperative loop returns exactly the outcome `Results.TrialOf` specifies for its frames |
| Experiment.Pass | experiment.py:200-300 | one pass of the imperative loop body computes `TrialStep.Advance` |
| Experiment.TrackTarget | experiment.py:280-300 | the imperative contact, over-target and response code computes `TrialStep.Track` |

## Left out

- Rendering and feedback are not modelled: `fill`, `blit`, `flip`, `message`, `show_feedback`, `show_gamepad_debug` and the block instruction text.
- Event-queue polling (`pump`, `ui_request`, `flush`, `wait_for_input`) is not modelled. Neither is the abort handling inside the klibs library.
- Device access is not modelled: gamepad initialisation, `gamepad.update`, `SDL_GetMouseState` and `mouse_pos`. Stick and trigger readings enter each frame as inputs.
- The clock is an input. Each frame carries the `precise_time()` readings at lines 211, 278, 285 and 299, and the elapsed trial times behind the three `evm` queries at lines 200, 231 and 277. `TrialRuns.Chained` states the order these readings are assumed to come in.
- The event manager's internals are not visible. A ticket is modelled as a registered time in ms; `before` holds while the elapsed time is below it.
- `randrange` draws are parameters of `TrialPrep`, constrained by `Schedule.Drawable` to the values it can return.
- Trigonometry is not modelled: `angle_between`, `point_pos`, `vector_angle` and `vector_to_pos`. Angles and the target location are opaque inputs.
- `sqrt` is not computed. `joystick_scaled` receives the root with its defining equation, and every `linear_dist` threshold is decided on squared integers.
- Stick.JoystickScaled: returns the rescaled amplitude and the angle rather than the Cartesian point `point_pos` would compute.
- Floating-point rounding is not modelled; reals are exact. The thresholds of `Triggers.RawThresholds` assume exact division.
- `self.db.insert` is not modelled; only which samples would be written is.
- `setup`, `clean_up`, `deg_to_px` and `px_to_deg` are not modelled. `target_dist` is recorded in pixels rather than converted to degrees.
- The block and trial numbers copied into the outcome record are not modelled.
- The `P.input_mappings` configuration table is not part of this model. The mapping signs follow the direction table in `block`.
- Experiment.MotorMapping.TrialPrep: the ValueError `randrange` raises on an empty range (`target_dist_min >= target_dist_max`) is not modelled; its `requires` cannot be met then, since no distance is drawable.
- Experiment.MotorMapping.TrialPrep: does not compute `target_loc` from the distance and angle, because that is trigonometry; the location is a parameter.
- Experiment.MotorMapping.Trial: models the frames as a finite sequence. When they run out before the loop stops, the result is `Unfinished`.
