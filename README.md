# Touch calibration for an ESP32 touchscreen panel — a Dafny model

This project models the touch-calibration and touch-input logic of the
firmware in `src/main.cpp`. The firmware brings up a display with a
resistive touch controller. At boot it calibrates the touch controller
once, then runs a grid of 50 GUI buttons. One button shows the calibration
values and another starts a new calibration.

What is modelled:

- **Extreme-value selector** (`pick_best_calibration`). Four calibration
  passes each give eight raw 16-bit readings. Each slot keeps its lowest
  reading when every reading of that slot is below 2000. Otherwise it keeps
  the highest reading. The rule is specified by `SeqMin`, `SeqMax`,
  `PickSlot` and `Select` on sequences. The method `PickBestCalibration`
  implements it with the source's nested loops over a `uint16_t[4][8]` array
  and writes the result into an `out` array.
- **Skip gate** (`check_skip_calibration`). It scans the compiled-in
  defaults for a nonzero value and hands them to the driver if it finds one.
  It then polls for up to 5000 ms. The elapsed time is computed with
  wrap-safe unsigned 32-bit subtraction.
- **Calibration controller** (`run_calibration` and the calibration step of
  `setup`). It is a class (`Firmware.Controller`) over the file-scope
  globals `cal_values`, `calibration_done`, `button_press_count` and
  `cal_label`, the display size `display_width` / `display_height`, and the
  static `is_blue` of `button_event_handler`.
- **Touch read callback** (`my_touch_read`). A touch is clamped to the
  display and reported as pressed. No touch is reported as released.
- **Button handler and label toggle** (`button_event_handler`,
  `toggle_calibration_values`).

The hardware and the clock are inputs to the model:

- `hasTouch` stands for `display.touch()` being non-null.
- `polls` is a sequence of `Poll(now, touched)` observations. Each one is
  the `millis()` reading of one iteration of the skip loop's guard,
  followed by the `getTouch` result.
- `passes` holds the eight values each of the four blocking
  `calibrateTouch` passes writes.
- The touch read takes the result of `getTouch` as parameters.
- The field `driverCalibration` records what `setTouchCalibrate` was last
  given.

The polling loop terminates on real hardware because the clock keeps
running. The model states this as a precondition: the observations must
contain a poll at or past the end of the 5000 ms window (`WindowCloses`).

Two points where the model follows what the code does rather than what it
appears to intend:

- All-zero defaults are the "no calibration known" sentinel. `setup` scans
  for them and then branches on the result, which suggests the skip offer
  was meant to be suppressed. But both branches call
  `run_calibration(false)`, so the skip is offered either way. The scan
  inside `check_skip_calibration` only decides whether the defaults are
  handed to the driver before polling. Taking the skip with all-zero
  defaults installs all zeros. `PlaceholderDefaultsCanBeSkippedTo` states
  this.
- The code keeps no explicit calibration-state enumeration, only
  `calibration_done`, and the model keeps only that.

## Model

| member | source | states |
|---|---|---|
| `ExtremeSelector.SeqMin` | src/main.cpp:68-71 | The running minimum of a slot is one of its readings and is no larger than any of them. |
| `ExtremeSelector.SeqMax` | src/main.cpp:69-72 | The running maximum of a slot is one of its readings and is no smaller than any of them. |
| `ExtremeSelector.PickSlot` | src/main.cpp:74-75 | The chosen value is a reading of the slot. If all readings are below 2000 it is at most every reading. If any reading is 2000 or more it is at least every reading. |
| `ExtremeSelector.Select` | src/main.cpp:65-77 | The selector yields exactly eight values, one per slot. |
| `ExtremeSelector.SelectSlot` | src/main.cpp:67-75 | For each slot of a 4x8 sample set, the output is one of the four sampled values at that slot. It is the minimum when all four are below 2000 and the maximum otherwise. |
| `ExtremeSelector.MinMaxBySameReadings` | src/main.cpp:68-73 | The minimum and maximum of a slot depend only on which readings occur, not on their order or repetition. |
| `ExtremeSelector.SelectIgnoresRunOrder` | src/main.cpp:67-73 | Any reordering of the four passes (equal multisets of passes) gives the same calibration vector. |
| `ExtremeSelector.SelectSlotIsLocal` | src/main.cpp:67-75 | Output slot i depends only on the readings at slot i. |
| `ExtremeSelector.PickSlotExample` | src/main.cpp:74-75 | {10, 12, 8, 11} gives 8 and {3990, 3980, 3995, 3988} gives 3995. |
| `ExtremeSelector.SlotExtremes` | src/main.cpp:68-73 | The inner scan from pass 0 over the four passes ends with the minimum and maximum of the slot's column. |
| `ExtremeSelector.PickBestCalibration` | src/main.cpp:65-77 | After the nested loops, `out` holds exactly the selector's vector for the sample array. |
| `SkipGate.ScanHasValidCal` | src/main.cpp:131-137 | The scan reports true iff some of the eight defaults is nonzero, i.e. iff they are not the all-zero placeholder. The same scan appears again at src/main.cpp:288-294. |
| `SkipGate.Elapsed` | src/main.cpp:168 | `millis() - start_time` is the unique 32-bit duration that, added to the start reading modulo 2^32, gives the current reading. |
| `SkipGate.ElapsedIsTrueDuration` | src/main.cpp:167-168 | If real time advanced by d < 2^32 ms, the elapsed time computed from the two wrapped readings is exactly d, even across a counter wrap. |
| `SkipGate.AwaitSkipTouch` | src/main.cpp:167-178 | The loop returns true at the first poll that sees a touch while less than 5000 ms have elapsed. It returns false at the first poll where 5000 ms have elapsed, with no touch before. Its result equals `SkipTouched`. |
| `SkipGate.NoSkipWithoutTouchInWindow` | src/main.cpp:168-178 | If no poll is touched before the first poll past the window, the gate does not skip. |
| `SkipGate.SkipExampleAcrossWrap` | src/main.cpp:167-174 | A touch 1200 ms after a start 100 ms before the counter wraps is inside the window and skips. |
| `SkipGate.Ili9488DefaultsAreValid` | src/screen_config_3.5_ILI9488.h:31 | The 3.5 inch panel's compiled-in vector has eight values and is not the placeholder. |
| `TouchInput.ClampAxis` | src/main.cpp:38-41 | On a display at least 1 pixel wide the clamped coordinate lies in [0, bound-1]. In-range coordinates pass unchanged, negative ones become 0 and too-large ones become bound-1. On a 0-wide display the result is -1, as the code computes. |
| `TouchInput.ClampExample` | src/main.cpp:38-41 | (-5, 10000) on 320x480 becomes (0, 479). |
| `ButtonPanel.FirstIndexOf` | src/main.cpp:231-238 | The result is -1 iff the target is not a button. Otherwise it is the first index holding the target. |
| `ButtonPanel.FindButton` | src/main.cpp:231-238 | The lookup loop with early exit returns the first matching index, or -1. |
| `ButtonPanel.Toggled` | src/main.cpp:90-124 | A visible label becomes hidden and keeps its text. A missing or hidden label becomes visible with the values text when calibration is done, and with the "not calibrated" text otherwise. |
| `ButtonPanel.ToggleTwice` | src/main.cpp:92-109 | Toggling an existing label twice restores its visibility. |
| `Firmware.CalibrationResult` | src/main.cpp:183-208 | The vector installed when touch hardware exists always has eight values. |
| `Firmware.CalibrationResultIsObserved` | src/main.cpp:185-206 | Every installed value is either its compiled-in default or one of the four readings of its slot. |
| `Firmware.RecalibrationAlwaysSamples` | src/main.cpp:185 | With the GUI already running, the skip is never offered and the sampled selection is installed. |
| `Firmware.SkipInstallsDefaults` | src/main.cpp:185-189 | At boot, a touch inside the window installs the defaults. |
| `Firmware.TimeoutSamples` | src/main.cpp:185-206 | At boot, a window that closes with no touch leads to the selector applied to the four passes. |
| `Firmware.PlaceholderDefaultsCanBeSkippedTo` | src/main.cpp:185-186 | With all-zero defaults the skip is still offered, and taking it installs all zeros. |
| `Firmware.CalibrationIgnoresPassOrder` | src/main.cpp:192-206 | Reordering the four passes does not change the installed vector. |
| `Firmware.Controller.constructor` | src/main.cpp:28-61 | Initial state: the display size (lines 28-29) is fixed, values all zero, not calibrated, counters zero, no label, nothing installed in the driver (lines 57-61), and the static `is_blue` of line 260 false. |
| `Firmware.Controller.TouchRead` | src/main.cpp:31-48 | The state is PRESSED iff the driver reports a touch. A touched point is clamped per axis and lies inside a display of at least 1x1. On release the point is left as it was. |
| `Firmware.TouchReadExample` | src/main.cpp:31-48 | A controller built with the 3.5 inch panel's defaults on a 320x480 display reports a touch at (-5, 10000) as pressed at (0, 479) through the read callback. |
| `Firmware.Controller.CheckSkipCalibration` | src/main.cpp:126-179 | Without touch hardware it returns false and changes nothing. Otherwise it installs non-placeholder defaults in the driver and returns exactly `SkipTouched`. |
| `Firmware.Controller.RunCalibration` | src/main.cpp:181-209 | Without touch hardware nothing changes. Otherwise `cal_values` becomes the defaults on the skip path or the selector over exactly the four passes otherwise. `calibration_done` is set and the same vector is in the driver. |
| `Firmware.Controller.ToggleCalibrationValues` | src/main.cpp:90-124 | The label becomes `Toggled` of its old value, using the current calibration state and values. |
| `Firmware.Controller.ButtonEventHandler` | src/main.cpp:226-263 | Non-click events and unknown targets change nothing. Index 48 only toggles the label. Index 49 only recalibrates, without a skip offer. Any other button increments its own counter and flips `is_blue`, and nothing else changes. |
| `Firmware.Controller.BootCalibration` | src/main.cpp:287-301 | At boot, with touch hardware, the calibration result is the same whether or not the defaults are the placeholder: both branches run the boot-time calibration. |

## Left out

- Drawing and text output are not modelled: the skip screen, the pass prompts, `fillRect` highlights, `my_disp_flush`/`pushImage`, Serial output in `print_calibration_values` and `snprintf` formatting. The label's text is a datatype rather than a formatted string.
- Delays are not modelled: the 50 ms polling cadence and the 200 ms confirmation hold. Time enters only through the observed clock readings.
- The GUI refresh pumping after a recalibration from the running GUI (src/main.cpp:211-223) is a call into the GUI library and is not modelled.
- `lv_init`, display and input-device creation and button layout in `setup` (src/main.cpp:303-349) are not modelled. The button handles are given to the constructor.
- `loop()` and `my_tick` are scheduler plumbing and are not modelled.
- `Firmware.Controller.ButtonEventHandler`: the colour a button is painted and its label text are not modelled, because both are GUI calls. The colour choice depends only on the modelled `is_blue`.
- `Firmware.Controller.ButtonEventHandler`: press counters are unbounded integers. The C `int` could only overflow after 2^31 presses.
- `SkipGate.AwaitSkipTouch`: it requires that some observation lies at or past the end of the window. This stands for the running clock and is not a demand the source makes of its callers.
- The blocking `calibrateTouch` is an input. Its blocking forever when no corner is ever touched is not modelled.
- `src/LGFX_ST7796S.h` and `src/LGFX_ILI9488.h` only configure pins, buses and the backlight, so they are not modelled. `include/lv_conf.h` holds only build constants.
- `screen_config_4.0_ST7796S.h` is not part of this model. The defaults are a constructor parameter, and the 3.5 inch panel's vector is used as an example.
