/**
 * The firmware's global state and its calibration controller:
 * `run_calibration`, `check_skip_calibration`, the touch read callback,
 * the button handler and the calibration part of `setup`.
 *
 * The display driver is represented by what the controller observes of it:
 * whether a touch controller exists, the clock and touch readings of the
 * skip window (`polls`), and the eight readings each of the four blocking
 * corner-calibration passes returns (`passes`). What the controller hands
 * to the driver's `setTouchCalibrate` is recorded in `driverCalibration`.
 */
module Firmware {
  import opened Native
  import opened ExtremeSelector
  import opened SkipGate
  import opened TouchInput
  import opened ButtonPanel

  /**
   * The calibration vector `run_calibration` installs when a touch
   * controller is present: the compiled-in defaults when the skip offer was
   * made and taken, otherwise the selector applied to the four passes.
   */
  function CalibrationResult(lvglInitialized: bool, defaults: seq<u16>, start: u32,
                             polls: seq<Poll>, passes: seq<seq<u16>>): (r: seq<u16>)
    requires |defaults| == SLOTS && IsSampleSet(passes)
    ensures |r| == SLOTS
  {
    if !lvglInitialized && SkipTouched(start, polls) then defaults else Select(passes)
  }

  /** Every installed value is its default or one of the readings of its slot. */
  lemma CalibrationResultIsObserved(lvglInitialized: bool, defaults: seq<u16>, start: u32,
                                    polls: seq<Poll>, passes: seq<seq<u16>>, i: nat)
    requires |defaults| == SLOTS && IsSampleSet(passes) && i < SLOTS
    ensures var r := CalibrationResult(lvglInitialized, defaults, start, polls, passes);
            r[i] == defaults[i] || exists k :: 0 <= k < CALIBRATION_RUNS && r[i] == passes[k][i]
  {
  }

  /** A recalibration from the running GUI never offers the skip and always samples. */
  lemma RecalibrationAlwaysSamples(defaults: seq<u16>, start: u32, polls: seq<Poll>, passes: seq<seq<u16>>)
    requires |defaults| == SLOTS && IsSampleSet(passes)
    ensures CalibrationResult(true, defaults, start, polls, passes) == Select(passes)
  {
  }

  /** At boot, a touch inside the window installs the compiled-in defaults. */
  lemma SkipInstallsDefaults(defaults: seq<u16>, start: u32, polls: seq<Poll>, passes: seq<seq<u16>>)
    requires |defaults| == SLOTS && IsSampleSet(passes)
    requires SkipTouched(start, polls)
    ensures CalibrationResult(false, defaults, start, polls, passes) == defaults
  {
  }

  /** At boot, a window that closes untouched leads to sampling. */
  lemma {:induction false} TimeoutSamples(defaults: seq<u16>, start: u32, polls: seq<Poll>, passes: seq<seq<u16>>, t: nat)
    requires |defaults| == SLOTS && IsSampleSet(passes)
    requires t < |polls| && !InWindow(start, polls[t])
    requires forall j :: 0 <= j < t ==> !polls[j].touched
    ensures CalibrationResult(false, defaults, start, polls, passes) == Select(passes)
  {
  }

  /**
   * The skip is offered even when the defaults are the all-zero
   * placeholder: a touch in the window then installs all zeros.
   */
  lemma PlaceholderDefaultsCanBeSkippedTo(defaults: seq<u16>, start: u32, polls: seq<Poll>, passes: seq<seq<u16>>)
    requires |defaults| == SLOTS && IsPlaceholder(defaults) && IsSampleSet(passes)
    requires SkipTouched(start, polls)
    ensures IsPlaceholder(CalibrationResult(false, defaults, start, polls, passes))
  {
  }

  /** The order in which the four passes were taken does not matter. */
  lemma {:induction false} CalibrationIgnoresPassOrder(lvglInitialized: bool, defaults: seq<u16>, start: u32,
                                                      polls: seq<Poll>, passes: seq<seq<u16>>, reordered: seq<seq<u16>>)
    requires |defaults| == SLOTS && IsSampleSet(passes)
    requires multiset(reordered) == multiset(passes)
    ensures IsSampleSet(reordered)
    ensures CalibrationResult(lvglInitialized, defaults, start, polls, reordered)
         == CalibrationResult(lvglInitialized, defaults, start, polls, passes)
  {
    SelectIgnoresRunOrder(passes, reordered);
  }

  /** The file-scope state of the firmware and the display driver's touch side. */
  class Controller {
    /** `display.touch()` is non-null: the panel has a touch controller. */
    const hasTouch: bool
    /** `TOUCH_CAL_VALUES`, the compiled-in default calibration. */
    const defaults: seq<u16>
    /** `buttons[]`, as filled in by `setup`. */
    const buttons: seq<ObjHandle>
    /** `cal_values[8]`. */
    const calValues: array<u16>
    /** `button_press_count[BUTTON_COUNT]`. */
    const buttonPressCount: array<int>

    /** `display_width` and `display_height`, never changed after start-up. */
    const displayWidth: i32
    const displayHeight: i32
    var calibrationDone: bool
    /** The vector last passed to the driver's `setTouchCalibrate`, if any. */
    var driverCalibration: Option<seq<u16>>
    /** The static `is_blue` of `button_event_handler`. */
    var isBlue: bool
    /** `cal_label`. */
    var calLabel: CalLabel

    ghost predicate Valid()
      reads this
    {
      calValues.Length == SLOTS && buttonPressCount.Length == BUTTON_COUNT &&
      |defaults| == SLOTS && |buttons| == BUTTON_COUNT &&
      0 <= displayWidth && 0 <= displayHeight
    }

    /**
     * The state once `setup` has read the display size and created the
     * buttons: nothing calibrated, no label, every counter at zero.
     */
    constructor (hasTouch: bool, defaults: seq<u16>, buttons: seq<ObjHandle>, width: i32, height: i32)
      requires |defaults| == SLOTS && |buttons| == BUTTON_COUNT && 0 <= width && 0 <= height
      ensures Valid() && fresh(calValues) && fresh(buttonPressCount)
      ensures this.hasTouch == hasTouch && this.defaults == defaults && this.buttons == buttons
      ensures displayWidth == width && displayHeight == height
      ensures IsPlaceholder(calValues[..]) && !calibrationDone && driverCalibration == None
      ensures forall i :: 0 <= i < BUTTON_COUNT ==> buttonPressCount[i] == 0
      ensures !isBlue && calLabel == NoLabel
    {
      this.hasTouch, this.defaults, this.buttons := hasTouch, defaults, buttons;
      calValues := new u16[SLOTS](_ => 0);
      buttonPressCount := new int[BUTTON_COUNT](_ => 0);
      displayWidth, displayHeight := width, height;
      calibrationDone, driverCalibration := false, None;
      isBlue, calLabel := false, NoLabel;
    }

    /**
     * `my_touch_read`: a touch is clamped into the display and reported as
     * pressed; no touch is reported as released and leaves the point alone.
     */
    method TouchRead(data: IndevData, touched: bool, rawX: i32, rawY: i32)
      requires Valid()
      modifies data
      ensures data.state == (if touched then Pressed else Released)
      ensures touched ==> data.pointX == ClampAxis(rawX, displayWidth) && data.pointY == ClampAxis(rawY, displayHeight)
      ensures touched && 1 <= displayWidth && 1 <= displayHeight ==>
                0 <= data.pointX < displayWidth && 0 <= data.pointY < displayHeight
      ensures !touched ==> data.pointX == old(data.pointX) && data.pointY == old(data.pointY)
    {
      var x, y := rawX, rawY;
      if touched {
        if x < 0 { x := 0; }
        if x >= displayWidth { x := displayWidth - 1; }
        if y < 0 { y := 0; }
        if y >= displayHeight { y := displayHeight - 1; }
        data.pointX, data.pointY := x, y;
      }
      data.state := if touched then Pressed else Released;
    }

    /**
     * `check_skip_calibration`: without touch hardware it declines at once.
     * Otherwise it hands non-placeholder defaults to the driver so that
     * touches register, then polls until a touch (skip) or the end of the
     * five-second window (proceed).
     */
    method CheckSkipCalibration(start: u32, polls: seq<Poll>) returns (skip: bool)
      requires Valid()
      requires hasTouch ==> WindowCloses(start, polls)
      modifies this`driverCalibration
      ensures skip == (hasTouch && SkipTouched(start, polls))
      ensures driverCalibration == if hasTouch && !IsPlaceholder(defaults) then Some(defaults) else old(driverCalibration)
    {
      if !hasTouch {
        return false;
      }
      var hasValidCal := ScanHasValidCal(defaults);
      if hasValidCal {
        driverCalibration := Some(defaults);
      }
      var decidedAt;
      skip, decidedAt := AwaitSkipTouch(start, polls);
    }

    /**
     * `run_calibration`: a no-op without touch hardware. At boot the skip
     * is offered first and taking it installs the defaults; otherwise four
     * passes are sampled and the selector's vector installed. Either way
     * the vector reaches the driver and calibration is marked done.
     */
    method RunCalibration(lvglInitialized: bool, start: u32, polls: seq<Poll>, passes: seq<seq<u16>>)
      requires Valid() && IsSampleSet(passes)
      requires hasTouch && !lvglInitialized ==> WindowCloses(start, polls)
      modifies this`calibrationDone, this`driverCalibration, calValues
      ensures Valid()
      ensures !hasTouch ==> calValues[..] == old(calValues[..]) && calibrationDone == old(calibrationDone) &&
                            driverCalibration == old(driverCalibration)
      ensures hasTouch ==> calValues[..] == CalibrationResult(lvglInitialized, defaults, start, polls, passes) &&
                           calibrationDone && driverCalibration == Some(calValues[..])
    {
      if !hasTouch {
        return;
      }
      if !lvglInitialized {
        var skip := CheckSkipCalibration(start, polls);
        if skip {
          forall i | 0 <= i < SLOTS {
            calValues[i] := defaults[i];
          }
          driverCalibration := Some(calValues[..]);
          calibrationDone := true;
          return;
        }
      }
      var calSamples := new u16[CALIBRATION_RUNS, SLOTS]((_, _) => 0);
      for run := 0 to CALIBRATION_RUNS
        invariant forall r, c :: 0 <= r < run && 0 <= c < SLOTS ==> calSamples[r, c] == passes[r][c]
      {
        // The driver's blocking corner calibration fills this pass's row.
        forall c | 0 <= c < SLOTS {
          calSamples[run, c] := passes[run][c];
        }
      }
      forall r | 0 <= r < CALIBRATION_RUNS ensures Runs(calSamples)[r] == passes[r] {
        assert forall c :: 0 <= c < SLOTS ==> Runs(calSamples)[r][c] == calSamples[r, c];
      }
      assert Runs(calSamples) == passes;
      PickBestCalibration(calSamples, calValues);
      driverCalibration := Some(calValues[..]);
      calibrationDone := true;
    }

    /** `toggle_calibration_values`: hide a visible label, otherwise show it with fresh text. */
    method ToggleCalibrationValues()
      requires Valid()
      modifies this`calLabel
      ensures calLabel == Toggled(old(calLabel), calibrationDone, calValues[..])
    {
      if calLabel.Label? && !calLabel.hidden {
        calLabel := calLabel.(hidden := true);
        return;
      }
      if calLabel.NoLabel? {
        calLabel := Label(false, NotCalibrated);
      } else {
        calLabel := calLabel.(hidden := false);
      }
      calLabel := calLabel.(text := TextFor(calibrationDone, calValues[..]));
    }

    /**
     * `button_event_handler`: only clicks on known buttons act. VIEW
     * toggles the label, CAL recalibrates (never offering the skip), and
     * any other button counts the press and flips the colour flag.
     */
    method ButtonEventHandler(clicked: bool, target: ObjHandle, passes: seq<seq<u16>>)
      requires Valid() && IsSampleSet(passes)
      modifies this`calibrationDone, this`driverCalibration, calValues, this`calLabel, this`isBlue, buttonPressCount
      ensures Valid()
      ensures var idx := FirstIndexOf(buttons, target);
              var counted := clicked && 0 <= idx && idx != VIEW_CAL_BUTTON_INDEX && idx != CAL_BUTTON_INDEX;
              buttonPressCount[..] == (if counted then old(buttonPressCount[..])[idx := old(buttonPressCount[idx]) + 1]
                                       else old(buttonPressCount[..])) &&
              isBlue == (if counted then !old(isBlue) else old(isBlue))
      ensures calLabel == if clicked && FirstIndexOf(buttons, target) == VIEW_CAL_BUTTON_INDEX
                          then Toggled(old(calLabel), old(calibrationDone), old(calValues[..]))
                          else old(calLabel)
      ensures if clicked && FirstIndexOf(buttons, target) == CAL_BUTTON_INDEX && hasTouch
              then calValues[..] == Select(passes) && calibrationDone && driverCalibration == Some(calValues[..])
              else calValues[..] == old(calValues[..]) && calibrationDone == old(calibrationDone) &&
                   driverCalibration == old(driverCalibration)
    {
      if !clicked {
        return;
      }
      var btnIndex := FindButton(buttons, target);
      if btnIndex < 0 {
        return;
      }
      if btnIndex == VIEW_CAL_BUTTON_INDEX {
        ToggleCalibrationValues();
        return;
      }
      if btnIndex == CAL_BUTTON_INDEX {
        RunCalibration(true, 0, [], passes);
        return;
      }
      buttonPressCount[btnIndex] := buttonPressCount[btnIndex] + 1;
      isBlue := !isBlue;
    }

    /**
     * The calibration step of `setup`: with touch hardware it scans the
     * defaults, then runs the boot-time calibration on both outcomes of
     * the scan alike.
     */
    method BootCalibration(start: u32, polls: seq<Poll>, passes: seq<seq<u16>>)
      requires Valid() && IsSampleSet(passes)
      requires hasTouch ==> WindowCloses(start, polls)
      modifies this`calibrationDone, this`driverCalibration, calValues
      ensures Valid()
      ensures !hasTouch ==> calValues[..] == old(calValues[..]) && calibrationDone == old(calibrationDone) &&
                            driverCalibration == old(driverCalibration)
      ensures hasTouch ==> calValues[..] == CalibrationResult(false, defaults, start, polls, passes) &&
                           calibrationDone && driverCalibration == Some(calValues[..])
    {
      if hasTouch {
        var hasValidCal := ScanHasValidCal(defaults);
        if hasValidCal {
          RunCalibration(false, start, polls, passes);
        } else {
          RunCalibration(false, start, polls, passes);
        }
      }
    }
  }

  /**
   * A touch at (-5, 10000) on a 320 x 480 display, read through the
   * callback, is reported as pressed at (0, 479).
   */
  method TouchReadExample() returns (x: i32, y: i32, state: IndevState)
    ensures x == 0 && y == 479 && state == Pressed
  {
    Ili9488DefaultsAreValid();
    var c := new Controller(true, ILI9488_DEFAULTS, seq(BUTTON_COUNT, i => i), 320, 480);
    var data := new IndevData(0, 0, Released);
    c.TouchRead(data, true, -5, 10000);
    x, y, state := data.pointX, data.pointY, data.state;
  }
}
