/**
 * The button grid's pure parts: finding which of the 50 buttons an event
 * targets, and the visibility and text of the calibration-values label.
 */
module ButtonPanel {
  import opened Native

  const BUTTON_COLS: nat := 5
  const BUTTON_ROWS: nat := 10
  const BUTTON_COUNT: nat := BUTTON_COLS * BUTTON_ROWS
  /** Button 49 (index 48) shows or hides the calibration values. */
  const VIEW_CAL_BUTTON_INDEX: nat := 48
  /** Button 50 (index 49) starts a new calibration. */
  const CAL_BUTTON_INDEX: nat := 49

  /** An `lv_obj_t *`, compared by identity only. */
  type ObjHandle = int

  /**
   * Index of the first button equal to `target`, or -1 when no button is.
   */
  function FirstIndexOf(buttons: seq<ObjHandle>, target: ObjHandle): (idx: int)
    ensures -1 <= idx < |buttons|
    ensures idx < 0 <==> target !in buttons
    ensures 0 <= idx ==> buttons[idx] == target && forall j :: 0 <= j < idx ==> buttons[j] != target
  {
    if |buttons| == 0 then -1
    else if buttons[0] == target then 0
    else
      var k := FirstIndexOf(buttons[1..], target);
      if k < 0 then -1 else k + 1
  }

  /** The lookup loop of `button_event_handler`, leaving at the first match. */
  method FindButton(buttons: seq<ObjHandle>, target: ObjHandle) returns (idx: int)
    ensures idx == FirstIndexOf(buttons, target)
  {
    idx := -1;
    for i := 0 to |buttons|
      invariant forall j :: 0 <= j < i ==> buttons[j] != target
    {
      if buttons[i] == target {
        idx := i;
        break;
      }
    }
  }

  /** What the label says: the prompt to calibrate, or the eight values. */
  datatype LabelText = NotCalibrated | CalValues(values: seq<u16>)

  /** The calibration-values label: not yet created, or created and shown or hidden. */
  datatype CalLabel = NoLabel | Label(hidden: bool, text: LabelText)

  /** The text written into the label when it is shown. */
  function TextFor(calibrationDone: bool, values: seq<u16>): LabelText {
    if calibrationDone then CalValues(values) else NotCalibrated
  }

  /**
   * The label after `toggle_calibration_values`: a visible label is hidden
   * with its text kept; a missing or hidden label becomes visible, with the
   * current values when calibration is done and the prompt otherwise.
   */
  function Toggled(current: CalLabel, calibrationDone: bool, values: seq<u16>): (r: CalLabel)
    ensures r.Label?
    ensures r.hidden <==> (current.Label? && !current.hidden)
    ensures r.hidden ==> r.text == current.text
    ensures !r.hidden ==> r.text == TextFor(calibrationDone, values)
  {
    if current.Label? && !current.hidden then current.(hidden := true)
    else Label(false, TextFor(calibrationDone, values))
  }

  /** Pressing VIEW twice brings a created label back to its visibility. */
  lemma ToggleTwice(current: CalLabel, calibrationDone: bool, values: seq<u16>)
    requires current.Label?
    ensures Toggled(Toggled(current, calibrationDone, values), calibrationDone, values).hidden == current.hidden
  {
  }
}
