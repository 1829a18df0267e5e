/**
 * The touch-input side of `my_touch_read`: the record handed back to the
 * GUI toolkit and the clamping of a touch coordinate to the display.
 */
module TouchInput {
  import opened Native

  /** `LV_INDEV_STATE_RELEASED` / `LV_INDEV_STATE_PRESSED`. */
  datatype IndevState = Released | Pressed

  /** The fields of `lv_indev_data_t` that the read callback writes. */
  class IndevData {
    var pointX: i32
    var pointY: i32
    var state: IndevState

    constructor (x: i32, y: i32, state: IndevState)
      ensures pointX == x && pointY == y && this.state == state
    {
      pointX, pointY, this.state := x, y, state;
    }
  }

  /**
   * One coordinate clamped against a display dimension: first raised to 0,
   * then lowered to `bound - 1`. On a display at least one pixel wide the
   * result lies in `[0, bound - 1]`, and a coordinate already in range is
   * passed through unchanged.
   */
  function ClampAxis(v: i32, bound: i32): (r: i32)
    requires 0 <= bound
    ensures 1 <= bound ==> 0 <= r < bound
    ensures 0 <= v < bound ==> r == v
    ensures v < 0 && 1 <= bound ==> r == 0
    ensures bound <= v ==> r == bound - 1
    ensures bound == 0 ==> r == -1
  {
    var x := if v < 0 then 0 else v;
    if x >= bound then bound - 1 else x
  }

  /** A touch reported at (-5, 10000) on a 320 x 480 display reads (0, 479). */
  lemma ClampExample()
    ensures ClampAxis(-5, 320) == 0 && ClampAxis(10000, 480) == 479
  {
  }
}
