/**
 * The timed skip offer of `check_skip_calibration`: whether compiled-in
 * calibration values exist, the wrap-safe elapsed time of the millisecond
 * clock, and the polling loop that waits up to five seconds for a touch.
 * The clock and the touch controller are supplied as a sequence of poll
 * observations, one per loop iteration.
 */
module SkipGate {
  import opened Native
  import opened ExtremeSelector

  /** Length of the skip window in milliseconds. */
  const SKIP_WINDOW_MS: nat := 5000

  /** `millis()` counts modulo 2^32 and wraps about every 49.7 days. */
  const CLOCK_MODULUS: nat := 0x1_0000_0000

  /**
   * One iteration of the polling loop: the clock reading taken by the loop
   * guard, and whether `getTouch` then reports a touch.
   */
  datatype Poll = Poll(now: u32, touched: bool)

  /** All eight values are zero: the placeholder meaning "no calibration known". */
  predicate IsPlaceholder(values: seq<u16>) {
    forall i :: 0 <= i < |values| ==> values[i] == 0
  }

  /** The `has_valid_cal` scan: is any of the eight default values nonzero? */
  method ScanHasValidCal(defaults: seq<u16>) returns (hasValidCal: bool)
    requires |defaults| == SLOTS
    ensures hasValidCal <==> exists i :: 0 <= i < SLOTS && defaults[i] != 0
    ensures hasValidCal <==> !IsPlaceholder(defaults)
  {
    hasValidCal := false;
    for i := 0 to SLOTS
      invariant forall j :: 0 <= j < i ==> defaults[j] == 0
    {
      if defaults[i] != 0 {
        hasValidCal := true;
        break;
      }
    }
  }

  /**
   * `millis() - start_time` in unsigned 32-bit arithmetic: the unique
   * duration that, added to the start reading, gives the current reading.
   */
  function Elapsed(start: u32, now: u32): (d: u32)
    ensures (start + d) % CLOCK_MODULUS == now
  {
    (now - start) % CLOCK_MODULUS
  }

  /**
   * The subtraction is wrap-safe: if the true time moved on by `d`
   * milliseconds (less than one full wrap) from `t0`, the elapsed time
   * computed from the two wrapped clock readings is exactly `d`, even when
   * the counter overflowed in between.
   */
  lemma {:induction false} ElapsedIsTrueDuration(t0: nat, d: nat)
    requires d < CLOCK_MODULUS
    ensures Elapsed(t0 % CLOCK_MODULUS, (t0 + d) % CLOCK_MODULUS) == d
  {
  }

  /** The loop guard `millis() - start_time < 5000` holds at this poll. */
  predicate InWindow(start: u32, p: Poll) {
    Elapsed(start, p.now) < SKIP_WINDOW_MS
  }

  /**
   * The observations reach the end of the window: the clock keeps running,
   * so some poll sees 5000 ms or more elapsed.
   */
  predicate WindowCloses(start: u32, polls: seq<Poll>) {
    exists t :: 0 <= t < |polls| && !InWindow(start, polls[t])
  }

  /**
   * The operator skips: some poll sees a touch while it and every poll
   * before it are still inside the window.
   */
  predicate SkipTouched(start: u32, polls: seq<Poll>) {
    exists k :: 0 <= k < |polls| && polls[k].touched &&
      forall j :: 0 <= j <= k ==> InWindow(start, polls[j])
  }

  /**
   * The polling loop of `check_skip_calibration`. It returns whether the
   * operator skipped, and the index of the poll that decided it: the first
   * touched poll inside the window, or else the first poll past the window.
   */
  method AwaitSkipTouch(start: u32, polls: seq<Poll>) returns (skip: bool, k: nat)
    requires WindowCloses(start, polls)
    ensures k < |polls|
    ensures forall j :: 0 <= j < k ==> InWindow(start, polls[j]) && !polls[j].touched
    ensures skip ==> InWindow(start, polls[k]) && polls[k].touched
    ensures !skip ==> !InWindow(start, polls[k])
    ensures skip == SkipTouched(start, polls)
  {
    ghost var t :| 0 <= t < |polls| && !InWindow(start, polls[t]);
    k := 0;
    while Elapsed(start, polls[k].now) < SKIP_WINDOW_MS
      invariant k <= t
      invariant forall j :: 0 <= j < k ==> InWindow(start, polls[j]) && !polls[j].touched
      decreases t - k
    {
      if polls[k].touched {
        return true, k;
      }
      k := k + 1;
    }
    skip := false;
  }

  /** A touch after the window has closed does not skip calibration. */
  lemma {:induction false} NoSkipWithoutTouchInWindow(start: u32, polls: seq<Poll>, t: nat)
    requires t < |polls| && !InWindow(start, polls[t])
    requires forall j :: 0 <= j < t ==> !polls[j].touched
    ensures !SkipTouched(start, polls)
  {
  }

  /**
   * A touch 1200 ms into the window skips calibration, even when the
   * millisecond counter wraps around between the start and the touch.
   */
  lemma SkipExampleAcrossWrap()
    ensures var start := CLOCK_MODULUS - 100;
            var polls := [Poll(CLOCK_MODULUS - 50, false), Poll(1100, true), Poll(5000, false)];
            WindowCloses(start, polls) && SkipTouched(start, polls)
  {
    var start := CLOCK_MODULUS - 100;
    var polls := [Poll(CLOCK_MODULUS - 50, false), Poll(1100, true), Poll(5000, false)];
    assert Elapsed(start, polls[0].now) == 50;
    assert Elapsed(start, polls[1].now) == 1200;
    assert Elapsed(start, polls[2].now) == 5100;
    assert forall j :: 0 <= j <= 1 ==> InWindow(start, polls[j]);
  }

  /** The compiled-in default vector of the 3.5 inch ILI9488 configuration. */
  const ILI9488_DEFAULTS: seq<u16> := [246, 3849, 257, 189, 3945, 3889, 3994, 194]

  /** That default vector is not the all-zero placeholder. */
  lemma Ili9488DefaultsAreValid()
    ensures |ILI9488_DEFAULTS| == SLOTS && !IsPlaceholder(ILI9488_DEFAULTS)
  {
    assert ILI9488_DEFAULTS[0] != 0;
  }
}
