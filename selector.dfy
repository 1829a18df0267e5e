/**
 * The extreme-value selector `pick_best_calibration`: several calibration
 * passes of eight raw readings each are reduced slot by slot to one
 * calibration vector, taking the lowest reading of a slot that stays below
 * the threshold and the highest reading otherwise.
 */
module ExtremeSelector {
  import opened Native

  const CALIBRATION_RUNS: nat := 4
  const SLOTS: nat := 8
  const CAL_LOW_THRESHOLD: u16 := 2000

  /** A `samples[CALIBRATION_RUNS][8]` block: four passes of eight readings. */
  predicate IsSampleSet(runs: seq<seq<u16>>) {
    |runs| == CALIBRATION_RUNS && forall r :: 0 <= r < |runs| ==> |runs[r]| == SLOTS
  }

  /** The readings of slot `i` across all passes, in pass order. */
  function Column(runs: seq<seq<u16>>, i: nat): (col: seq<u16>)
    requires forall r :: 0 <= r < |runs| ==> i < |runs[r]|
    ensures |col| == |runs| && forall r :: 0 <= r < |runs| ==> col[r] == runs[r][i]
  {
    seq(|runs|, r requires 0 <= r < |runs| => runs[r][i])
  }

  /** Smallest reading, folded left to right as the sampling loop does. */
  function SeqMin(s: seq<u16>): (m: u16)
    requires |s| > 0
    ensures m in s
    ensures forall k :: 0 <= k < |s| ==> m <= s[k]
  {
    if |s| == 1 then s[0]
    else
      var m' := SeqMin(s[..|s| - 1]);
      if s[|s| - 1] < m' then s[|s| - 1] else m'
  }

  /** Largest reading, folded left to right as the sampling loop does. */
  function SeqMax(s: seq<u16>): (m: u16)
    requires |s| > 0
    ensures m in s
    ensures forall k :: 0 <= k < |s| ==> s[k] <= m
  {
    if |s| == 1 then s[0]
    else
      var m' := SeqMax(s[..|s| - 1]);
      if s[|s| - 1] > m' then s[|s| - 1] else m'
  }

  /**
   * The rule for one slot: the lowest reading when every reading is below
   * the threshold, the highest reading as soon as one reaches it.
   */
  function PickSlot(col: seq<u16>): (v: u16)
    requires |col| > 0
    ensures v in col
    ensures (forall k :: 0 <= k < |col| ==> col[k] < CAL_LOW_THRESHOLD) ==> forall k :: 0 <= k < |col| ==> v <= col[k]
    ensures (exists k :: 0 <= k < |col| && col[k] >= CAL_LOW_THRESHOLD) ==> forall k :: 0 <= k < |col| ==> col[k] <= v
  {
    if SeqMax(col) < CAL_LOW_THRESHOLD then SeqMin(col) else SeqMax(col)
  }

  /** The calibration vector chosen from a sample set, slot by slot. */
  function Select(runs: seq<seq<u16>>): (out: seq<u16>)
    requires IsSampleSet(runs)
    ensures |out| == SLOTS
  {
    seq(SLOTS, i requires 0 <= i < SLOTS => PickSlot(Column(runs, i)))
  }

  /**
   * What the selector promises about slot `i`: the value is one of the
   * readings of that slot; when all of them are below the threshold it is
   * the lowest, and as soon as one reaches the threshold it is the highest.
   */
  lemma SelectSlot(runs: seq<seq<u16>>, i: nat)
    requires IsSampleSet(runs) && i < SLOTS
    ensures exists r :: 0 <= r < CALIBRATION_RUNS && Select(runs)[i] == runs[r][i]
    ensures (forall r :: 0 <= r < CALIBRATION_RUNS ==> runs[r][i] < CAL_LOW_THRESHOLD) ==>
              forall r :: 0 <= r < CALIBRATION_RUNS ==> Select(runs)[i] <= runs[r][i]
    ensures (exists r :: 0 <= r < CALIBRATION_RUNS && runs[r][i] >= CAL_LOW_THRESHOLD) ==>
              forall r :: 0 <= r < CALIBRATION_RUNS ==> runs[r][i] <= Select(runs)[i]
  {
  }

  /** Reading the selector's result slot by slot: it is `PickSlot` of the column. */
  lemma SelectAt(runs: seq<seq<u16>>, i: nat)
    requires IsSampleSet(runs) && i < SLOTS
    ensures Select(runs)[i] == PickSlot(Column(runs, i))
  {
  }

  /** Two sequences holding the same readings have the same minimum and maximum. */
  lemma {:induction false} MinMaxBySameReadings(a: seq<u16>, b: seq<u16>)
    requires |a| > 0 && |b| > 0
    requires forall x :: x in a <==> x in b
    ensures SeqMin(a) == SeqMin(b) && SeqMax(a) == SeqMax(b)
  {
  }

  /**
   * The selector does not depend on the order of the passes: any reordering
   * of the four passes yields the same calibration vector.
   */
  lemma {:induction false} SelectIgnoresRunOrder(runs: seq<seq<u16>>, reordered: seq<seq<u16>>)
    requires IsSampleSet(runs)
    requires multiset(reordered) == multiset(runs)
    ensures IsSampleSet(reordered)
    ensures Select(reordered) == Select(runs)
  {
    assert |reordered| == |multiset(reordered)| == |multiset(runs)| == |runs|;
    forall r | 0 <= r < |reordered| ensures |reordered[r]| == SLOTS {
      assert reordered[r] in multiset(runs);
    }
    forall i | 0 <= i < SLOTS ensures Select(reordered)[i] == Select(runs)[i] {
      var a, b := Column(runs, i), Column(reordered, i);
      forall x ensures x in a <==> x in b {
        if x in a {
          var r :| 0 <= r < |a| && a[r] == x;
          assert runs[r] in multiset(reordered);
          var k :| 0 <= k < |reordered| && reordered[k] == runs[r];
          assert b[k] == x;
        }
        if x in b {
          var k :| 0 <= k < |b| && b[k] == x;
          assert reordered[k] in multiset(runs);
          var r :| 0 <= r < |runs| && runs[r] == reordered[k];
          assert a[r] == x;
        }
      }
      MinMaxBySameReadings(a, b);
    }
  }

  /** Slot `i` of the result depends only on the readings of slot `i`. */
  lemma SelectSlotIsLocal(runs: seq<seq<u16>>, other: seq<seq<u16>>, i: nat)
    requires IsSampleSet(runs) && IsSampleSet(other) && i < SLOTS
    requires forall r :: 0 <= r < CALIBRATION_RUNS ==> runs[r][i] == other[r][i]
    ensures Select(runs)[i] == Select(other)[i]
  {
    assert Column(runs, i) == Column(other, i);
  }

  /**
   * The worked example: slot readings {10, 12, 8, 11} are all low, so 8 is
   * taken; {3990, 3980, 3995, 3988} are high, so 3995 is taken.
   */
  lemma PickSlotExample()
    ensures PickSlot([10, 12, 8, 11]) == 8
    ensures PickSlot([3990, 3980, 3995, 3988]) == 3995
  {
  }

  /** The contents of a `uint16_t samples[runs][8]` array, pass by pass. */
  function Runs(samples: array2<u16>): (runs: seq<seq<u16>>)
    reads samples
    ensures |runs| == samples.Length0
    ensures forall r :: 0 <= r < samples.Length0 ==> |runs[r]| == samples.Length1
  {
    seq(samples.Length0, r requires 0 <= r < samples.Length0 reads samples =>
      seq(samples.Length1, i requires 0 <= i < samples.Length1 reads samples => samples[r, i]))
  }

  /** The readings of slot `i` of a samples array, pass by pass. */
  lemma ColumnOfArray(samples: array2<u16>, i: nat)
    requires samples.Length0 == CALIBRATION_RUNS && i < samples.Length1 == SLOTS
    ensures forall r :: 0 <= r < CALIBRATION_RUNS ==> Column(Runs(samples), i)[r] == samples[r, i]
  {
  }

  /**
   * The inner loop of `pick_best_calibration`: the lowest and highest
   * reading of slot `i` over the passes, scanning from pass 0.
   */
  method SlotExtremes(samples: array2<u16>, i: nat) returns (minV: u16, maxV: u16)
    requires samples.Length0 == CALIBRATION_RUNS && i < samples.Length1 == SLOTS
    ensures minV == SeqMin(Column(Runs(samples), i))
    ensures maxV == SeqMax(Column(Runs(samples), i))
  {
    ghost var col := Column(Runs(samples), i);
    ColumnOfArray(samples, i);
    minV := samples[0, i];
    maxV := samples[0, i];
    ghost var minAt, maxAt := 0, 0;
    for r := 1 to CALIBRATION_RUNS
      invariant minAt < r && col[minAt] == minV && forall k :: 0 <= k < r ==> minV <= col[k]
      invariant maxAt < r && col[maxAt] == maxV && forall k :: 0 <= k < r ==> col[k] <= maxV
    {
      if samples[r, i] < minV { minV, minAt := samples[r, i], r; }
      if samples[r, i] > maxV { maxV, maxAt := samples[r, i], r; }
    }
    ExtremesAreUnique(col, minAt, maxAt);
  }

  /** A reading no larger (no smaller) than all the others is the minimum (maximum). */
  lemma ExtremesAreUnique(s: seq<u16>, minAt: nat, maxAt: nat)
    requires minAt < |s| && forall k :: 0 <= k < |s| ==> s[minAt] <= s[k]
    requires maxAt < |s| && forall k :: 0 <= k < |s| ==> s[k] <= s[maxAt]
    ensures SeqMin(s) == s[minAt] && SeqMax(s) == s[maxAt]
  {
  }

  /** `pick_best_calibration`: writes the selected vector into `out`. */
  method PickBestCalibration(samples: array2<u16>, out: array<u16>)
    requires samples.Length0 == CALIBRATION_RUNS && samples.Length1 == SLOTS
    requires out.Length == SLOTS
    modifies out
    ensures IsSampleSet(Runs(samples))
    ensures out[..] == Select(Runs(samples))
  {
    ghost var runs := Runs(samples);
    for i := 0 to SLOTS
      invariant out[..i] == Select(runs)[..i]
    {
      var minV, maxV := SlotExtremes(samples, i);
      SelectAt(runs, i);
      // Low values (near 0) take the lowest reading, high values the highest.
      out[i] := if maxV < CAL_LOW_THRESHOLD then minV else maxV;
      assert out[..i + 1] == Select(runs)[..i + 1];
    }
    assert out[..] == out[..SLOTS];
  }
}
