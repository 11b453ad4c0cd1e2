/**
 * calc_num_cycles_per_segment: a long acquisition is split into segments so
 * that the digitizer is never asked for more than a threshold number of
 * points in one configuration. The threshold is 10^7 points with the
 * quantum-dot emulator and 10^9 points on the real digitizer.
 */
module Segments {
  import opened Wrappers
  import opened Numerics

  const EmulatorThreshold: int := 10000000
  const DigitizerThreshold: int := 1000000000

  function PointsThreshold(useQdEmulator: bool): (t: int)
    ensures t > 0
  {
    if useQdEmulator then EmulatorThreshold else DigitizerThreshold
  }

  datatype SegmentPlan = SegmentPlan(cyclesPerSegment: int, numSegments: int)

  /**
   * The plan, or the error the function raises when the segments would not
   * cover all cycles.
   */
  function CalcNumCyclesPerSegment(numCycles: int, pointsPerCycle: int, useQdEmulator: bool)
    : (r: Result<SegmentPlan, string>)
  {
    var threshold := PointsThreshold(useQdEmulator);
    var points := numCycles * pointsPerCycle;
    if points > threshold then
      var numSegments := CeilDiv(points, threshold);
      ProductSign(threshold, numSegments);
      var cyclesPerSegment := CeilDiv(numCycles, numSegments);
      if cyclesPerSegment * numSegments < numCycles then
        Failure("The number of cycles per segment times the number of segments is less than the number of cycles.")
      else
        Success(SegmentPlan(cyclesPerSegment, numSegments))
    else
      Success(SegmentPlan(numCycles, 1))
  }

  /** An acquisition within the threshold is one segment holding every cycle. */
  lemma SmallAcquisitionIsOneSegment(numCycles: int, pointsPerCycle: int, useQdEmulator: bool)
    requires numCycles * pointsPerCycle <= PointsThreshold(useQdEmulator)
    ensures CalcNumCyclesPerSegment(numCycles, pointsPerCycle, useQdEmulator)
      == Success(SegmentPlan(numCycles, 1))
  {
  }

  /**
   * Above the threshold the plan never fails: the number of segments is the
   * ceiling of points over threshold, at least 2, the cycles per segment are
   * the ceiling of cycles over segments, and together the segments cover
   * every cycle. The error branch is therefore unreachable.
   */
  lemma LargeAcquisitionIsCovered(numCycles: int, pointsPerCycle: int, useQdEmulator: bool)
    requires numCycles * pointsPerCycle > PointsThreshold(useQdEmulator)
    ensures var r := CalcNumCyclesPerSegment(numCycles, pointsPerCycle, useQdEmulator);
      var threshold := PointsThreshold(useQdEmulator);
      && r.Success?
      && r.value.numSegments == CeilDiv(numCycles * pointsPerCycle, threshold)
      && r.value.numSegments >= 2
      && r.value.cyclesPerSegment == CeilDiv(numCycles, r.value.numSegments)
      && r.value.cyclesPerSegment * r.value.numSegments >= numCycles
  {
    var threshold := PointsThreshold(useQdEmulator);
    var ns := CeilDiv(numCycles * pointsPerCycle, threshold);
    ProductSign(threshold, ns);
    ProductSign(threshold, ns - 1);
    assert (ns - 1) * threshold == ns * threshold - threshold;
  }

  /** The cycles the digitizer is configured for in the last segment of a plan. */
  function LastSegmentCycles(numCycles: int, plan: SegmentPlan): int
  {
    numCycles - plan.cyclesPerSegment * (plan.numSegments - 1)
  }

  /**
   * The last segment can be empty or negative: 5 cycles of 7 000 000 points
   * with the emulator give 4 segments of 2 cycles, so the digitizer is
   * configured for -1 cycles in the last one.
   */
  lemma LastSegmentCanBeNonPositive()
    ensures CalcNumCyclesPerSegment(5, 7000000, true) == Success(SegmentPlan(2, 4))
    ensures LastSegmentCycles(5, SegmentPlan(2, 4)) == -1
  {
    assert CeilDiv(35000000, EmulatorThreshold) == 4;
    assert CeilDiv(5, 4) == 2;
  }

  /**
   * Nor is a segment's size bounded by the threshold: 3 cycles of
   * 5 000 001 points give 2 segments of 2 cycles, 10 000 002 points each.
   */
  lemma SegmentCanExceedThreshold()
    ensures CalcNumCyclesPerSegment(3, 5000001, true) == Success(SegmentPlan(2, 2))
    ensures 2 * 5000001 > EmulatorThreshold
  {
    assert CeilDiv(15000003, EmulatorThreshold) == 2;
    assert CeilDiv(3, 2) == 2;
  }

  /** Whenever the plan is made of full segments, the last one still holds at most a full segment. */
  lemma LastSegmentAtMostFull(numCycles: int, pointsPerCycle: int, useQdEmulator: bool)
    ensures var r := CalcNumCyclesPerSegment(numCycles, pointsPerCycle, useQdEmulator);
      r.Success? ==> LastSegmentCycles(numCycles, r.value) <= r.value.cyclesPerSegment
  {
    var r := CalcNumCyclesPerSegment(numCycles, pointsPerCycle, useQdEmulator);
    if numCycles * pointsPerCycle > PointsThreshold(useQdEmulator) {
      LargeAcquisitionIsCovered(numCycles, pointsPerCycle, useQdEmulator);
      var p := r.value;
      assert (p.cyclesPerSegment - 1) * p.numSegments < numCycles;
      assert numCycles - p.cyclesPerSegment * (p.numSegments - 1) == numCycles - p.cyclesPerSegment * p.numSegments + p.cyclesPerSegment;
    }
  }
}
