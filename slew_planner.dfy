/**
 * Timing and step arithmetic for voltage ramps: how long to wait between
 * two register increments for a requested slew rate, the voltage distance
 * between two sweep points, and how many register increments separate them.
 */
module SlewPlanner {
  import opened Wrappers
  import opened Numerics

  /** Duration of one loop of the HVI sequence, in seconds. */
  const HviLoopTime: real := 1090.0 / 1000000000.0

  /** Default voltage carried by one register increment, in volts. */
  const DefaultDv: real := 457778.0 / 10000000000.0

  /**
   * Wait time (in 10 ns units) between two register increments. The ordinary
   * result is twice the number of 10 ns units by which the time per
   * increment (dV / slewRate) exceeds one HVI loop; 1 when there is no excess.
   */
  function CalcSlewTimer(slewRate: real, dV: real): (t: int)
    ensures t >= 1
    ensures t == 1 <==> slewRate == 0.0 || dV / slewRate < HviLoopTime + 1.0 / 100000000.0
    ensures t > 1 ==> t % 2 == 0
    ensures t > 1 ==>
      HviLoopTime + (t / 2) as real / 100000000.0 <= dV / slewRate
      < HviLoopTime + ((t / 2) as real + 1.0) / 100000000.0
  {
    if slewRate == 0.0 then 1
    else
      var timer := Trunc((dV / slewRate - HviLoopTime) * 100000000.0) * 2;
      if timer <= 0 then 1 else timer
  }

  /** Voltage distance between two neighbouring points of a sweep of `nbSteps` points. */
  function CalcStepSize(vi: real, vf: real, nbSteps: int): (s: real)
    ensures nbSteps == 1 ==> s == 0.0
    ensures nbSteps > 1 ==> s >= 0.0 && s * (nbSteps - 1) as real == Abs(vf - vi)
    ensures nbSteps < 1 ==> s <= 0.0 && s * (nbSteps - 1) as real == Abs(vf - vi)
  {
    if nbSteps == 1 then 0.0 else Abs(vf - vi) / (nbSteps - 1) as real
  }

  /**
   * Register increments of size dV between two neighbouring sweep points: the
   * truncation toward zero of the step size measured in increments. A zero
   * step size returns 0 without dividing; any other step size over a zero
   * dV raises ZeroDivisionError, here None. dV is read from the configuration
   * unchecked, so a negative dV gives a counter of the opposite sign.
   */
  function CalcStepCounter(vi: real, vf: real, nbSteps: int, dV: real): (r: Option<int>)
    ensures r.None? <==> dV == 0.0 && CalcStepSize(vi, vf, nbSteps) != 0.0
    ensures CalcStepSize(vi, vf, nbSteps) == 0.0 <==> nbSteps == 1 || vi == vf
    ensures CalcStepSize(vi, vf, nbSteps) == 0.0 ==> r == Some(0)
    ensures nbSteps > 1 && dV > 0.0 ==>
      r.Some? && r.value >= 0 &&
      r.value as real <= Abs(vf - vi) / dV / (nbSteps - 1) as real < r.value as real + 1.0
    ensures nbSteps > 1 && dV < 0.0 ==>
      r.Some? && r.value <= 0 &&
      (-r.value) as real <= Abs(vf - vi) / (-dV) / (nbSteps - 1) as real < (-r.value) as real + 1.0
    ensures nbSteps < 1 && dV > 0.0 ==> r.Some? && r.value <= 0
    ensures nbSteps < 1 && dV < 0.0 ==> r.Some? && r.value >= 0
  {
    var stepSize := CalcStepSize(vi, vf, nbSteps);
    if stepSize == 0.0 then Some(0)
    else if dV == 0.0 then None
    else
      DivisionsCommute(Abs(vf - vi), (nbSteps - 1) as real, dV);
      NegatedQuotient(Abs(vf - vi) / (nbSteps - 1) as real, dV);
      DivisionsCommute(Abs(vf - vi), (nbSteps - 1) as real, -dV);
      Some(Trunc(stepSize / dV))
  }

  lemma NegatedQuotient(a: real, b: real)
    requires b != 0.0
    ensures a / b == -(a / -b)
  {
  }

  lemma DivisionsCommute(a: real, b: real, c: real)
    requires b != 0.0 && c != 0.0
    ensures a / b / c == a / c / b
  {
    assert a / b / c == a / (b * c);
    assert a / c / b == a / (c * b);
  }

  /** Increments between the two ends of a sweep: the floor of the distance in increments. */
  lemma RampCounterIsFloor(vi: real, vf: real, dV: real)
    requires dV > 0.0
    ensures CalcStepCounter(vi, vf, 2, dV) == Some((Abs(vf - vi) / dV).Floor)
  {
    var q := Abs(vf - vi) / dV;
    var r := CalcStepCounter(vi, vf, 2, dV).value;
    assert q / 1.0 == q;
    assert r as real <= q < r as real + 1.0;
  }

  /** With fewer than one point the step counter can be negative. */
  lemma StepCounterNegativeForZeroSteps()
    ensures CalcStepCounter(0.0, 1.0, 0, 0.5) == Some(-2)
  {
    assert CalcStepSize(0.0, 1.0, 0) == -1.0;
    assert -1.0 / 0.5 == -2.0;
    TruncOfInteger(-2);
  }

  /**
   * A zero dV raises as soon as there is a distance to divide, and a
   * negative dV counts increments with a negative sign.
   */
  lemma UncheckedIncrementCounters()
    ensures CalcStepCounter(0.0, 1.0, 2, 0.0) == None
    ensures CalcStepCounter(1.0, 1.0, 2, 0.0) == Some(0)
    ensures CalcStepCounter(0.0, 1.0, 2, -0.5) == Some(-2)
  {
    assert 1.0 / -0.5 == -2.0;
    TruncOfInteger(-2);
  }

  /** The increment counts for a 0 V to 1 V sweep of 101 points with the default dV. */
  lemma DefaultSweepCounters()
    ensures CalcStepCounter(0.0, 1.0, 2, DefaultDv) == Some(21844)
    ensures CalcStepCounter(0.0, 1.0, 101, DefaultDv) == Some(218)
  {
    var q := 1.0 / DefaultDv;
    assert 21844.0 <= q < 21845.0;
    assert CalcStepSize(0.0, 1.0, 2) == 1.0;
    assert 1.0 / DefaultDv == q;
    assert CalcStepSize(0.0, 1.0, 101) == 1.0 / 100.0;
    assert (1.0 / 100.0) / DefaultDv == q / 100.0;
    assert 218.0 <= q / 100.0 < 219.0;
  }
}
