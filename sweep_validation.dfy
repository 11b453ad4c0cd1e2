/**
 * Validation of the number of sweep points against the register increment
 * dV. A sweep from vi to vf climbs `ramp` increments in total and
 * `step` increments between two points; the sweep is consistent when
 * `ramp / step + 1` equals the requested number of points. With auto-fix
 * the configuration's number of points is rewritten to the consistent value.
 */
module SweepValidation {
  import opened Wrappers
  import opened Numerics
  import opened SlewPlanner

  /** A warning appended to the running warning list, with the numbers its message reports. */
  datatype Warning =
    | StepTooSmall(maxNumSteps: int)
    | StepNotMultiple(stepCounter: int, rampCounter: int, expectedNumSteps: int)

  /** The ValueErrors (and the ZeroDivisionError) the validators raise. */
  datatype VerifyError =
    | StepExceedsRamp(stepCounter: int, rampCounter: int)
    | DivisionByZero
    | Warnings(warnings: seq<Warning>)

  /** Number of points left in the configuration, and what the call returned or raised. */
  datatype Verdict = Verdict(numSteps: int, result: Result<seq<Warning>, VerifyError>)

  predicate StructuralError(v: Verdict)
  {
    v.result.Failure? && !v.result.error.Warnings?
  }

  /** Raise the collected warnings unless they are silenced. */
  function Report(numSteps: int, warnings: seq<Warning>, silence: bool): (v: Verdict)
    ensures v.numSteps == numSteps
    ensures v.result == if !silence && warnings != [] then Failure(Warnings(warnings)) else Success(warnings)
  {
    if !silence && warnings != [] then Verdict(numSteps, Failure(Warnings(warnings)))
    else Verdict(numSteps, Success(warnings))
  }

  /**
   * verify_sweep_parameters_1d on the 1D endpoints and number of points. The
   * increment dV comes from the configuration unchecked: a zero dV raises
   * ZeroDivisionError in the first division it reaches.
   */
  function Verify1d(vi: real, vf: real, numSteps: int, dV: real,
                    warnings: seq<Warning>, silence: bool, autoFix: bool): Verdict
  {
    var rampCounter := CalcStepCounter(vi, vf, 2, dV);
    var stepCounter := CalcStepCounter(vi, vf, numSteps, dV);
    if rampCounter.None? || stepCounter.None? then Verdict(numSteps, Failure(DivisionByZero))
    else if stepCounter.value < 1 && dV == 0.0 then Verdict(numSteps, Failure(DivisionByZero))
    else
      var ramp := rampCounter.value;
      var step0 := stepCounter.value;
      var newNumSteps := Trunc(Abs(vf - vi) / dV) + 1;
      var n1 := if step0 < 1 && autoFix then newNumSteps else numSteps;
      var step1 := if step0 >= 1 then step0
        else if autoFix then CalcStepCounter(vi, vf, newNumSteps, dV).value else 1;
      var ws1 := if step0 < 1 && !autoFix then warnings + [StepTooSmall(newNumSteps)] else warnings;
      StepAfterFixNonNegative(vi, vf, dV);
      // Python's floor division agrees with Dafny's on a non-negative divisor.
      assert step1 >= 0;
      if step1 > ramp then Verdict(n1, Failure(StepExceedsRamp(step1, ramp)))
      else if step1 == 0 then Verdict(n1, Failure(DivisionByZero))
      else
        var expected := ramp / step1 + 1;
        if expected == n1 then Report(n1, ws1, silence)
        else if autoFix then Report(expected, ws1, silence)
        else Report(n1, ws1 + [StepNotMultiple(step1, ramp, expected)], silence)
  }

  /** The step counter recomputed for the suggested number of points is never negative. */
  lemma StepAfterFixNonNegative(vi: real, vf: real, dV: real)
    requires dV != 0.0
    ensures CalcStepCounter(vi, vf, Trunc(Abs(vf - vi) / dV) + 1, dV).value >= 0
  {
    var n := Trunc(Abs(vf - vi) / dV) + 1;
    if dV < 0.0 {
      RealQuotientSign(Abs(vf - vi), dV);
      assert n <= 1;
    }
  }

  /** A non-negative numerator over a negative divisor gives a non-positive quotient. */
  lemma RealQuotientSign(a: real, d: real)
    requires a >= 0.0 && d < 0.0
    ensures a / d <= 0.0
  {
    assert a / d == -(a / -d);
  }

  /**
   * The 2D variant on given endpoints. Unlike the 1D one it records the
   * warnings even when it fixes the number of points, and always continues
   * with a step of one increment after a too-small step.
   */
  function Verify2d(vi: real, vf: real, numSteps: int, dV: real,
                    warnings: seq<Warning>, silence: bool, autoFix: bool): Verdict
  {
    var rampCounter := CalcStepCounter(vi, vf, 2, dV);
    var stepCounter := CalcStepCounter(vi, vf, numSteps, dV);
    if rampCounter.None? || stepCounter.None? then Verdict(numSteps, Failure(DivisionByZero))
    else if stepCounter.value < 1 && dV == 0.0 then Verdict(numSteps, Failure(DivisionByZero))
    else
      var ramp := rampCounter.value;
      var step0 := stepCounter.value;
      var newNumSteps := Trunc(Abs(vf - vi) / dV) + 1;
      var n1 := if step0 < 1 && autoFix then newNumSteps else numSteps;
      var step1 := if step0 >= 1 then step0 else 1;
      var ws1 := if step0 < 1 then warnings + [StepTooSmall(newNumSteps)] else warnings;
      if step1 > ramp then Verdict(n1, Failure(StepExceedsRamp(step1, ramp)))
      else
        var expected := ramp / step1 + 1;
        if expected == n1 then Report(n1, ws1, silence)
        else
          var n2 := if autoFix then expected else n1;
          var reported := if autoFix then CalcStepCounter(vi, vf, expected, dV).value else step1;
          Report(n2, ws1 + [StepNotMultiple(reported, ramp, expected)], silence)
  }

  /** The sweep configuration the validators read and, with auto-fix, rewrite. */
  class SweepConfig {
    var vi1dInternal: real
    var vf1dInternal: real
    var numSteps1d: int
    var vi2d: real
    var vf2d: real
    var numSteps2d: int
    var dV: real

    /** The AWG doubles its output into a high-impedance load, so the programmed voltage is half. */
    function Vi2dInternal(): real reads this { vi2d / 2.0 }

    function Vf2dInternal(): real reads this { vf2d / 2.0 }

    constructor (vi1dInternal: real, vf1dInternal: real, numSteps1d: int,
                 vi2d: real, vf2d: real, numSteps2d: int, dV: real)
      ensures this.vi1dInternal == vi1dInternal && this.vf1dInternal == vf1dInternal
      ensures this.numSteps1d == numSteps1d && this.numSteps2d == numSteps2d
      ensures this.vi2d == vi2d && this.vf2d == vf2d && this.dV == dV
    {
      this.vi1dInternal, this.vf1dInternal, this.numSteps1d := vi1dInternal, vf1dInternal, numSteps1d;
      this.vi2d, this.vf2d, this.numSteps2d, this.dV := vi2d, vf2d, numSteps2d, dV;
    }

    method VerifySweepParameters1d(warnings: seq<Warning>, silence: bool, autoFix: bool)
      returns (r: Result<seq<Warning>, VerifyError>)
      modifies this`numSteps1d
      ensures Verdict(numSteps1d, r)
        == Verify1d(vi1dInternal, vf1dInternal, old(numSteps1d), dV, warnings, silence, autoFix)
    {
      var ws := warnings;
      var rampCounter := CalcStepCounter(vi1dInternal, vf1dInternal, 2, dV);
      if rampCounter.None? {
        return Failure(DivisionByZero);
      }
      var stepCounter := CalcStepCounter(vi1dInternal, vf1dInternal, numSteps1d, dV);
      if stepCounter.None? {
        return Failure(DivisionByZero);
      }
      var ramp, step := rampCounter.value, stepCounter.value;
      if step < 1 {
        if dV == 0.0 {
          return Failure(DivisionByZero);
        }
        var newNumSteps := Trunc(Abs(vf1dInternal - vi1dInternal) / dV) + 1;
        if autoFix {
          numSteps1d := newNumSteps;
          step := CalcStepCounter(vi1dInternal, vf1dInternal, numSteps1d, dV).value;
        } else {
          ws := ws + [StepTooSmall(newNumSteps)];
          step := 1;
        }
      }
      if step > ramp {
        return Failure(StepExceedsRamp(step, ramp));
      }
      if step == 0 {
        return Failure(DivisionByZero);
      }
      if ramp / step + 1 != numSteps1d {
        var newNumSteps := ramp / step + 1;
        if autoFix {
          numSteps1d := newNumSteps;
        } else {
          ws := ws + [StepNotMultiple(step, ramp, newNumSteps)];
        }
      }
      if !silence && ws != [] {
        return Failure(Warnings(ws));
      }
      return Success(ws);
    }

    method VerifySweepParameters2d(warnings: seq<Warning>, silence: bool, autoFix: bool)
      returns (r: Result<seq<Warning>, VerifyError>)
      modifies this`numSteps2d
      ensures Verdict(numSteps2d, r)
        == Verify2d(Vi2dInternal(), vf2d, old(numSteps2d), dV, warnings, silence, autoFix)
    {
      var vi := Vi2dInternal();
      var ws := warnings;
      var rampCounter := CalcStepCounter(vi, vf2d, 2, dV);
      if rampCounter.None? {
        return Failure(DivisionByZero);
      }
      var stepCounter := CalcStepCounter(vi, vf2d, numSteps2d, dV);
      if stepCounter.None? {
        return Failure(DivisionByZero);
      }
      var ramp, step := rampCounter.value, stepCounter.value;
      if step < 1 {
        if dV == 0.0 {
          return Failure(DivisionByZero);
        }
        var newNumSteps := Trunc(Abs(vf2d - vi) / dV) + 1;
        if autoFix {
          numSteps2d := newNumSteps;
        }
        ws := ws + [StepTooSmall(newNumSteps)];
        step := 1;
      }
      if step > ramp {
        return Failure(StepExceedsRamp(step, ramp));
      }
      if ramp / step + 1 != numSteps2d {
        var newNumSteps := ramp / step + 1;
        if autoFix {
          numSteps2d := newNumSteps;
          step := CalcStepCounter(vi, vf2d, numSteps2d, dV).value;
        }
        ws := ws + [StepNotMultiple(step, ramp, newNumSteps)];
      }
      if !silence && ws != [] {
        return Failure(Warnings(ws));
      }
      return Success(ws);
    }
  }

  // ---------------------------------------------------------------------
  // Properties of the validators

  /** The warnings a verdict carries, returned or raised. */
  function Collected(v: Verdict): seq<Warning>
  {
    if v.result.Success? then v.result.value
    else if v.result.error.Warnings? then v.result.error.warnings
    else []
  }

  /**
   * Unless the sweep is structurally wrong, the earlier warnings are kept in
   * front of the new ones, and the call raises exactly when the collected
   * warnings are not empty and not silenced.
   */
  lemma Verify1dChainsWarnings(vi: real, vf: real, numSteps: int, dV: real,
                               warnings: seq<Warning>, silence: bool, autoFix: bool)
    requires dV > 0.0
    ensures var v := Verify1d(vi, vf, numSteps, dV, warnings, silence, autoFix);
      !StructuralError(v) ==>
        warnings <= Collected(v) &&
        (v.result.Failure? <==> !silence && Collected(v) != [])
  {
  }

  /** Without auto-fix the configuration keeps its number of points. */
  lemma Verify1dWithoutFixKeepsSteps(vi: real, vf: real, numSteps: int, dV: real,
                                     warnings: seq<Warning>, silence: bool)
    requires dV > 0.0
    ensures Verify1d(vi, vf, numSteps, dV, warnings, silence, false).numSteps == numSteps
  {
  }

  /** With auto-fix the 1D validator adds no warning of its own. */
  lemma Verify1dFixAddsNoWarning(vi: real, vf: real, numSteps: int, dV: real,
                                 warnings: seq<Warning>, silence: bool)
    requires dV > 0.0
    ensures var v := Verify1d(vi, vf, numSteps, dV, warnings, silence, true);
      (v.result.Success? ==> v.result.value == warnings) &&
      (v.result.Failure? && v.result.error.Warnings? ==> v.result.error.warnings == warnings)
  {
  }

  /**
   * Without auto-fix a consistent sweep is accepted unchanged, and an
   * inconsistent one gets exactly one warning naming the consistent number.
   */
  lemma Verify1dWarnsOnMismatch(vi: real, vf: real, numSteps: int, dV: real)
    requires dV > 0.0
    requires CalcStepCounter(vi, vf, numSteps, dV).value >= 1
    requires CalcStepCounter(vi, vf, numSteps, dV).value <= CalcStepCounter(vi, vf, 2, dV).value
    ensures var ramp := CalcStepCounter(vi, vf, 2, dV).value;
      var step := CalcStepCounter(vi, vf, numSteps, dV).value;
      var v := Verify1d(vi, vf, numSteps, dV, [], true, false);
      v.result.Success? &&
      (ramp / step + 1 == numSteps <==> v.result.value == []) &&
      (ramp / step + 1 != numSteps <==> v.result.value == [StepNotMultiple(step, ramp, ramp / step + 1)])
  {
  }

  /**
   * The key arithmetic fact: for any step of 1..ramp increments, the number
   * of points ramp / step + 1 gives back a step counter with the same quotient.
   */
  lemma {:induction false} ConsistentStepsAreStable(vi: real, vf: real, dV: real, step: int)
    requires dV > 0.0
    requires 1 <= step <= CalcStepCounter(vi, vf, 2, dV).value
    ensures var ramp := CalcStepCounter(vi, vf, 2, dV).value;
      var fixed := CalcStepCounter(vi, vf, ramp / step + 1, dV).value;
      1 <= fixed <= ramp && ramp / fixed == ramp / step
  {
    var ramp := CalcStepCounter(vi, vf, 2, dV).value;
    var q := Abs(vf - vi) / dV;
    RampCounterIsFloor(vi, vf, dV);
    var m := ramp / step;
    DivisionLowerBound(ramp, step, 1);
    assert m * step <= ramp;
    var fixed := CalcStepCounter(vi, vf, m + 1, dV).value;
    StepCounterIsFloor(vi, vf, dV, m);
    FloorQuotientAtLeast(q, m, step);
    FloorQuotientTimesDivisor(q, m);
    assert fixed <= ramp by {
      assert fixed <= fixed * m;
    }
    DivisionMonotone(ramp, step, fixed);
    DivisionLowerBound(ramp, fixed, m);
  }

  /** With m + 1 points the step counter is the floor of the ramp quotient over m. */
  lemma StepCounterIsFloor(vi: real, vf: real, dV: real, m: int)
    requires dV > 0.0 && m >= 1
    ensures CalcStepCounter(vi, vf, m + 1, dV).value == (Abs(vf - vi) / dV / m as real).Floor
  {
    var fixed := CalcStepCounter(vi, vf, m + 1, dV).value;
    assert (m + 1 - 1) as real == m as real;
    assert fixed as real <= Abs(vf - vi) / dV / m as real < fixed as real + 1.0;
  }

  /** When the step is too small, the fixed number of points is one increment per step. */
  lemma {:induction false} TooSmallFixGivesUnitStep(vi: real, vf: real, dV: real)
    requires dV > 0.0
    requires CalcStepCounter(vi, vf, 2, dV).value >= 1
    ensures Trunc(Abs(vf - vi) / dV) == CalcStepCounter(vi, vf, 2, dV).value
    ensures CalcStepCounter(vi, vf, Trunc(Abs(vf - vi) / dV) + 1, dV).value == 1
  {
    var q := Abs(vf - vi) / dV;
    RampCounterIsFloor(vi, vf, dV);
    var ramp := CalcStepCounter(vi, vf, 2, dV).value;
    assert Trunc(q) == ramp;
    StepCounterIsFloor(vi, vf, dV, ramp);
    UnitQuotientFloor(q, ramp);
  }

  /** A quotient in [m, m + 1) over m >= 1 lies in [1, 2). */
  lemma UnitQuotientFloor(q: real, m: int)
    requires m >= 1 && m as real <= q < m as real + 1.0
    ensures (q / m as real).Floor == 1
  {
    assert q < m as real + 1.0 <= 2.0 * m as real;
    assert q / m as real < 2.0;
    assert q / m as real >= 1.0;
  }

  /**
   * After an auto-fixed 1D validation that did not raise a structural error,
   * the configured points are consistent: ramp / step + 1 equals them.
   */
  lemma {:induction false} Verify1dFixReconciles(vi: real, vf: real, numSteps: int, dV: real,
                                                 warnings: seq<Warning>, silence: bool)
    requires dV > 0.0
    ensures var v := Verify1d(vi, vf, numSteps, dV, warnings, silence, true);
      var fixed := CalcStepCounter(vi, vf, v.numSteps, dV).value;
      var ramp := CalcStepCounter(vi, vf, 2, dV).value;
      !StructuralError(v) ==> 1 <= fixed <= ramp && ramp / fixed + 1 == v.numSteps
  {
    var v := Verify1d(vi, vf, numSteps, dV, warnings, silence, true);
    var ramp := CalcStepCounter(vi, vf, 2, dV).value;
    var step0 := CalcStepCounter(vi, vf, numSteps, dV).value;
    if !StructuralError(v) {
      if step0 < 1 {
        TooSmallFixGivesUnitStep(vi, vf, dV);
      } else if ramp / step0 + 1 != numSteps {
        ConsistentStepsAreStable(vi, vf, dV, step0);
      }
    }
  }

  /** Auto-fixed 1D validation is idempotent: running it again changes nothing. */
  lemma {:induction false} Verify1dFixIdempotent(vi: real, vf: real, numSteps: int, dV: real,
                                                 warnings: seq<Warning>, silence: bool)
    requires dV > 0.0
    ensures var v := Verify1d(vi, vf, numSteps, dV, warnings, silence, true);
      !StructuralError(v) ==> Verify1d(vi, vf, v.numSteps, dV, warnings, silence, true) == v
  {
    Verify1dFixReconciles(vi, vf, numSteps, dV, warnings, silence);
  }

  /** A sweep shorter than one increment is always rejected, with or without auto-fix. */
  lemma Verify1dRejectsSubIncrementSweep(vi: real, vf: real, numSteps: int, dV: real,
                                         warnings: seq<Warning>, silence: bool, autoFix: bool)
    requires dV > 0.0 && Abs(vf - vi) < dV
    ensures var v := Verify1d(vi, vf, numSteps, dV, warnings, silence, autoFix);
      v.result == if autoFix then Failure(DivisionByZero) else Failure(StepExceedsRamp(1, 0))
  {
    var q := Abs(vf - vi) / dV;
    QuotientBelowOne(Abs(vf - vi), dV);
    RampCounterIsFloor(vi, vf, dV);
    assert Trunc(q) == 0;
  }

  /**
   * The increment is read unchecked. A zero dV raises ZeroDivisionError
   * before the configuration changes; a negative dV makes every counter
   * non-positive, so the 1D validation always ends in a structural error.
   */
  lemma Verify1dUncheckedIncrement(vi: real, vf: real, numSteps: int, dV: real,
                                   warnings: seq<Warning>, silence: bool, autoFix: bool)
    requires dV <= 0.0
    ensures var v := Verify1d(vi, vf, numSteps, dV, warnings, silence, autoFix);
      StructuralError(v) && (dV == 0.0 ==> v == Verdict(numSteps, Failure(DivisionByZero)))
  {
    if dV < 0.0 {
      NegativeIncrementRamp(vi, vf, dV);
      StepAfterFixNonNegative(vi, vf, dV);
    }
  }

  /** The 2D counterpart: a negative dV always gives a step larger than the ramp. */
  lemma Verify2dUncheckedIncrement(vi: real, vf: real, numSteps: int, dV: real,
                                   warnings: seq<Warning>, silence: bool, autoFix: bool)
    requires dV <= 0.0
    ensures var v := Verify2d(vi, vf, numSteps, dV, warnings, silence, autoFix);
      (dV == 0.0 ==> v == Verdict(numSteps, Failure(DivisionByZero))) &&
      (dV < 0.0 ==> v.result.Failure? && v.result.error.StepExceedsRamp?)
  {
    if dV < 0.0 {
      NegativeIncrementRamp(vi, vf, dV);
    }
  }

  /** With a negative dV the ramp counter is not positive. */
  lemma NegativeIncrementRamp(vi: real, vf: real, dV: real)
    requires dV < 0.0
    ensures CalcStepCounter(vi, vf, 2, dV).value <= 0
  {
  }

  /** The 0 V to 1 V sweep of 101 points with the default dV is already consistent. */
  lemma Verify1dDefaultSweepUnchanged(silence: bool, autoFix: bool)
    ensures Verify1d(0.0, 1.0, 101, DefaultDv, [], silence, autoFix) == Verdict(101, Success([]))
  {
    DefaultSweepCounters();
  }

  /** The 2D validator records its warnings even when auto-fix repairs the sweep. */
  lemma Verify2dFixStillWarns(vi: real, vf: real, numSteps: int, dV: real)
    requires dV > 0.0
    requires CalcStepCounter(vi, vf, numSteps, dV).value >= 1
    requires CalcStepCounter(vi, vf, numSteps, dV).value <= CalcStepCounter(vi, vf, 2, dV).value
    requires CalcStepCounter(vi, vf, 2, dV).value / CalcStepCounter(vi, vf, numSteps, dV).value + 1 != numSteps
    ensures Verify2d(vi, vf, numSteps, dV, [], false, true).result.Failure?
    ensures Verify2d(vi, vf, numSteps, dV, [], true, true).numSteps
      == CalcStepCounter(vi, vf, 2, dV).value / CalcStepCounter(vi, vf, numSteps, dV).value + 1
  {
  }

  /** The 2D validator never divides by zero: a zero ramp is always reported as a too-large step. */
  lemma Verify2dNeverDividesByZero(vi: real, vf: real, numSteps: int, dV: real,
                                   warnings: seq<Warning>, silence: bool, autoFix: bool)
    requires dV > 0.0
    ensures Verify2d(vi, vf, numSteps, dV, warnings, silence, autoFix).result != Failure(DivisionByZero)
  {
  }

  /**
   * After an auto-fixed 2D validation without a structural error, the points
   * are consistent with the endpoints the validator was given.
   */
  lemma {:induction false} Verify2dFixReconciles(vi: real, vf: real, numSteps: int, dV: real,
                                                 warnings: seq<Warning>, silence: bool)
    requires dV > 0.0
    ensures var v := Verify2d(vi, vf, numSteps, dV, warnings, silence, true);
      var fixed := CalcStepCounter(vi, vf, v.numSteps, dV).value;
      var ramp := CalcStepCounter(vi, vf, 2, dV).value;
      !StructuralError(v) ==> 1 <= fixed <= ramp && ramp / fixed + 1 == v.numSteps
  {
    var v := Verify2d(vi, vf, numSteps, dV, warnings, silence, true);
    var ramp := CalcStepCounter(vi, vf, 2, dV).value;
    var step0 := CalcStepCounter(vi, vf, numSteps, dV).value;
    if !StructuralError(v) {
      if step0 < 1 {
        TooSmallFixGivesUnitStep(vi, vf, dV);
      } else if ramp / step0 + 1 != numSteps {
        ConsistentStepsAreStable(vi, vf, dV, step0);
      }
    }
  }

  /**
   * The 2D program ramps from vi_2d/2 to vf_2d/2, but the validator is given
   * vf_2d itself. For vi_2d = 0, vf_2d = 10, dV = 1 and 4 points the
   * validator accepts the sweep unchanged, while the program's own counters
   * (5 increments, 1 per step) give 6 points.
   */
  lemma Verify2dEndpointMismatch()
    ensures Verify2d(0.0 / 2.0, 10.0, 4, 1.0, [], false, true) == Verdict(4, Success([]))
    ensures CalcStepCounter(0.0 / 2.0, 10.0 / 2.0, 2, 1.0).value / CalcStepCounter(0.0 / 2.0, 10.0 / 2.0, 4, 1.0).value + 1 == 6
  {
    assert CalcStepCounter(0.0, 10.0, 2, 1.0).value == 10;
    assert CalcStepCounter(0.0, 10.0, 4, 1.0).value == 3;
    assert CalcStepCounter(0.0, 5.0, 2, 1.0).value == 5;
    assert CalcStepCounter(0.0, 5.0, 4, 1.0).value == 1;
  }

  /** The 2D validation on the voltages the program actually uses. */
  function Verify2dOnInternalVoltages(vi2d: real, vf2d: real, numSteps: int, dV: real,
                                      warnings: seq<Warning>, silence: bool, autoFix: bool): (v: Verdict)
    requires dV > 0.0
    ensures var fixed := CalcStepCounter(vi2d / 2.0, vf2d / 2.0, v.numSteps, dV).value;
      var ramp := CalcStepCounter(vi2d / 2.0, vf2d / 2.0, 2, dV).value;
      autoFix && !StructuralError(v) ==> 1 <= fixed <= ramp && ramp / fixed + 1 == v.numSteps
  {
    Verify2dFixReconciles(vi2d / 2.0, vf2d / 2.0, numSteps, dV, warnings, silence);
    Verify2d(vi2d / 2.0, vf2d / 2.0, numSteps, dV, warnings, silence, autoFix)
  }
}
