# hvi-sweeper host core in Dafny

A model of the host-side Python of the hvi-sweeper, the program that runs
1D and 2D voltage sweeps on Keysight M3xxxA PXI cards through HVI
(hard-virtual-instrument) sequences. The host turns sweep settings into
register values and a small register program per engine, validates the
sweep against the register increment dV, keeps the virtual-gate register
banks in step, drains and averages the digitizer while the sequence runs,
reads and rewrites the YAML configuration, tracks FPGA firmware versions
and names the data files.

One Dafny module per part of the core:

- `Numerics`, `VoltageCodec`, `SlewPlanner` and `Segments`: Python's numeric conversions on exact reals, the 16-bit voltage codes, the slew timer and step arithmetic (`calc_*`), and the splitting of long acquisitions into segments.
- `SweepValidation`: `verify_sweep_parameters_1d/2d` over a configuration object whose step counts they rewrite.
- `InstructionNames`: the `instruction_name` label cache, as a class over a map.
- `HviProgram` and `RampStep`: the HVI instructions the builder emits and their effect on an engine's registers, and `program_step_to_target_voltage`.
- `VgRegisters`: `update_vg_registers` and the contract of `sweep_voltage_register`.
- `Modules`: `ModuleDescriptor` and `Module`, with the firmware decision table.
- `Sweep2d`: the loop-counter skeleton of `sweeper_2d` and its run semantics.
- `Acquisition`: the bookkeeping of `measure_data`'s poll loop.
- `MeasureDiagram`: the repetitions of `measure_diagram` and its single retry.
- `YamlConfig` and `YamlRewrite`: the descriptor checks of `Config2D.from_yaml` and the rewrite of the verified step counts into the YAML file.
- `FirmwareDb`: `FirmwareVersionTracker` (`add_new_fw`, `get_fw`, `search_uuid`, `__str__`) and the line post-processing of `save_database`.
- `SaveFilename`: `create_save_filename`.
- `Text` and `Wrappers`: the Python string operations used, and Option/Result values for None and raised exceptions.

Floats are exact reals. `int()` is truncation toward zero, `round()` rounds
half to even, and `np.ceil` of an integer ratio is an exact ceiling.
Hardware, files, the clock and the HVI library are abstract inputs: a trace
of digitizer polls, a set of existing paths, a fixed date, and an opaque
state transformer for `sweeper_1d`. Loops that the HVI sequence runs on the
device are interpreted with a fuel bound; running out of fuel stands for a
loop that does not end. Imperative host code is modelled as Dafny methods
with loops or as classes with state. Each method is proved against a
specification function, and the properties are proved about those
functions.

Where the sources and their design notes disagree, the model follows the code:

- `verify_sweep_parameters_2d` checks `vi_2d_internal` against the non-internal `vf_2d`.
- The emulator stop of `sweeper_2d` sits in the 2D step block.
- The YAML rewrite drops the newline of the lines it rewrites and does not truncate the file.
- The duplicate test of `add_new_fw` unpacks rows in a field order other than the one they are stored in.

Each of these is listed under "## Findings" with its corrected counterpart.
Two behaviours look odd but are kept as written without being listed there:

- `save_database` drops the first YAML line (`firmware_database:`), and `load_database` reads the remaining mapping directly.
- The last segment of `calc_num_cycles_per_segment` can hold a non-positive number of cycles (`Segments`).

## Model

| member | source | states |
|---|---|---|
| Numerics.Trunc | Sweeper/KS2201A_lib.py:669 | Python's `int()` on a float: the integer toward zero, within 1 of its argument |
| Numerics.CeilDiv | Sweeper/KS2201A_lib.py:1384-1385 | `int(np.ceil(a / b))` for integers: the least r with `a <= r * b` |
| Numerics.RoundHalfEven | Sweeper/Sweeper2D_KS2201A.py:833 | Python's `round()`: within one half of its argument, and even on a tie |
| Numerics.Abs | Sweeper/KS2201A_lib.py:697 | `abs()`: non-negative and equal to the argument or its negation |
| Segments.PointsThreshold | Sweeper/KS2201A_lib.py:1377-1380 | the points threshold is positive (10 000 000 with the emulator, 1 000 000 000 otherwise) |
| Segments.SmallAcquisitionIsOneSegment | Sweeper/KS2201A_lib.py:1389-1391 | up to the threshold the whole acquisition is one segment of `num_cycles` cycles |
| Segments.LargeAcquisitionIsCovered | Sweeper/KS2201A_lib.py:1383-1388 | above the threshold there are `ceil(points / threshold) >= 2` segments of `ceil(num_cycles / num_segments)` cycles which together cover every cycle, so the ValueError branch is never taken |
| Segments.LastSegmentCanBeNonPositive | Sweeper/KS2201A_lib.py:1383-1393 | 5 cycles of 7 000 000 points on the emulator give 4 segments of 2 cycles, leaving -1 cycles for the last segment |
| Segments.SegmentCanExceedThreshold | Sweeper/KS2201A_lib.py:1383-1393 | a rounded-up segment can hold more points than the threshold |
| Segments.LastSegmentAtMostFull | Sweeper/KS2201A_lib.py:1383-1393 | the cycles left for the last segment never exceed a full segment |
| SlewPlanner.CalcSlewTimer | Sweeper/KS2201A_lib.py:644-674 | the wait is at least 1; it is 1 exactly when the slew rate is 0 or a step is shorter than the HVI loop time plus 10 ns; otherwise it is twice the truncated number of 10 ns ticks beyond the loop time |
| SlewPlanner.CalcStepSize | Sweeper/KS2201A_lib.py:676-699 | one step gives 0; otherwise `nbSteps - 1` steps cover `abs(Vf - Vi)` exactly (negative for fewer than one step) |
| SlewPlanner.CalcStepCounter | Sweeper/KS2201A_lib.py:701-727 | 0 without dividing when the step size is 0 (one step or equal endpoints); ZeroDivisionError (None) exactly when a non-zero step size meets dV = 0; otherwise the truncation toward zero of the step in dV increments, non-negative for several steps and a positive dV, non-positive for a negative dV, with the signs swapped for fewer than one step |
| SlewPlanner.UncheckedIncrementCounters | Sweeper/KS2201A_lib.py:721-727 | dV = 0 raises on a 1 V ramp and returns 0 on an empty one; dV = -0.5 counts a 1 V ramp as -2 increments |
| SlewPlanner.RampCounterIsFloor | Sweeper/KS2201A_lib.py:721-727 | with two steps the counter is the floor of `abs(Vf - Vi) / dV` |
| SlewPlanner.StepCounterNegativeForZeroSteps | Sweeper/KS2201A_lib.py:694-727 | zero steps from 0 V to 1 V give a counter of -2 |
| SlewPlanner.DefaultSweepCounters | Sweeper/KS2201A_lib.py:701-727 | with the default dV a 1 V ramp is 21844 increments and one of 100 steps is 218 increments per step |
| VoltageCodec.EncodeVoltage | Sweeper/KS2201A_lib.py:890-903 | a voltage in [0, 1.5] encodes to [0, 32767]; a negative one in [-1.5, 0) to (32767, 65535] |
| VoltageCodec.DecodeVoltage | Sweeper/KS2201A_lib.py:905-918 | codes up to 32767 decode to [0, 1.5], codes up to 65535 to [-1.5, 0], and codes above 65535 to positive voltages |
| VoltageCodec.EncodeDecodeRoundTrip | Sweeper/KS2201A_lib.py:890-918 | every code below 65535 survives decoding and re-encoding |
| VoltageCodec.ZeroHasTwoCodes | Sweeper/KS2201A_lib.py:898-918 | 0 and 65535 both decode to 0 V, which encodes to 0 |
| VoltageCodec.CodeAboveRangeAliases | Sweeper/KS2201A_lib.py:913-918 | code 65536 decodes to one LSB above 0 V, which encodes to 1 |
| VoltageCodec.QuantizationError | Sweeper/KS2201A_lib.py:890-918 | within ±1.5 V the round trip loses less than one LSB and never grows the magnitude |
| VoltageCodec.OneVoltCodes | Sweeper/KS2201A_lib.py:890-903 | 1 V encodes to 21844 and -1 V to 65535 - 21844 |
| SweepValidation.Report | Sweeper/KS2201A_lib.py:786-791 | the warnings collected so far raise unless silenced or empty; otherwise they are returned |
| SweepValidation.SweepConfig.VerifySweepParameters1d | Sweeper/KS2201A_lib.py:730-791 | the method's new `num_steps_1d` and its result are those of the specification `Verify1d` on the internal 1D voltages, for any dV, including the ZeroDivisionError of dV = 0 |
| SweepValidation.SweepConfig.VerifySweepParameters2d | Sweeper/KS2201A_lib.py:793-851 | the method's new `num_steps_2d` and its result are those of `Verify2d` on `vi_2d_internal` and `vf_2d`, for any dV, including the ZeroDivisionError of dV = 0 |
| SweepValidation.Verify1dChainsWarnings | Sweeper/KS2201A_lib.py:730-791 | the incoming warning string is a prefix of the result, and the call raises exactly when warnings are collected and not silenced |
| SweepValidation.Verify1dWithoutFixKeepsSteps | Sweeper/KS2201A_lib.py:762-785 | without auto_fix `num_steps_1d` is never changed |
| SweepValidation.Verify1dFixAddsNoWarning | Sweeper/KS2201A_lib.py:764-781 | with auto_fix the 1D check adds no warning of its own |
| SweepValidation.Verify1dWarnsOnMismatch | Sweeper/KS2201A_lib.py:776-784 | for a usable step the 1D check warns exactly when `ramp // step + 1 != num_steps_1d`, with that suggested count |
| SweepValidation.ConsistentStepsAreStable | Sweeper/KS2201A_lib.py:776-780 | re-counting the step for the suggested number of steps keeps it between 1 and the ramp and gives the same quotient |
| SweepValidation.TooSmallFixGivesUnitStep | Sweeper/KS2201A_lib.py:762-766 | the number of steps suggested for a too-small step gives a step counter of exactly 1 |
| SweepValidation.Verify1dFixReconciles | Sweeper/KS2201A_lib.py:759-781 | after auto_fix the final step counter is between 1 and the ramp and `ramp // step + 1 == num_steps_1d` |
| SweepValidation.Verify1dFixIdempotent | Sweeper/KS2201A_lib.py:730-791 | running the auto-fixing 1D check again on its own result changes nothing |
| SweepValidation.Verify1dRejectsSubIncrementSweep | Sweeper/KS2201A_lib.py:762-774 | a sweep shorter than one dV raises: ZeroDivisionError with auto_fix, the step-bigger-than-ramp ValueError without |
| SweepValidation.Verify1dUncheckedIncrement | Sweeper/KS2201A_lib.py:759-776 | dV = 0 raises ZeroDivisionError with `num_steps_1d` unchanged; a negative dV always ends in the step-bigger-than-ramp ValueError or a division by zero |
| SweepValidation.Verify2dUncheckedIncrement | Sweeper/KS2201A_lib.py:821-835 | dV = 0 raises ZeroDivisionError with `num_steps_2d` unchanged; a negative dV always raises the step-bigger-than-ramp ValueError |
| SweepValidation.Verify1dDefaultSweepUnchanged | Sweeper/KS2201A_lib.py:730-791 | the 0 V to 1 V sweep with 101 steps and the default dV passes unchanged and without warning |
| SweepValidation.Verify2dFixStillWarns | Sweeper/KS2201A_lib.py:837-847 | the 2D check appends its warning even with auto_fix, so an unsilenced fixed call still raises, with `num_steps_2d` fixed |
| SweepValidation.Verify2dNeverDividesByZero | Sweeper/KS2201A_lib.py:824-837 | the 2D check always resets a step below 1 to 1, so it never divides by zero |
| SweepValidation.Verify2dFixReconciles | Sweeper/KS2201A_lib.py:821-842 | after auto_fix the 2D step counter on `vi_2d_internal`, `vf_2d` is between 1 and the ramp and reconciles with `num_steps_2d` |
| SweepValidation.Verify2dEndpointMismatch | Sweeper/KS2201A_lib.py:821-825 | a 0 V to 10 V sweep of 4 steps with dV 1 passes the code's check (on `vf_2d`), though on the internal endpoints it would need 6 steps |
| SweepValidation.Verify2dOnInternalVoltages | Sweeper/KS2201A_lib.py:821-851 | the check on both internal endpoints: after auto_fix the step counter reconciles with the number of steps on the voltages the sweep actually uses |
| InstructionNames.InstructionNameCache.Unique | Sweeper/KS2201A_lib.py:858-866 | the label and the new cache are `UniqueStep` of the old cache |
| InstructionNames.InstructionNameCache.UniqueSeries | Sweeper/KS2201A_lib.py:858-866 | labelling names one after the other gives `UniqueAll` of the old cache |
| InstructionNames.UniqueStepNumbers | Sweeper/KS2201A_lib.py:858-866 | the label carries the name's new count (the bare name the first time, `"name (k)"` after), the name's count grows by one and no other count changes |
| InstructionNames.UniqueAllSnoc | Sweeper/KS2201A_lib.py:858-866 | labelling a list and then one more name is labelling the longer list |
| InstructionNames.UniqueAllLength | Sweeper/KS2201A_lib.py:858-866 | one label per name |
| InstructionNames.UniqueAllCounts | Sweeper/KS2201A_lib.py:858-866 | afterwards each name's count is its old count plus its occurrences |
| InstructionNames.UniqueAllLabels | Sweeper/KS2201A_lib.py:858-866 | the j-th label numbers its name by the occurrences up to and including j |
| InstructionNames.LabelsDistinct | Sweeper/KS2201A_lib.py:858-866 | two different counts of the same base name give different labels |
| InstructionNames.LabelsCollideAcrossNames | Sweeper/KS2201A_lib.py:858-866 | the numbering is per base name: requesting "x (2)" and then "x" twice hands out "x (2)" twice |
| HviProgram.Set | Sweeper/KS2201A_lib.py:402-403 | a register write sets that engine's register and leaves every other register and output alone |
| HviProgram.ExecSeqFrame | Sweeper/KS2201A_lib.py:391-571 | a sequence leaves every register it does not write unchanged |
| HviProgram.ExecInstrFrame | Sweeper/KS2201A_lib.py:391-571 | an instruction leaves every register it does not write unchanged |
| HviProgram.ExecSeqOutputsFrame | Sweeper/KS2201A_lib.py:514-525 | an engine's sequence leaves other engines' offsets and FPGA registers unchanged |
| HviProgram.ExecInstrOutputsFrame | Sweeper/KS2201A_lib.py:514-525 | an engine's instruction leaves other engines' offsets and FPGA registers unchanged |
| HviProgram.ExecSeqAppend | Sweeper/KS2201A_lib.py:391-571 | running appended sequences is running one after the other |
| RampStep.TailFor | Sweeper/KS2201A_lib.py:514-525 | the new code goes to the AWG offset exactly when output_voltage is set, and to the register bank exactly when it is not and there is more than one virtual-gate module |
| RampStep.DelayTicks | Sweeper/KS2201A_lib.py:563-571 | the wait is `round(calc_slewTimer * 10)`: a positive multiple of 10 |
| RampStep.RampLabelNames | Sweeper/KS2201A_lib.py:395-563 | one label per instruction the step emits |
| RampStep.RampInstrs | Sweeper/KS2201A_lib.py:391-571 | the step ends with the slew-rate delay |
| RampStep.CoreInstrFacts | Sweeper/KS2201A_lib.py:391-510 | the six core instructions, five conditional blocks and the counter reset, write in turn the sweep direction, the negative counter (the reset and the two counting blocks) and the voltage register (the move and the fold blocks); every conditional block requests IF-branch time matching, which holds trivially for the plain reset assignment |
| RampStep.RampTimeMatched | Sweeper/KS2201A_lib.py:394-500 | every IF block of the step asks for branch time matching |
| RampStep.RampWrites | Sweeper/KS2201A_lib.py:391-571 | the step writes exactly the sweep direction, the negative counter and the voltage register |
| RampStep.StepApproachesTarget | Sweeper/KS2201A_lib.py:391-510 | with unit increments each step brings the signed voltage exactly one code closer to a different target |
| RampStep.ZeroAliasStepsThroughFold | Sweeper/KS2201A_lib.py:497-510 | stepping from 65535 toward 0 reaches 65536, and then the fold of 65537 back to 0 |
| RampStep.DirectionEffect | Sweeper/KS2201A_lib.py:391-419 | the direction is the negative increment when the target is below the current code, the increment otherwise |
| RampStep.CountNegativeEffect | Sweeper/KS2201A_lib.py:429-462 | a code above 32767 adds one to the negative counter |
| RampStep.MoveEffect | Sweeper/KS2201A_lib.py:468-492 | with exactly one negative code the voltage register moves against the direction, otherwise with it |
| RampStep.FoldEffect | Sweeper/KS2201A_lib.py:497-510 | the code 65537 becomes 0, any other code stays |
| RampStep.CoreEffect | Sweeper/KS2201A_lib.py:391-510 | after the six blocks the voltage register holds the next code toward the target, the target is unchanged, the direction and the negative-code count are as the conditions say |
| RampStep.RampStepEffect | Sweeper/KS2201A_lib.py:391-571 | the emitted step moves the voltage register to the next code and then sends it to the AWG offset of the channel or to the register bank |
| RampStep.ProgramStepToTargetVoltage | Sweeper/KS2201A_lib.py:340-571 | the builder appends exactly the step's instructions, labelled by the name cache, to the sequence, and advances the cache |
| VgRegisters.Row | Sweeper/KS2201A_lib.py:1238-1242 | a module checks `4 * (nb_VG_awg_modules - 1)` registers |
| VgRegisters.SweepVoltageRegister | Sweeper/KS2201A_lib.py:1169-1203 | a slew rate outside [0.1, 1] V/s raises; otherwise the register ends at the target and the bank is otherwise unchanged |
| VgRegisters.RunAppend | Sweeper/KS2201A_lib.py:1237-1251 | checking one list of registers and then another is checking both |
| VgRegisters.RunFailed | Sweeper/KS2201A_lib.py:1237-1251 | once a check raises, nothing later runs |
| VgRegisters.CheckRow | Sweeper/KS2201A_lib.py:1238-1251 | the inner loop checks one module's row of registers |
| VgRegisters.UpdateVgRegisters | Sweeper/KS2201A_lib.py:1237-1251 | the nested loops check the registers of the plan, module by module |
| VgRegisters.PlanStaysFailed | Sweeper/KS2201A_lib.py:1237-1251 | a failure in the first modules is the result of the whole update |
| VgRegisters.CheckIndex | Sweeper/KS2201A_lib.py:1239-1241 | each check of module m names a channel of another module, and the card index is the channel's module |
| VgRegisters.CheckOfInverts | Sweeper/KS2201A_lib.py:1239-1241 | every channel of every other module is checked by module m |
| VgRegisters.ChecksDistinct | Sweeper/KS2201A_lib.py:1239-1241 | a module never checks the same channel twice |
| VgRegisters.PlanCoverage | Sweeper/KS2201A_lib.py:1237-1242 | the plan checks exactly the registers of other modules' channels, in the first `count` modules |
| VgRegisters.PlanDistinct | Sweeper/KS2201A_lib.py:1237-1242 | the plan names no register twice |
| VgRegisters.HostRegisterNameInjective | Sweeper/KS2201A_lib.py:1242 | two register names formatted by `update_vg_registers` are equal exactly when their card and channel numbers are |
| VgRegisters.CheckEffect | Sweeper/KS2201A_lib.py:1243-1251 | a check of an existing register sets it to its channel's voltage and sweeps it exactly when it differed |
| VgRegisters.ApplyPlanEffect | Sweeper/KS2201A_lib.py:1237-1251 | every planned register ends at its channel's voltage, unplanned ones keep their values, and only planned ones are swept |
| VgRegisters.ApplyPlanSweeps | Sweeper/KS2201A_lib.py:1249-1251 | a planned register is swept exactly when it differed from its channel's voltage |
| VgRegisters.ApplyPlanSucceeds | Sweeper/KS2201A_lib.py:1243-1244 | the update succeeds exactly when every planned register exists and its channel was read |
| VgRegisters.UpdateVgRegistersCorrect | Sweeper/KS2201A_lib.py:1205-1253 | the update succeeds exactly when every checked register exists and was read; it then leaves every checked register at its channel's voltage, every other one unchanged, and sweeps exactly the ones that differed |
| VgRegisters.WriteSweepRegisters | Sweeper/KS2201A_lib.py:1219-1225 | every virtual-gate engine's 1D and 2D voltage registers receive the two codes read; no other register changes |
| Modules.NewDescriptor | Sweeper/KS2201A_lib.py:25-39 | the descriptor is built exactly when the VG card number is in 0..3 and the model is one the engine-name test accepts; it keeps the given fields and names the engine "Digitizer Engine <slot>" or "AWG Engine <slot>"; an out-of-range card number is the first error |
| Modules.ChooseFirmware | Sweeper/KS2201A_lib.py:54-91 | the firmware choice fails exactly for an unsupported model, for an M3202A with virtual gates on more than 3 or fewer than 1 VG AWG modules, and for an M3201A with virtual gates on more than 2 or fewer than 1 |
| Modules.NewModule | Sweeper/KS2201A_lib.py:50-93 | a built module keeps the descriptor's model and the given channel count |
| Modules.NewModuleOfAcceptedDescriptor | Sweeper/KS2201A_lib.py:50-93 | a module over an accepted descriptor is built exactly when the firmware choice succeeds, and then carries that descriptor, channel count and firmware |
| Modules.DigitizerFirmware | Sweeper/KS2201A_lib.py:54-58 | an M3100A loads the QD emulator firmware when the emulator is used and its default firmware otherwise |
| Modules.AwgWithoutVirtualGates | Sweeper/KS2201A_lib.py:60-89 | without virtual gates an AWG loads its voltage-register firmware |
| Modules.AwgWithVirtualGates | Sweeper/KS2201A_lib.py:60-87 | with virtual gates, one VG module gives card 1 the virtual-gates firmware and the others the voltage-register firmware; two or three VG modules pick the CC8 or CC12 firmware of the card number |
| Modules.SubstringModelPassesDescriptorOnly | Sweeper/KS2201A_lib.py:34-91 | `model_number in ("M3100A")` is a substring test, so a model "M31" gets a digitizer engine name yet is refused by Module |
| Modules.ModuleModelsPassDescriptor | Sweeper/KS2201A_lib.py:34-77 | for the three models Module supports, the substring test names the digitizer engine exactly for the M3100A |
| Sweep2d.BuildSweeper2d | Sweeper/Sweeper2D_KS2201A.py:436-545 | the statements appended one at a time, with the emulator stop appended last to the step block's digitizer sequence, form exactly the sequence `Sweeper2dProgram`: go to Vi, the 1D sweep, the outer loop ending in the 1D sweep, the reset block |
| Sweep2d.RampKeepsRegister | Sweeper/Sweeper2D_KS2201A.py:448-494 | a ramp built by program_step_to_target_voltage writes no register other than its direction, negative-count and voltage registers |
| Sweep2d.GoToViKeeps | Sweeper/Sweeper2D_KS2201A.py:437-460 | whenever the "go to Vi 2D" loop ends, the AWG loop counter, the ramp counter and the step counter are as before |
| Sweep2d.ResetLoopEffect | Sweeper/Sweeper2D_KS2201A.py:472-480 | the "Loop 2D" block sets the digitizer's loop counter to 0 and keeps the step, AWG loop and ramp counters |
| Sweep2d.StepEffect | Sweeper/Sweeper2D_KS2201A.py:487-521 | one "Step voltage 2D" block adds 1 to the loop counter and to the AWG loop counter and keeps the step and ramp counters |
| Sweep2d.RepeatStepEffect | Sweeper/Sweeper2D_KS2201A.py:487-521 | `n` step blocks add `n` to both counters and keep the others |
| Sweep2d.InnerLoopRuns | Sweeper/Sweeper2D_KS2201A.py:482-485 | from a loop counter between 0 and the step counter the inner loop ends after exactly step counter minus loop counter step blocks |
| Sweep2d.InnerLoopHangs | Sweeper/Sweeper2D_KS2201A.py:482-485 | with a negative step counter the `!=` condition never fails and the inner loop does not end |
| Sweep2d.IterationsBounds | Sweeper/Sweeper2D_KS2201A.py:467-469 | the outer loop count is 0 when the AWG loop counter starts at or above the ramp counter, and is otherwise the least `k` whose `k` steps reach the ramp counter |
| Sweep2d.IterationsIsCeiling | Sweeper/Sweeper2D_KS2201A.py:467-469 | the outer loop count is the ceiling of (ramp counter - AWG loop counter) / step counter |
| Sweep2d.OuterIterationEffect | Sweeper/Sweeper2D_KS2201A.py:467-526 | one outer iteration adds the step counter to the AWG loop counter and keeps the ramp and step counters |
| Sweep2d.RepeatOuterEffect | Sweeper/Sweeper2D_KS2201A.py:467-526 | `k` outer iterations add `k` times the step counter to the AWG loop counter |
| Sweep2d.OuterLoopRuns | Sweeper/Sweeper2D_KS2201A.py:467-526 | with a positive step counter the outer loop ends after `Iterations` iterations |
| Sweep2d.OuterLoopHangs | Sweeper/Sweeper2D_KS2201A.py:467-526 | with a step counter of 0 and an AWG loop counter below the ramp counter the outer loop does not end |
| Sweep2d.Sweeper2dRuns | Sweeper/Sweeper2D_KS2201A.py:436-537 | once the go-to-Vi loop ends and the step counter is positive, the whole sequence ends in the state of the ceiling-many outer iterations followed by the reset, with the AWG loop counter back at 0 and the ramp and step counters unchanged |
| Sweep2d.QdStopInStepBlock | Sweeper/Sweeper2D_KS2201A.py:540-545 | as written, the emulator stop sits in the step block, so every 2D step writes `reg_HLS_start = 0` |
| Sweep2d.QdStoppedAfterFirstStep | Sweeper/Sweeper2D_KS2201A.py:472-545 | as written, the emulator is stopped after the first 2D step although the inner loop has steps left |
| Sweep2d.FixedStepKeepsEmulator | Sweeper/Sweeper2D_KS2201A.py:487-545 | with the stop moved to the end of the sequence a 2D step leaves the emulator's memory alone |
| Sweep2d.Sweeper2dFixedRuns | Sweeper/Sweeper2D_KS2201A.py:436-545 | the corrected sequence runs to its end, resets the AWG loop counter and stops the emulator only there |
| Acquisition.SetBitEffect | Sweeper/Sweeper2D_KS2201A.py:605 | `mask \| (1 << j)` sets bit j and keeps every other bit |
| Acquisition.NoBitOfZero | Sweeper/Sweeper2D_KS2201A.py:603 | the mask starts with no channel bit set |
| Acquisition.ChannelMask | Sweeper/Sweeper2D_KS2201A.py:602-605 | the mask is built exactly when every channel is at least 1 (otherwise the shift count is negative); bit k is set exactly when channel k + 1 is listed |
| Acquisition.TimeoutCheck | Sweeper/Sweeper2D_KS2201A.py:830-836 | the loop over the channels computes the log-tick timeout check `TimeoutTick` |
| Acquisition.TimeoutTickEffect | Sweeper/Sweeper2D_KS2201A.py:830-836 | on a log tick a counter grows by one exactly when its channel has started and read nothing since the last tick; the stop event is set after the tick exactly when it was set before or some stalled channel's counter passes `round(max_time / log_interval)`; `old_readPoints` takes the current counts |
| Acquisition.MinFilled | Sweeper/Sweeper2D_KS2201A.py:919-923 | `smallest_array_size` is at most every channel's filled count and equal to one of them |
| Acquisition.SaveProgress | Sweeper/Sweeper2D_KS2201A.py:913-932 | the loop over the channels computes the save step `SaveStep` |
| Acquisition.PollChannels | Sweeper/Sweeper2D_KS2201A.py:838-911 | the loop over the channels of one pass computes `ChannelsFrom` from channel 0, including the ZeroDivisionError of averaging without points per cycle and of the countdown with `max_points == 0` |
| Acquisition.MeasureData | Sweeper/Sweeper2D_KS2201A.py:699-932 | the while loop, started from the initial counters, computes `Run` over the passes of the trace, for any non-negative points per cycle and array sizes |
| Acquisition.ProgressedTransitive | Sweeper/Sweeper2D_KS2201A.py:798-932 | moving forward composes over successive passes |
| Acquisition.InitialInv | Sweeper/Sweeper2D_KS2201A.py:699-709 | the initial counters, flags, buffers and indices satisfy the loop invariant |
| Acquisition.DrainArithmetic | Sweeper/Sweeper2D_KS2201A.py:844-865 | folding ready points into a buffer of less than a cycle averages at least one cycle, accounts for every point and leaves less than a cycle buffered |
| Acquisition.IngestKeeps | Sweeper/Sweeper2D_KS2201A.py:840-877 | a read keeps the invariant, adds the ready count to that channel's readPoints only, resets every timeout counter to 0 and leaves flags, segments, digitizer actions and the stop event alone |
| Acquisition.SegmentCheckKeeps | Sweeper/Sweeper2D_KS2201A.py:886-908 | the segment check keeps the invariant and changes neither the read points nor the timeout counters |
| Acquisition.MarkDoneKeeps | Sweeper/Sweeper2D_KS2201A.py:910-911 | the completion check sets `data_all_read[j]` when channel j has `max_points`, keeps it set otherwise, and changes nothing else |
| Acquisition.ChannelStepKeeps | Sweeper/Sweeper2D_KS2201A.py:838-911 | one channel's turn keeps the invariant and adds the ready count to that channel's readPoints, if any |
| Acquisition.ChannelsFromKeeps | Sweeper/Sweeper2D_KS2201A.py:838-911 | the loop over the channels keeps the invariant and only moves the state forward |
| Acquisition.TimeoutTickKeeps | Sweeper/Sweeper2D_KS2201A.py:812-836 | the log-tick check keeps the invariant |
| Acquisition.SaveStepKeeps | Sweeper/Sweeper2D_KS2201A.py:913-932 | the save step never moves `saved_data_index` back and sets it to some channel's filled count |
| Acquisition.IterateKeeps | Sweeper/Sweeper2D_KS2201A.py:798-932 | one pass of the while loop keeps the invariant, moves the state forward and never moves `saved_data_index` back |
| Acquisition.SavedIndexUnchanged | Sweeper/Sweeper2D_KS2201A.py:838-911 | the loop over the channels never writes `saved_data_index` |
| Acquisition.RunKeeps | Sweeper/Sweeper2D_KS2201A.py:798-932 | over a whole run the invariant holds at the end, read points, averaged cycles, flags, segments and digitizer actions only grow, and `saved_data_index` never moves back |
| Acquisition.MeasureDataKeeps | Sweeper/Sweeper2D_KS2201A.py:699-932 | at the end of a measurement every point read is averaged or buffered (with averaging and no points per cycle, nothing was read), a completion flag is set only for a channel with all its points, and `saved_data_index` never passes a row some channel has not filled |
| Acquisition.ChannelsFromZeroesCounters | Sweeper/Sweeper2D_KS2201A.py:840-841 | once any channel reports ready points, the pass leaves every timeout counter at 0 |
| Acquisition.ChannelsFromKeepsCounters | Sweeper/Sweeper2D_KS2201A.py:838-911 | without ready points anywhere the loop over the channels leaves the timeout counters as they were |
| Acquisition.IterateCounters | Sweeper/Sweeper2D_KS2201A.py:812-911 | after a pass every counter is 0 if some channel read points; otherwise a counter grew by one exactly on a log tick for a stalled channel |
| Acquisition.SegmentReconfiguration | Sweeper/Sweeper2D_KS2201A.py:886-908 | a channel without ready points completes a segment exactly when the since-config count reached the segment size; after the last segment the digitizer is left alone, after the second last it is configured for `num_cycles - cycles_per_segment*(num_segments - 1)` cycles, otherwise for a full segment, and the since-config register is reset |
| Acquisition.ReadLeavesSegments | Sweeper/Sweeper2D_KS2201A.py:840-885 | a channel that reads points never touches the segment bookkeeping |
| Acquisition.ReadWithinRow | Sweeper/Sweeper2D_KS2201A.py:866-873 | without averaging, a read that fits in the row of `max_points` entries succeeds and one that runs past its end raises |
| Acquisition.ChannelStepFlags | Sweeper/Sweeper2D_KS2201A.py:879-911 | the completion check looks at the channel's own count, except after a read with the countdown on, when the rebound `i` makes it look at the last channel |
| Acquisition.CountdownChecksLastChannel | Sweeper/Sweeper2D_KS2201A.py:879-911 | with the countdown on, channel 1 can read all its points and still have its completion flag unset |
| Acquisition.MakeParamsPlan | Sweeper/Sweeper2D_KS2201A.py:675-708 | the measurement settings carry `max_points = points_per_cycle * num_cycles` and the segment plan of calc_num_cycles_per_segment, and are valid for non-negative points per cycle and cycles |
| Acquisition.ConfigParams | Sweeper/Sweeper2D_KS2201A.py:675-708 | the settings built from `num_cycles = num_steps_1d * num_steps_2d` are valid for non-negative counts, and `max_points` is 0 exactly when the points per cycle or the steps of an axis are 0 |
| Acquisition.ZeroPointsPerCycleRaises | Sweeper/Sweeper2D_KS2201A.py:849-851 | with averaging and no points per cycle, every read raises ZeroDivisionError at `data.size // 0` |
| Acquisition.CountdownZeroMaxPointsRaises | Sweeper/Sweeper2D_KS2201A.py:866-884 | with the countdown on and `max_points == 0`, a read raises: at the slice assignment, or else at `readPoints[i] / max_points` |
| Acquisition.ChannelsFromCountdownRaises | Sweeper/Sweeper2D_KS2201A.py:838-884 | with the countdown on and `max_points == 0`, a pass in which any channel has ready points raises |
| MeasureDiagram.RunDiagram | Sweeper/Sweeper2D_KS2201A.py:1167-1300 | the method's result is `DiagramRuns`: the files written per repetition and the averaged file, or the error the function raises, including the live-averaging ValueError after the first repetition |
| MeasureDiagram.Repetitions | Sweeper/Sweeper2D_KS2201A.py:1245-1292 | the repetition loop produces the blocks of files of repetitions 0..nb_averaging-1 with no run made before, or, with live averaging and first-repetition data of other than one channel, stops after that repetition with the reshape ValueError carrying its files |
| MeasureDiagram.Repetition | Sweeper/Sweeper2D_KS2201A.py:1246-1280 | one repetition's block followed by the later repetitions' blocks, counted from the runs it made, are the blocks from this repetition on |
| MeasureDiagram.BlocksStep | Sweeper/Sweeper2D_KS2201A.py:1246-1280 | a repetition writes its own path, and also the `_timeout.txt` path of a second run exactly when the first run's data is incomplete |
| MeasureDiagram.MissingPoints | Sweeper/Sweeper2D_KS2201A.py:1257-1266 | the redo flag is set exactly when some channel returned fewer non-NaN points than `num_cycles`, or `num_cycles * acquisition_points_per_cycle` without averaging |
| MeasureDiagram.BlocksLength | Sweeper/Sweeper2D_KS2201A.py:1245 | there is one block per remaining repetition |
| MeasureDiagram.BlockAt | Sweeper/Sweeper2D_KS2201A.py:1245-1280 | the k-th block is the shape of repetition i+k after the runs of the blocks before it |
| MeasureDiagram.DiagramRunsShape | Sweeper/Sweeper2D_KS2201A.py:1231-1297 | the call fails exactly when nb_averaging is not positive, when averaging with pyqtgraph or without live plotting, or when live averaging gets first-repetition data of other than one channel (then after writing that repetition's well-formed block); otherwise one block per repetition of one or two runs, between nb_averaging and twice that many runs, and the average written to the original path exactly with averaging and save_data |
| MeasureDiagram.AveragePathsDistinct | Sweeper/Sweeper2D_KS2201A.py:1249 | distinct repetitions write distinct `_avg<k>` files |
| MeasureDiagram.AveragedFileIsNoRepetitionFile | Sweeper/Sweeper2D_KS2201A.py:1249-1295 | the averaged file at the original path is never one of the `_avg<k>` repetition files |
| Acquisition.NumCycles | Sweeper/Sweeper2D_KS2201A.py:226-228 | with at least one step on each axis there are at least as many cycles as steps on either axis |
| YamlConfig.Insert | Sweeper/Sweeper2D_KS2201A.py:104 | adding a chassis number to a strictly increasing list keeps it strictly increasing and adds exactly that number |
| YamlConfig.ChassisList | Sweeper/Sweeper2D_KS2201A.py:104 | `sorted(set(...))`: strictly increasing, and holding exactly the chassis numbers of the descriptors |
| YamlConfig.Lookup | Sweeper/Sweeper2D_KS2201A.py:107-109 | `data[key]` is found exactly when some descriptor has that key, and is a descriptor with that key |
| YamlConfig.LookupDistinctKeys | Sweeper/Sweeper2D_KS2201A.py:107-109 | when the descriptor keys are distinct, as in a YAML mapping, `data[key]` is the one descriptor with that key |
| YamlConfig.FromEntry | Sweeper/Sweeper2D_KS2201A.py:107-116 | `ModuleDescriptor.from_dict` succeeds exactly when the descriptor constructor does, with its descriptor |
| YamlConfig.CountVg | Sweeper/Sweeper2D_KS2201A.py:133-137 | the virtual-gate count never exceeds the number of modules |
| YamlConfig.VgCards | Sweeper/Sweeper2D_KS2201A.py:148 | there are no more AWG card numbers than modules |
| YamlConfig.FromYaml | Sweeper/Sweeper2D_KS2201A.py:88-150 | the method's result is `FromYamlSetup`, the outcome of the descriptor checks of from_yaml: the chassis list, modules, virtual-gate count and main, secondary and digitizer engine names, or the first error those checks raise |
| YamlConfig.CollectModules | Sweeper/Sweeper2D_KS2201A.py:115-131 | the descriptor loop's result is `Collected`: every entry built in order, the skipped ones left out, or the first invalid entry's error |
| YamlConfig.CountVgModules | Sweeper/Sweeper2D_KS2201A.py:133-137 | the counting loop gives `CountVg`, the AWG engines with a card number above 0 |
| YamlConfig.CollectedFailurePersists | Sweeper/Sweeper2D_KS2201A.py:115-131 | an error raised on an entry ends the loop: later entries do not change it |
| YamlConfig.CollectedBuildsAll | Sweeper/Sweeper2D_KS2201A.py:116 | when the loop succeeds every entry, skipped or not, builds a valid descriptor |
| YamlConfig.CollectedSound | Sweeper/Sweeper2D_KS2201A.py:115-131 | every collected module is the descriptor of an entry that is not skipped |
| YamlConfig.CollectedComplete | Sweeper/Sweeper2D_KS2201A.py:115-131 | every entry that is not skipped gives a collected module |
| YamlConfig.SkippedDescriptors | Sweeper/Sweeper2D_KS2201A.py:117-126 | no collected module comes from an extra AWG without virtual gates, from the secondary AWG sharing the main AWG's engine, or from an extra AWG with card 0 |
| YamlConfig.FromYamlAccepted | Sweeper/Sweeper2D_KS2201A.py:104-150 | an accepted configuration counts its virtual-gate modules, keeps that count at most 4 when the main and secondary engines are the same and 3 otherwise, has distinct AWG card numbers under virtual gates, and holds the sorted chassis list |
| YamlConfig.FromYamlRejects | Sweeper/Sweeper2D_KS2201A.py:139-150 | once the descriptors are found, from_yaml raises "too many" exactly when the count exceeds the maximum, raises the duplicate-card error exactly when the count is within it and virtual gates have a repeated card number, and otherwise passes the descriptor checks |
| YamlConfig.CardZeroOnMainAndSecondaryRejected | Sweeper/Sweeper2D_KS2201A.py:145-150 | with virtual gates, a main and a secondary AWG on distinct engines that both keep the default card number 0 are rejected as duplicates |
| YamlRewrite.FirstLineLength | Sweeper/Sweeper2D_KS2201A.py:188 | the first line of the contents runs up to and including its first newline, or to the end |
| YamlRewrite.ReadLines | Sweeper/Sweeper2D_KS2201A.py:188 | `readlines()` of non-empty contents gives at least one line |
| YamlRewrite.ConcatReadLines | Sweeper/Sweeper2D_KS2201A.py:188-209 | writing the lines back one after the other gives the contents, and every line but the last ends with its only newline |
| YamlRewrite.ReadLinesConcat | Sweeper/Sweeper2D_KS2201A.py:188-209 | reading back well-formed lines written one after the other gives the same lines |
| YamlRewrite.WriteBack | Sweeper/Sweeper2D_KS2201A.py:187-209 | writing from offset 0 without truncating: the new data, then the old contents beyond its length |
| YamlRewrite.ReplaceValue | Sweeper/Sweeper2D_KS2201A.py:191-196 | the rewrite of a line succeeds exactly when `line.split(":")[1].split(" ")[1]` exists |
| YamlRewrite.RewriteLine | Sweeper/Sweeper2D_KS2201A.py:189-205 | a line that mentions neither key is kept |
| YamlRewrite.RewriteYamlLines | Sweeper/Sweeper2D_KS2201A.py:189-205 | the loop assigning `lines[i]` gives `Rewritten`, the lines after rewriting, or the first IndexError |
| YamlRewrite.YamlFile.UpdateVerifiedSteps | Sweeper/Sweeper2D_KS2201A.py:186-209 | the file's new contents are `RewriteFile` of the old contents when the rewrite succeeds, and unchanged when it raises |
| YamlRewrite.RewrittenFailurePersists | Sweeper/Sweeper2D_KS2201A.py:189-205 | an IndexError on a line ends the loop: later lines do not change it |
| YamlRewrite.RewrittenLines | Sweeper/Sweeper2D_KS2201A.py:189-205 | a successful rewrite keeps the number of lines and rewrites each line on its own |
| YamlRewrite.RewrittenFails | Sweeper/Sweeper2D_KS2201A.py:189-205 | the rewrite raises exactly when some line raises, and reports the first such line |
| YamlRewrite.RewriteLineValue | Sweeper/Sweeper2D_KS2201A.py:190-205 | a rewritten 2D line carries `num_steps_2d` as its value token, and a 1D-only line carries `num_steps_1d`; the 2D rewrite runs second and wins on a line with both keys |
| YamlRewrite.ReplaceValueShape | Sweeper/Sweeper2D_KS2201A.py:191-196 | only the value token is replaced: the key, the fields after the second colon and the other space-separated tokens are kept |
| YamlRewrite.ReplaceSameValue | Sweeper/Sweeper2D_KS2201A.py:191-196 | a line that already holds the value is left as it is |
| YamlRewrite.ReplaceValueIdempotent | Sweeper/Sweeper2D_KS2201A.py:191-196 | rewriting twice with the same value gives the same line as rewriting once |
| YamlRewrite.ReplaceValueDropsNewline | Sweeper/Sweeper2D_KS2201A.py:191-196 | as written, a line `key: value\n` loses its newline, because the newline belongs to the value token that is replaced |
| YamlRewrite.ShorterCountKeepsOldDigits | Sweeper/Sweeper2D_KS2201A.py:187-209 | as written, replacing 100 by 7 leaves `700` in the file, because the shorter contents are written over the old ones without truncating |
| YamlRewrite.KeepingNewlineKeepsLine | Sweeper/Sweeper2D_KS2201A.py:191-196 | the corrected replacement keeps the line's terminator and sets the value token |
| YamlRewrite.RewriteLineFixedKeepsLine | Sweeper/Sweeper2D_KS2201A.py:189-205 | the corrected line rewrite turns a line into a line with the same ending |
| YamlRewrite.RewriteFileFixedReadsBack | Sweeper/Sweeper2D_KS2201A.py:186-209 | after the corrected rewrite (newline kept, file truncated) the file reads back as the same number of lines, each rewritten on its own, with the new step counts as value tokens |
| FirmwareDb.InsertBy | Sweeper/firmware_manager.py:57-87 | inserting into a list sorted by the key keeps it sorted and adds exactly that element |
| FirmwareDb.SortBy | Sweeper/firmware_manager.py:57-87 | `sorted(..., key=...)` gives a list sorted by the key and a permutation of its input |
| FirmwareDb.SortBySorted | Sweeper/firmware_manager.py:87 | sorting a list already sorted by the key leaves it as it is |
| FirmwareDb.SortBySortedAppend | Sweeper/firmware_manager.py:85-87 | sorting a sorted list with one element appended is inserting that element |
| FirmwareDb.FindModel | Sweeper/firmware_manager.py:80 | `model in self.model_dict` finds the first entry of that model, or reports that there is none |
| FirmwareDb.FindName | Sweeper/firmware_manager.py:82 | `name in self.model_dict[model]` finds the first entry of that name, or reports that there is none |
| FirmwareDb.VersionsOf | Sweeper/firmware_manager.py:53-54 | `list(zip(*version_list))[0]`: the versions of the list, in order |
| FirmwareDb.FirstWithVersion | Sweeper/firmware_manager.py:157-159 | the loop of get_fw stops at the first firmware of the asked version, or finds none |
| FirmwareDb.FirstWithUuid | Sweeper/firmware_manager.py:172-178 | the search returns a firmware of the given UUID, and returns nothing exactly when no firmware has it |
| FirmwareDb.FirstWithUuidAppend | Sweeper/firmware_manager.py:172-178 | searching two lists one after the other finds the first list's match before the second's |
| FirmwareDb.FirmwareVersionTracker.AddNewFw | Sweeper/firmware_manager.py:61-87 | the tracker's rows, dictionary and outcome after the call are those of `AddSpec` with the duplicate test as written |
| FirmwareDb.FirmwareVersionTracker.GetFw | Sweeper/firmware_manager.py:155-167 | get_fw returns `GetFwSpec`: the first firmware of the version, or the KeyError or ValueError it raises |
| FirmwareDb.FirmwareVersionTracker.ToString | Sweeper/firmware_manager.py:49-59 | `__str__` returns `TrackerString` of the dictionary, or raises IndexError on an empty one |
| FirmwareDb.FirmwareVersionTracker.SearchUuid | Sweeper/firmware_manager.py:169-180 | search_uuid returns the first firmware with the UUID in the dictionary's iteration order, or None |
| FirmwareDb.RegisterFw | Sweeper/firmware_manager.py:79-87 | the dictionary update gives `Register`: a new model or name gets a one-element list, and a further version is appended and sorted, with the tie reported |
| FirmwareDb.FindInDatabase | Sweeper/firmware_manager.py:70-74 | the duplicate loop finds a row exactly when the duplicate test as written matches one |
| FirmwareDb.SearchModels | Sweeper/firmware_manager.py:171-178 | the loop over the models returns the first firmware with the UUID |
| FirmwareDb.SearchNames | Sweeper/firmware_manager.py:172-178 | the loop over one model's names returns the first firmware with the UUID |
| FirmwareDb.SearchVersions | Sweeper/firmware_manager.py:173-178 | the loop over one version list returns the first firmware with the UUID |
| FirmwareDb.SortKeepsUntied | Sweeper/firmware_manager.py:87 | sorting a version list without a tie adds no tie |
| FirmwareDb.SortKeepsEntries | Sweeper/firmware_manager.py:87 | sorting keeps every entry's model, name and version those of its firmware |
| FirmwareDb.AppendedValid | Sweeper/firmware_manager.py:85-87 | appending a firmware of the same model and name to a valid version list and sorting it gives a valid version list |
| FirmwareDb.AddPreservesValid | Sweeper/firmware_manager.py:61-87 | add_new_fw keeps the dictionary valid: distinct models, distinct names per model, non-empty version lists keyed by their firmware's version, sorted unless tied |
| FirmwareDb.AddThenGet | Sweeper/firmware_manager.py:61-160 | after a firmware is added, get_fw with its name, model and version returns it |
| FirmwareDb.AddKeepsOthers | Sweeper/firmware_manager.py:61-87 | adding a firmware does not change whether another (model, name) pair is present, nor the version list of one that is |
| FirmwareDb.TieIsPermanent | Sweeper/firmware_manager.py:85-87 | once a version list holds two different firmwares of one version, every later addition to it raises again |
| FirmwareDb.AsWrittenReaddRaises | Sweeper/firmware_manager.py:70-87 | as written, a second Firmware with the same fields is not recognised as a duplicate: its row is appended and sorting the tie raises |
| FirmwareDb.IntendedReaddSkipped | Sweeper/firmware_manager.py:70-74 | with the fields unpacked in the order rows are stored, re-adding the same fields is skipped and changes nothing |
| FirmwareDb.GetFwFound | Sweeper/firmware_manager.py:155-160 | a firmware get_fw returns has the asked name, model and version |
| FirmwareDb.GetFwMissing | Sweeper/firmware_manager.py:155-167 | on a known model and name get_fw fails exactly when the version is not among the stored versions, and then reports the name, the version and the stored versions |
| FirmwareDb.SearchUuidFinds | Sweeper/firmware_manager.py:169-180 | search_uuid returns a stored firmware with the UUID, and None exactly when no stored firmware has it |
| FirmwareDb.ListRepr | Sweeper/firmware_manager.py:55 | the printed list of versions is bracketed |
| FirmwareDb.EntryLine | Sweeper/firmware_manager.py:55 | each output line ends with the closing bracket and a newline |
| FirmwareDb.NameLines | Sweeper/firmware_manager.py:52-55 | one model's names give one output line each, in order |
| FirmwareDb.CollectNameLines | Sweeper/firmware_manager.py:52-55 | the inner loop of `__str__` appends `NameLines` |
| FirmwareDb.RStripNewlines | Sweeper/firmware_manager.py:58 | `rstrip("\n")` keeps a prefix not ending in a newline and drops only newlines |
| FirmwareDb.EntriesCount | Sweeper/firmware_manager.py:50-55 | there is one output line per (model, name) pair |
| FirmwareDb.EntriesComplete | Sweeper/firmware_manager.py:50-55 | every (model, name) pair has its line among the output lines |
| FirmwareDb.EntriesSound | Sweeper/firmware_manager.py:50-55 | every output line is the line of some (model, name) pair |
| FirmwareDb.TrackerStringEmpty | Sweeper/firmware_manager.py:57-58 | `__str__` raises IndexError exactly when the dictionary holds no (model, name) pair |
| FirmwareDb.TrackerStringText | Sweeper/firmware_manager.py:49-59 | the text ends with ']' and, with a newline added, is the output lines in case-insensitive order, one after the other |
| FirmwareDb.Gap | Sweeper/firmware_manager.py:115-116 | a gap is no line or one blank line |
| FirmwareDb.SpacedLength | Sweeper/firmware_manager.py:110-119 | the new lines are every line but the first plus one blank line per gap |
| FirmwareDb.SpacedLine | Sweeper/firmware_manager.py:110-119 | each line after the first appears in order, after a blank line exactly when the line before it names `nb_registers` and it does not name `firmware_uuid` |
| FirmwareDb.SpacedMember | Sweeper/firmware_manager.py:110-119 | every new line is blank or one of the YAML lines |
| FirmwareDb.SpaceLines | Sweeper/firmware_manager.py:110-119 | the loop builds `Spaced` of the YAML lines |
| FirmwareDb.FormatYaml | Sweeper/firmware_manager.py:107-122 | the post-processing of save_database gives `FormatDatabase` of the YAML text |
| FirmwareDb.FormatDatabaseLines | Sweeper/firmware_manager.py:107-122 | the saved text reads back, line by line, as the spaced lines |
| SaveFilename.FirstFreeFrom | Sweeper/file_save_system.py:40-46 | the search from increment `k` returns the first increment not taken, with every increment before it taken, or 10001 when 1..10000 are all taken from `k` on |
| SaveFilename.FirstFreeExists | Sweeper/file_save_system.py:40-46 | when some increment 1..10000 is free the search from 1 stops at one of them |
| SaveFilename.CreateSaveFilename | Sweeper/file_save_system.py:4-48 | the disk gains the month and day folders, and the year folder too when the month folder was missing; the day folder is `database/YYYY/MM/DD`, and the file name is the candidate of the first free increment, whose path does not exist |
| SaveFilename.CreateDateFolders | Sweeper/file_save_system.py:29-37 | `os.makedirs` of a missing month folder also creates the year folder, and the day folder is created when missing; exactly those folders of the date's branch are added |
| SaveFilename.FirstFreeName | Sweeper/file_save_system.py:40-46 | the while loop stops at the candidate of the first free increment, and that path is free |
| SaveFilename.FolderCreationKeepsCandidates | Sweeper/file_save_system.py:29-37 | creating any of the year, month and day folders makes no candidate file name look taken |
| SaveFilename.DayFolderLayout | Sweeper/file_save_system.py:24-37 | the day folder is the database folder, the year, the two-digit month and the two-digit day joined by '/' |
| SaveFilename.FirstCandidate | Sweeper/file_save_system.py:40-41 | the first candidate is `YYYYMMDD_<name>_0001.txt` |
| SaveFilename.CandidateIncrement | Sweeper/file_save_system.py:44-46 | reading `file_name[-8:-4]` back and adding 1 gives the next increment, except after 10000 whose four last digits read 0000 |
| SaveFilename.CandidatesDistinct | Sweeper/file_save_system.py:41-46 | distinct increments below 10000 give distinct candidate names |
| Text.DigitChar | Sweeper/file_save_system.py:25 | a digit below 10 is the character whose code is '0' plus that digit |
| Text.NatToString | Sweeper/file_save_system.py:25 | `str(n)` of a natural number is a non-empty run of digits with no leading zero |
| Text.IntToString | Sweeper/Sweeper2D_KS2201A.py:195-203 | `str(i)` is the digits of `i`, after a '-' when `i` is negative |
| Text.ParseDigitsOfNatToString | Sweeper/file_save_system.py:25-45 | `int(str(n)) == n` |
| Text.ZeroPad | Sweeper/file_save_system.py:26-41 | `"{:0w}".format(n)` is all digits and `w` long unless `str(n)` is longer |
| Text.ParseDigitsOfZeroPad | Sweeper/file_save_system.py:41-45 | `int` of the zero-padded digits of `n` is `n` |
| Text.Split | Sweeper/firmware_manager.py:107 | `str.split(sep)` gives at least one part and no part holds the separator |
| Text.JoinSplit | Sweeper/firmware_manager.py:107-122 | `sep.join(s.split(sep)) == s` |
| Text.SplitJoin | Sweeper/Sweeper2D_KS2201A.py:191-196 | splitting the join of at least one part free of the separator gives the parts back |
| Text.SplitNoSeparator | Sweeper/Sweeper2D_KS2201A.py:191-192 | a string without the separator splits into itself alone |
| Text.SplitAtSeparator | Sweeper/Sweeper2D_KS2201A.py:191-192 | a leading separator gives an empty first part before the parts of the rest |
| Text.SplitAfterPrefix | Sweeper/Sweeper2D_KS2201A.py:191-192 | a prefix free of the separator joins the first part of the rest |
| Text.DropLast | Sweeper/Sweeper2D_KS2201A.py:1249 | `s[:-k]` is `s` without its last `k` characters, or empty when `s` is shorter or `k` is 0 |
| Text.TakeLast | Sweeper/Sweeper2D_KS2201A.py:1249 | `s[-k:]` is the last `k` characters of `s`, or all of `s` when it is shorter or `k` is 0 |
| Text.Upper | Sweeper/firmware_manager.py:57 | `str.upper()` on ASCII: the same length, lower-case letters raised and everything else kept |
| Text.StrLeTotal | Sweeper/firmware_manager.py:57 | any two strings are ordered one way or the other |
| Text.StrLeTransitive | Sweeper/firmware_manager.py:57 | the string order is transitive |
| Text.StrLeAntisymmetric | Sweeper/firmware_manager.py:57 | strings ordered both ways are equal |

## Left out

- Hardware and driver I/O is not modelled: opening modules, configuring and loading the AWGs and the digitizer, waveforms, channel reads, the register reads and writes themselves, and running, stopping and releasing the HVI. These are foreign calls with no visible semantics. The digitizer is a trace of polls, and a bank register write is a map update.
- The kthvi system definition, compilation and sequence export are not modelled, nor are the real tick costs of instructions. Only the start delays and the time-matching flag passed to the library are recorded.
- The float-stepping loop inside `sweep_voltage_register` is not modelled, because it is floating-point arithmetic over hardware writes. `VgRegisters.SweepVoltageRegister` keeps only its contract: a slew rate in [0.1, 1] and a final write of the target code.
- Floating-point rounding is not modelled. Floats are exact reals, so the 0.3 s log interval of `measure_data` and the voltage conversions are exact. The averaged data values, the `linspace` axes and the plots are left out.
- MeasureDiagram.DiagramRuns: does not model a `num_cycles` of zero or less in live averaging, where numpy already fails on the empty or negative-sized running sum; the reshape error is modelled on the channel count only. The averaged values themselves are not modelled, only the file they are written to.
- The quantum-dot emulator firmware and the Python simulators are FPGA physics and are not part of this model.
- `sweeper_1d` and the 1D register helpers are not part of this model. The 1D sweep is an opaque `State -> State` transformer that keeps the 2D counters.
- The HVI loops run with a `fuel` bound. A loop that would not end is reported as running out of fuel rather than as divergence.
- The lock-step synchronisation of engines on the device is not modelled. A sync block runs its engines' sequences one after another, and each engine writes only its own registers.
- The logging calls, the prints and the drawing of the live plots are output only and are left out. The one effect of live averaging on the result, the reshape ValueError for data of other than one channel, is modelled. The message text of warnings and errors is not modelled either: warnings are a kind plus integer values, and errors are datatype values.
- YAML parsing and dumping are library calls and are not modelled. `from_yaml` receives the descriptors as entries in file order, and `save_database` receives the dumped text.
- `vg_module_descriptor_list` of `from_yaml` (Sweeper/Sweeper2D_KS2201A.py:184) is not modelled. It holds the accepted AWG descriptors with `card_num_VG > 0`, sorted by `card_num_VG`, and `update_vg_registers` (Sweeper/KS2201A_lib.py:1219) visits the modules in that order. `VgRegisters` takes the module order as given.
- The assignments of config fields that `from_yaml` copies from the file are not modelled.
- `load_database` is not modelled: it is a YAML load followed by `add_new_fw` calls.
- The rest of `save_database` is not modelled: the grouping of rows by name before the dump, the `input()` overwrite prompt and the file write. Only the line post-processing is modelled.
- When `check_overwrite` holds and the file does not exist, the source reaches `user_input` unbound. This is not modelled, because it lies in the prompt logic.
- The module-probing functions of `firmware_manager.py` talk to hardware and are not modelled.
- FirmwareDb.ListRepr: quotes every version as `'v'`. It does not model Python's `repr` escaping of versions that contain quotes or backslashes.
- FirmwareDb.TrackerString: does not model the unpacking error of an empty version list in `__str__`, because add_new_fw never creates one.
- FirmwareDb.SortBy: does not state stability. Only sortedness and permutation are proved, which is all the callers rely on.
- FirmwareDb.AddKeepsOthers: does not say which error a pair that is still missing reports: only that it is still missing.
- SaveFilename.CreateDateFolders: does not add the database folder or its own missing ancestors, which `os.makedirs` also creates on a first run. Which strings name those directories depends on path normalisation (a trailing '/' or an empty database path).
- SaveFilename.PathJoin: models POSIX `os.path.join` only, not the Windows path rules.
- Text-mode newline translation of the files read and written is not modelled.
- SaveFilename.CreateSaveFilename: requires that some increment 1..10000 is free. Otherwise the source loops forever, because 10000 reads back as 0000 and the search restarts at 1.
- Acquisition.Valid: requires a non-negative number of points per cycle. A negative one makes numpy raise, in `np.repeat` or `np.linspace` before the loop without averaging and in the `reshape` of the first read with averaging; neither error is modelled.
- Acquisition.MeasureData: does not model the file writes of measure_data: the header written when `save_data` (Sweeper/Sweeper2D_KS2201A.py:791-793), the rows from `saved_data_index` to `smallest_array_size` appended on each pass (926-930), and the final append inside the `for i, ch` loop (952-962), which runs once per channel and even when `save_data` is False, on a file then never created with its header. Only the `saved_data_index` bookkeeping is modelled, by `SaveProgress`.
- Acquisition.Ingest: assumes that `DAQread` returns exactly `ready_pts` points. The source anticipates a short read in its `except` clause (Sweeper/Sweeper2D_KS2201A.py:871-873). Without averaging, such a read fails at the slice assignment and the error is re-raised. With averaging, it leaves fewer points in the buffer than `readPoints` counts. Neither path is modelled.
- Text.Upper: maps ASCII letters only. Python's `str.upper` also maps non-ASCII letters (é to É, ß to SS), so `__str__` of the tracker may order names with non-ASCII letters differently from the model.
- YamlConfig.FromYaml: models the descriptor checks of from_yaml only (Sweeper/Sweeper2D_KS2201A.py:88-150). It does not model what follows them: the `cls(...)` construction (153), the two auto-fixing checks `verify_sweep_parameters_1d/2d(config, auto_fix=True)` (155-158), which can still raise after the descriptor checks pass (the ValueError of Sweeper/KS2201A_lib.py:772-773 among them), and the `third_awg_engine_name` and `fourth_awg_engine_name` it records (123-126, 169-170). The two checks are modelled on their own, as `SweepValidation.SweepConfig.VerifySweepParameters1d` and `VerifySweepParameters2d`.
- YamlConfig.FromYaml: the entries stand for the loaded YAML mapping, so each key is meant to occur once. A file that repeats a key, which PyYAML resolves to the last value, is not modelled: `Lookup` takes the first. `LookupDistinctKeys` shows that for distinct keys the choice makes no difference.
- HVI registers hold unbounded integers, so the 32-bit wrap-around of the device's registers is not modelled. `Sweep2d.InnerLoopRuns` and `Sweep2d.InnerLoopHangs` rely on this: on the device a counter that runs past its range wraps instead of growing without end.
- Numerics.RoundHalfEven: is Python's `round` on an exact real. It does not model rounding of the binary float.

## Findings

| source | as written | input that shows it | evidently intended | confidence | as-written member | corrected member |
|---|---|---|---|---|---|---|
| Sweeper/KS2201A_lib.py:821-825 | the 2D check counts increments from `vi_2d_internal` to `vf_2d`, not `vf_2d_internal` | vi_2d = 0, vf_2d = 10, dV = 1, 4 points: accepted unchanged, though the program's counters give 6 points | both endpoints halved, the voltages the 2D program ramps between | not executed | SweepValidation.Verify2dEndpointMismatch | SweepValidation.Verify2dOnInternalVoltages |
| Sweeper/Sweeper2D_KS2201A.py:540-545 | the emulator stop `reg_HLS_start = 0` is appended to `dig_sequence`, still the digitizer sequence of the "Step voltage 2D" block | emulator on real hardware, step counter 1 or more: the first 2D step stops the emulator | the stop runs once, at the end of the sequence | not executed | Sweep2d.QdStoppedAfterFirstStep | Sweep2d.Sweeper2dFixedRuns |
| Sweeper/Sweeper2D_KS2201A.py:191-196 | the value token replaced is the last token of `key: value\n` and carries the newline | the line `verified_num_steps_1d: 100\n` becomes `verified_num_steps_1d: 7` and runs into the next line | the newline is kept | not executed | YamlRewrite.ReplaceValueDropsNewline | YamlRewrite.KeepingNewlineKeepsLine |
| Sweeper/Sweeper2D_KS2201A.py:187-209 | the file, opened `r+`, is written from offset 0 without truncating | the one-line file `verified_num_steps_1d: 100\n` rewritten to 7 steps reads `verified_num_steps_1d: 700\n` | the file is truncated after the write | not executed | YamlRewrite.ShorterCountKeepsOldDigits | YamlRewrite.RewriteFileFixedReadsBack |
| Sweeper/firmware_manager.py:71-77 | the duplicate loop unpacks rows as (name, model, version, uuid, path, registers, description), while rows are stored as (name, description, model, version, uuid, path, registers) | adding two Firmware objects with the same fields: the second is not seen as a duplicate, its row is stored, and sorting the tied versions raises TypeError | a firmware with the same name, model, version, uuid and path is skipped | not executed | FirmwareDb.AsWrittenReaddRaises | FirmwareDb.IntendedReaddSkipped |
