/**
 * sweeper_2d: the synchronised HVI sequence around the 1D sweep. The
 * secondary AWG first ramps the 2D voltage to its start value; the 1D sweep
 * runs once; then an outer loop, while the AWG loop counter is below the
 * ramp counter, resets the digitizer's loop counter, steps the 2D voltage
 * until that counter reaches the step counter, adding 1 to both counters at
 * each step, and runs the 1D sweep again. A last block resets the AWG loop
 * counter.
 *
 * The ramp sequences the builder obtains from program_step_to_target_voltage
 * and the labels it obtains from the label cache are inputs here; the 1D
 * sweep is an opaque state transformer `sweep1d`.
 */
module Sweep2d {
  import opened Wrappers
  import opened Numerics
  import opened HviProgram
  import opened RampStep

  /** One engine's instructions inside a synchronised block. */
  datatype EngineSeq = EngineSeq(engine: string, instrs: seq<Instr>)

  /** A statement of the synchronised sequence. */
  datatype SyncStmt =
    | SyncWhile(name: string, start: int, engine: string, cond: Condition, body: seq<SyncStmt>)
    | SyncBlock(name: string, start: int, sequences: seq<EngineSeq>)
    | Sweep1d

  /** The engines and the registers of the 2D sweep. */
  datatype Registers2d = Registers2d(
    secondary: string, dig: string,
    voltage: string, vi: string, awgLoopCounter: string, rampCounter: string,
    loopCounter: string, stepCounter: string)

  /** The labels the builder asks the cache for, in their order in the sequence. */
  datatype Labels2d = Labels2d(
    whileVi: string, goToVi: string, whileOuter: string, loop2d: string, resetLoop: string,
    whileInner: string, stepBlock: string, incAwg: string, incLoop: string,
    resetBlock: string, resetAwg: string)

  /** The instructions of the 2D sweep that are not ramps. */
  datatype Parts2d = Parts2d(
    labels: Labels2d, regs: Registers2d,
    goToVi: seq<Instr>, goOthers: seq<EngineSeq>,
    stepToVf: seq<Instr>, stepOthers: seq<EngineSeq>,
    qdStop: Option<string>)

  /** The emulator stop, `reg_HLS_start = 0` in the emulator's memory map. */
  function QdStopInstrs(qdStop: Option<string>): seq<Instr>
  {
    match qdStop
    case None => []
    case Some(mm) => [FpgaArrayWrite("Write reg_HLS_start = 0", 30, mm, 0, Const(0))]
  }

  /** The `qdStop` memory map is only used when the emulator runs on real hardware. */
  function QdStopFor(useQdEmulator: bool, hardwareSimulated: bool, memoryMap: string): Option<string>
  {
    if useQdEmulator && !hardwareSimulated then Some(memoryMap) else None
  }

  function GoToViWhile(p: Parts2d): SyncStmt
  {
    var r := p.regs;
    SyncWhile(p.labels.whileVi, 320, r.secondary, Compare(Reg(r.voltage), NotEqualTo, Reg(r.vi)),
      [SyncBlock(p.labels.goToVi, 260, [EngineSeq(r.secondary, p.goToVi)] + p.goOthers)])
  }

  /** "Loop 2D": the digitizer's loop counter back to 0. */
  function ResetLoopSeqs(p: Parts2d): seq<EngineSeq>
  {
    [EngineSeq(p.regs.dig, [Assign(p.labels.resetLoop, 10, p.regs.loopCounter, Const(0))])]
  }

  /**
   * "Step voltage 2D": one dV step toward Vf 2D on the secondary AWG, then
   * `AWG loop counter 2D += 1`; `Loop Counter 2D += 1` on the digitizer,
   * followed by the emulator stop, which the builder appends to this block.
   */
  function StepSeqs(p: Parts2d): seq<EngineSeq>
  {
    var r := p.regs;
    [EngineSeq(r.secondary, p.stepToVf + [Add(p.labels.incAwg, 10, r.awgLoopCounter, Reg(r.awgLoopCounter), Const(1))]),
     EngineSeq(r.dig, [Add(p.labels.incLoop, 200, r.loopCounter, Reg(r.loopCounter), Const(1))] + QdStopInstrs(p.qdStop))]
    + p.stepOthers
  }

  function InnerWhile(p: Parts2d, steps: seq<EngineSeq>): SyncStmt
  {
    var r := p.regs;
    SyncWhile(p.labels.whileInner, 90, r.dig, Compare(Reg(r.loopCounter), NotEqualTo, Reg(r.stepCounter)),
      [SyncBlock(p.labels.stepBlock, 260, steps)])
  }

  function OuterWhile(p: Parts2d, steps: seq<EngineSeq>): SyncStmt
  {
    var r := p.regs;
    SyncWhile(p.labels.whileOuter, 320, r.secondary, Compare(Reg(r.awgLoopCounter), LessThan, Reg(r.rampCounter)),
      [SyncBlock(p.labels.loop2d, 510, ResetLoopSeqs(p)), InnerWhile(p, steps), Sweep1d])
  }

  function ResetAwgSeqs(p: Parts2d): seq<EngineSeq>
  {
    [EngineSeq(p.regs.secondary, [Assign(p.labels.resetAwg, 10, p.regs.awgLoopCounter, Const(0))])]
  }

  /** The sequence sweeper_2d builds. */
  function Sweeper2dProgram(p: Parts2d): seq<SyncStmt>
  {
    [GoToViWhile(p), Sweep1d, OuterWhile(p, StepSeqs(p)), SyncBlock(p.labels.resetBlock, 510, ResetAwgSeqs(p))]
  }

  /**
   * The builder's own order: the top-level sequence grows one statement at a
   * time, and the emulator stop is appended last to `digSequence`, which
   * still names the digitizer's sequence of the "Step voltage 2D" block.
   */
  method BuildSweeper2d(p: Parts2d) returns (top: seq<SyncStmt>)
    ensures top == Sweeper2dProgram(p)
    ensures |top| == 4 && top[1] == Sweep1d && top[2].SyncWhile? && top[2].body[2] == Sweep1d
  {
    var r := p.regs;
    top := [];
    top := top + [GoToViWhile(p)];
    top := top + [Sweep1d];
    var secondarySequence := p.stepToVf;
    secondarySequence := secondarySequence + [Add(p.labels.incAwg, 10, r.awgLoopCounter, Reg(r.awgLoopCounter), Const(1))];
    var digSequence := [Add(p.labels.incLoop, 200, r.loopCounter, Reg(r.loopCounter), Const(1))];
    var resetBlock := SyncBlock(p.labels.resetBlock, 510, ResetAwgSeqs(p));
    digSequence := digSequence + QdStopInstrs(p.qdStop);
    var steps := [EngineSeq(r.secondary, secondarySequence), EngineSeq(r.dig, digSequence)] + p.stepOthers;
    top := top + [OuterWhile(p, steps)];
    top := top + [resetBlock];
  }

  // ---------------------------------------------------------------------
  // Semantics. A sync block runs every engine's sequence; each engine only
  // changes its own registers and outputs, so the order of the engines does
  // not matter. `fuel` bounds the iterations of every loop; running out of
  // it (a loop that would not end) gives None.

  function RunBlock(seqs: seq<EngineSeq>, s: State): State
    decreases |seqs|
  {
    if seqs == [] then s else RunBlock(seqs[1..], ExecSeq(seqs[0].engine, seqs[0].instrs, s))
  }

  function RunStmt(fuel: nat, st: SyncStmt, sweep1d: State -> State, s: State): Option<State>
    decreases fuel, st
  {
    match st
    case SyncBlock(_, _, seqs) => Some(RunBlock(seqs, s))
    case Sweep1d => Some(sweep1d(s))
    case SyncWhile(_, _, e, c, body) =>
      if !Holds(s, e, c) then Some(s)
      else if fuel == 0 then None
      else
        match RunStmts(fuel, body, sweep1d, s)
        case None => None
        case Some(t) => RunStmt(fuel - 1, st, sweep1d, t)
  }

  function RunStmts(fuel: nat, p: seq<SyncStmt>, sweep1d: State -> State, s: State): Option<State>
    decreases fuel, p
  {
    if p == [] then Some(s)
    else
      match RunStmt(fuel, p[0], sweep1d, s)
      case None => None
      case Some(t) => RunStmts(fuel, p[1..], sweep1d, t)
  }

  /** A ramp built by program_step_to_target_voltage keeps every register other than its three working ones. */
  lemma RampKeepsRegister(labels: seq<string>, sp: StepParams, x: string)
    requires |labels| == LabelCount(sp.tail)
    requires x != sp.regs.sweepDirection && x != sp.regs.negCounter && x != sp.current
    ensures x !in Writes(RampInstrs(labels, sp))
  {
    RampWrites(labels, sp);
  }

  /** `n` runs of a block, one after the other. */
  function RepeatBlock(n: nat, seqs: seq<EngineSeq>, s: State): State
    decreases n
  {
    if n == 0 then s else RepeatBlock(n - 1, seqs, RunBlock(seqs, s))
  }

  /**
   * One outer iteration whose step counter holds `n`: the loop counter is
   * reset, the step block runs `n` times and the 1D sweep follows.
   */
  function OuterIteration(p: Parts2d, sweep1d: State -> State, n: nat, s: State): State
  {
    sweep1d(RepeatBlock(n, StepSeqs(p), RunBlock(ResetLoopSeqs(p), s)))
  }

  function RepeatOuter(k: nat, p: Parts2d, sweep1d: State -> State, n: nat, s: State): State
    decreases k
  {
    if k == 0 then s else RepeatOuter(k - 1, p, sweep1d, n, OuterIteration(p, sweep1d, n, s))
  }

  /** The outer iterations from an AWG loop counter `a` with ramp counter `ramp` and `step` steps per iteration. */
  function Iterations(a: int, ramp: int, step: int): nat
    requires step >= 1
    decreases ramp - a
  {
    if a >= ramp then 0 else 1 + Iterations(a + step, ramp, step)
  }

  // ---------------------------------------------------------------------
  // Frames.

  /** No sequence of the block runs on engine `e` and assigns its register `x`. */
  predicate Keeps(seqs: seq<EngineSeq>, e: string, x: string)
  {
    forall k :: 0 <= k < |seqs| ==> seqs[k].engine != e || x !in Writes(seqs[k].instrs)
  }

  /** The sequences run on engines other than `a` and `b`. */
  predicate Elsewhere(seqs: seq<EngineSeq>, a: string, b: string)
  {
    forall k :: 0 <= k < |seqs| ==> seqs[k].engine != a && seqs[k].engine != b
  }

  /**
   * What the 2D skeleton relies on: two engines, distinct counter registers,
   * ramps on the secondary AWG that keep the AWG loop and ramp counters, and
   * the other modules' ramps on other engines.
   */
  predicate Frame2d(p: Parts2d)
  {
    var r := p.regs;
    && r.secondary != r.dig
    && r.awgLoopCounter != r.rampCounter && r.loopCounter != r.stepCounter
    && r.awgLoopCounter !in Writes(p.stepToVf) && r.rampCounter !in Writes(p.stepToVf)
    && r.awgLoopCounter !in Writes(p.goToVi) && r.rampCounter !in Writes(p.goToVi)
    && Elsewhere(p.stepOthers, r.secondary, r.dig)
    && Elsewhere(p.goOthers, r.secondary, r.dig)
  }

  /** The 1D sweep keeps the AWG loop counter, the ramp counter and the step counter of the 2D sweep. */
  ghost predicate Sweep1dKeeps(sweep1d: State -> State, r: Registers2d)
  {
    forall s: State ::
      && Get(sweep1d(s), r.secondary, r.awgLoopCounter) == Get(s, r.secondary, r.awgLoopCounter)
      && Get(sweep1d(s), r.secondary, r.rampCounter) == Get(s, r.secondary, r.rampCounter)
      && Get(sweep1d(s), r.dig, r.stepCounter) == Get(s, r.dig, r.stepCounter)
  }

  lemma {:induction false} RunBlockFrame(seqs: seq<EngineSeq>, s: State, e: string, x: string)
    requires Keeps(seqs, e, x)
    ensures Get(RunBlock(seqs, s), e, x) == Get(s, e, x)
    decreases |seqs|
  {
    if seqs != [] {
      ExecSeqFrame(seqs[0].engine, seqs[0].instrs, s, e, x);
      assert Keeps(seqs[1..], e, x) by {
        forall k | 0 <= k < |seqs[1..]| ensures seqs[1..][k] == seqs[k + 1] { }
      }
      RunBlockFrame(seqs[1..], ExecSeq(seqs[0].engine, seqs[0].instrs, s), e, x);
    }
  }

  lemma ElsewhereKeeps(seqs: seq<EngineSeq>, a: string, b: string, x: string)
    requires Elsewhere(seqs, a, b)
    ensures Keeps(seqs, a, x) && Keeps(seqs, b, x)
  {
  }

  /** Two engine sequences, then the rest of the block. */
  lemma RunBlockTwo(a: EngineSeq, b: EngineSeq, rest: seq<EngineSeq>, s: State)
    ensures RunBlock([a, b] + rest, s)
      == RunBlock(rest, ExecSeq(b.engine, b.instrs, ExecSeq(a.engine, a.instrs, s)))
  {
    var seqs := [a, b] + rest;
    assert seqs[0] == a && seqs[1..] == [b] + rest;
    assert ([b] + rest)[0] == b && ([b] + rest)[1..] == rest;
  }

  lemma RunBlockOne(a: EngineSeq, s: State)
    ensures RunBlock([a], s) == ExecSeq(a.engine, a.instrs, s)
  {
    assert [a][1..] == [];
  }

  lemma QdStopWrites(qdStop: Option<string>)
    ensures Writes(QdStopInstrs(qdStop)) == {}
  {
    WritesOfTail(QdStopInstrs(qdStop));
  }

  // ---------------------------------------------------------------------
  // The blocks.

  /** "Loop 2D" sets the loop counter to 0 and keeps the other counters. */
  lemma ResetLoopEffect(p: Parts2d, s: State)
    requires Frame2d(p)
    ensures var t := RunBlock(ResetLoopSeqs(p), s);
      var r := p.regs;
      && Get(t, r.dig, r.loopCounter) == 0
      && Get(t, r.dig, r.stepCounter) == Get(s, r.dig, r.stepCounter)
      && Get(t, r.secondary, r.awgLoopCounter) == Get(s, r.secondary, r.awgLoopCounter)
      && Get(t, r.secondary, r.rampCounter) == Get(s, r.secondary, r.rampCounter)
  {
    var a := ResetLoopSeqs(p)[0];
    RunBlockOne(a, s);
    ExecSeqSingle(a.engine, a.instrs[0], s);
  }

  /** "Step voltage 2D" adds 1 to both loop counters and keeps the step and ramp counters. */
  lemma StepEffect(p: Parts2d, s: State)
    requires Frame2d(p)
    ensures var t := RunBlock(StepSeqs(p), s);
      var r := p.regs;
      && Get(t, r.dig, r.loopCounter) == Get(s, r.dig, r.loopCounter) + 1
      && Get(t, r.dig, r.stepCounter) == Get(s, r.dig, r.stepCounter)
      && Get(t, r.secondary, r.awgLoopCounter) == Get(s, r.secondary, r.awgLoopCounter) + 1
      && Get(t, r.secondary, r.rampCounter) == Get(s, r.secondary, r.rampCounter)
  {
    var r := p.regs;
    var inc := Add(p.labels.incAwg, 10, r.awgLoopCounter, Reg(r.awgLoopCounter), Const(1));
    var incLoop := Add(p.labels.incLoop, 200, r.loopCounter, Reg(r.loopCounter), Const(1));
    var a := EngineSeq(r.secondary, p.stepToVf + [inc]);
    var b := EngineSeq(r.dig, [incLoop] + QdStopInstrs(p.qdStop));
    RunBlockTwo(a, b, p.stepOthers, s);
    // the secondary AWG: the ramp, then the AWG loop counter increment
    ExecSeqAppend(r.secondary, p.stepToVf, [inc], s);
    var s0 := ExecSeq(r.secondary, p.stepToVf, s);
    ExecSeqFrame(r.secondary, p.stepToVf, s, r.secondary, r.awgLoopCounter);
    ExecSeqFrame(r.secondary, p.stepToVf, s, r.secondary, r.rampCounter);
    ExecSeqFrame(r.secondary, p.stepToVf, s, r.dig, r.loopCounter);
    ExecSeqFrame(r.secondary, p.stepToVf, s, r.dig, r.stepCounter);
    ExecSeqSingle(r.secondary, inc, s0);
    var s1 := ExecSeq(r.secondary, a.instrs, s);
    // the digitizer: the loop counter increment, then the emulator stop
    ExecSeqCons(r.dig, incLoop, QdStopInstrs(p.qdStop), s1);
    var s2 := ExecInstr(r.dig, incLoop, s1);
    QdStopWrites(p.qdStop);
    ExecSeqFrame(r.dig, QdStopInstrs(p.qdStop), s2, r.dig, r.loopCounter);
    ExecSeqFrame(r.dig, QdStopInstrs(p.qdStop), s2, r.dig, r.stepCounter);
    ExecSeqFrame(r.dig, QdStopInstrs(p.qdStop), s2, r.secondary, r.awgLoopCounter);
    ExecSeqFrame(r.dig, QdStopInstrs(p.qdStop), s2, r.secondary, r.rampCounter);
    var s3 := ExecSeq(r.dig, b.instrs, s1);
    // the other modules' ramps run on other engines
    ElsewhereKeeps(p.stepOthers, r.secondary, r.dig, r.awgLoopCounter);
    ElsewhereKeeps(p.stepOthers, r.secondary, r.dig, r.rampCounter);
    ElsewhereKeeps(p.stepOthers, r.secondary, r.dig, r.loopCounter);
    ElsewhereKeeps(p.stepOthers, r.secondary, r.dig, r.stepCounter);
    RunBlockFrame(p.stepOthers, s3, r.secondary, r.awgLoopCounter);
    RunBlockFrame(p.stepOthers, s3, r.secondary, r.rampCounter);
    RunBlockFrame(p.stepOthers, s3, r.dig, r.loopCounter);
    RunBlockFrame(p.stepOthers, s3, r.dig, r.stepCounter);
  }

  /** `n` step blocks add `n` to both loop counters. */
  lemma {:induction false} RepeatStepEffect(n: nat, p: Parts2d, s: State)
    requires Frame2d(p)
    ensures var t := RepeatBlock(n, StepSeqs(p), s);
      var r := p.regs;
      && Get(t, r.dig, r.loopCounter) == Get(s, r.dig, r.loopCounter) + n
      && Get(t, r.dig, r.stepCounter) == Get(s, r.dig, r.stepCounter)
      && Get(t, r.secondary, r.awgLoopCounter) == Get(s, r.secondary, r.awgLoopCounter) + n
      && Get(t, r.secondary, r.rampCounter) == Get(s, r.secondary, r.rampCounter)
    decreases n
  {
    if n > 0 {
      StepEffect(p, s);
      RepeatStepEffect(n - 1, p, RunBlock(StepSeqs(p), s));
    }
  }

  // ---------------------------------------------------------------------
  // The inner loop.

  lemma SingleBody(fuel: nat, st: SyncStmt, sweep1d: State -> State, s: State)
    requires st.SyncBlock?
    ensures RunStmts(fuel, [st], sweep1d, s) == Some(RunBlock(st.sequences, s))
  {
    assert [st][1..] == [];
  }

  /**
   * From a loop counter `lc` up to the step counter, the inner loop runs the
   * step block exactly `step - lc` times and stops with the loop counter at
   * the step counter.
   */
  lemma {:induction false} InnerLoopRuns(fuel: nat, p: Parts2d, sweep1d: State -> State, s: State)
    requires Frame2d(p)
    requires 0 <= Get(s, p.regs.dig, p.regs.loopCounter) <= Get(s, p.regs.dig, p.regs.stepCounter)
    requires fuel >= Get(s, p.regs.dig, p.regs.stepCounter) - Get(s, p.regs.dig, p.regs.loopCounter)
    ensures var n := Get(s, p.regs.dig, p.regs.stepCounter) - Get(s, p.regs.dig, p.regs.loopCounter);
      RunStmt(fuel, InnerWhile(p, StepSeqs(p)), sweep1d, s) == Some(RepeatBlock(n, StepSeqs(p), s))
    decreases Get(s, p.regs.dig, p.regs.stepCounter) - Get(s, p.regs.dig, p.regs.loopCounter)
  {
    var r := p.regs;
    var w := InnerWhile(p, StepSeqs(p));
    if Get(s, r.dig, r.loopCounter) != Get(s, r.dig, r.stepCounter) {
      var t := RunBlock(StepSeqs(p), s);
      SingleBody(fuel, w.body[0], sweep1d, s);
      StepEffect(p, s);
      InnerLoopRuns(fuel - 1, p, sweep1d, t);
    }
  }

  /** With a negative step counter the inner loop, counting up from 0, never ends. */
  lemma {:induction false} InnerLoopHangs(fuel: nat, p: Parts2d, sweep1d: State -> State, s: State)
    requires Frame2d(p)
    requires Get(s, p.regs.dig, p.regs.stepCounter) < 0 <= Get(s, p.regs.dig, p.regs.loopCounter)
    ensures RunStmt(fuel, InnerWhile(p, StepSeqs(p)), sweep1d, s) == None
    decreases fuel
  {
    var w := InnerWhile(p, StepSeqs(p));
    if fuel > 0 {
      SingleBody(fuel, w.body[0], sweep1d, s);
      StepEffect(p, s);
      InnerLoopHangs(fuel - 1, p, sweep1d, RunBlock(StepSeqs(p), s));
    }
  }

  // ---------------------------------------------------------------------
  // The outer loop.

  lemma RunThree(fuel: nat, a: SyncStmt, b: SyncStmt, c: SyncStmt, sweep1d: State -> State,
                 s: State, s1: State, s2: State)
    requires RunStmt(fuel, a, sweep1d, s) == Some(s1) && RunStmt(fuel, b, sweep1d, s1) == Some(s2)
    ensures RunStmts(fuel, [a, b, c], sweep1d, s) == RunStmt(fuel, c, sweep1d, s2)
  {
    assert [a, b, c][1..] == [b, c];
    assert [b, c][1..] == [c];
    assert [c][1..] == [];
    assert RunStmts(fuel, [a, b, c], sweep1d, s) == RunStmts(fuel, [b, c], sweep1d, s1);
    assert RunStmts(fuel, [b, c], sweep1d, s1) == RunStmts(fuel, [c], sweep1d, s2);
    match RunStmt(fuel, c, sweep1d, s2)
    case None =>
    case Some(t) => assert RunStmts(fuel, [c], sweep1d, s2) == RunStmts(fuel, [], sweep1d, t);
  }

  /** The number of outer iterations is the ramp distance divided by the step counter, rounded up. */
  lemma {:induction false} IterationsBounds(a: int, ramp: int, step: int)
    requires step >= 1
    ensures var k := Iterations(a, ramp, step);
      && (a >= ramp ==> k == 0)
      && (a < ramp ==> k >= 1 && a + (k - 1) * step < ramp <= a + k * step)
    decreases ramp - a
  {
    if a < ramp {
      IterationsBounds(a + step, ramp, step);
      var k := Iterations(a + step, ramp, step);
      assert a + step + k * step == a + (k + 1) * step;
      if k >= 1 {
        assert a + step + (k - 1) * step == a + k * step;
      }
    }
  }

  lemma IterationsIsCeiling(a: int, ramp: int, step: int)
    requires step >= 1 && a < ramp
    ensures Iterations(a, ramp, step) == CeilDiv(ramp - a, step)
  {
    IterationsBounds(a, ramp, step);
    var k := Iterations(a, ramp, step);
    var c := CeilDiv(ramp - a, step);
    if k < c {
      MulMonotone(k, c - 1, step);
    } else if k > c {
      MulMonotone(c, k - 1, step);
    }
  }

  lemma MulMonotone(x: int, y: int, m: int)
    requires x <= y && m >= 1
    ensures x * m <= y * m
  {
    assert y * m - x * m == (y - x) * m;
  }

  /** One outer iteration keeps the ramp and step counters and adds the step counter to the AWG loop counter. */
  lemma OuterIterationEffect(p: Parts2d, sweep1d: State -> State, s: State)
    requires Frame2d(p) && Sweep1dKeeps(sweep1d, p.regs)
    requires Get(s, p.regs.dig, p.regs.stepCounter) >= 0
    ensures var r := p.regs;
      var n := Get(s, r.dig, r.stepCounter);
      var t := OuterIteration(p, sweep1d, n, s);
      && Get(t, r.dig, r.stepCounter) == n
      && Get(t, r.secondary, r.awgLoopCounter) == Get(s, r.secondary, r.awgLoopCounter) + n
      && Get(t, r.secondary, r.rampCounter) == Get(s, r.secondary, r.rampCounter)
  {
    var r := p.regs;
    var s1 := RunBlock(ResetLoopSeqs(p), s);
    ResetLoopEffect(p, s);
    RepeatStepEffect(Get(s, r.dig, r.stepCounter), p, s1);
  }

  /**
   * From AWG loop counter `a` with ramp counter `R` and step counter `n >= 1`,
   * the outer loop runs Iterations(a, R, n) iterations, each resetting the
   * loop counter, stepping `n` times and running the 1D sweep, and stops.
   */
  lemma {:induction false} OuterLoopRuns(fuel: nat, p: Parts2d, sweep1d: State -> State, s: State)
    requires Frame2d(p) && Sweep1dKeeps(sweep1d, p.regs)
    requires Get(s, p.regs.dig, p.regs.stepCounter) >= 1
    requires fuel >= Iterations(Get(s, p.regs.secondary, p.regs.awgLoopCounter),
                                Get(s, p.regs.secondary, p.regs.rampCounter),
                                Get(s, p.regs.dig, p.regs.stepCounter))
                     + Get(s, p.regs.dig, p.regs.stepCounter)
    ensures var r := p.regs;
      var n := Get(s, r.dig, r.stepCounter);
      var k := Iterations(Get(s, r.secondary, r.awgLoopCounter), Get(s, r.secondary, r.rampCounter), n);
      RunStmt(fuel, OuterWhile(p, StepSeqs(p)), sweep1d, s) == Some(RepeatOuter(k, p, sweep1d, n, s))
    decreases Get(s, p.regs.secondary, p.regs.rampCounter) - Get(s, p.regs.secondary, p.regs.awgLoopCounter)
  {
    var r := p.regs;
    var n := Get(s, r.dig, r.stepCounter);
    var a := Get(s, r.secondary, r.awgLoopCounter);
    var ramp := Get(s, r.secondary, r.rampCounter);
    var w := OuterWhile(p, StepSeqs(p));
    if a < ramp {
      var s1 := RunBlock(ResetLoopSeqs(p), s);
      ResetLoopEffect(p, s);
      InnerLoopRuns(fuel, p, sweep1d, s1);
      var s2 := RepeatBlock(n, StepSeqs(p), s1);
      RunThree(fuel, w.body[0], w.body[1], w.body[2], sweep1d, s, s1, s2);
      var t := OuterIteration(p, sweep1d, n, s);
      OuterIterationEffect(p, sweep1d, s);
      OuterLoopRuns(fuel - 1, p, sweep1d, t);
    }
  }

  /** `k` outer iterations add `k` times the step counter to the AWG loop counter. */
  lemma {:induction false} RepeatOuterEffect(k: nat, p: Parts2d, sweep1d: State -> State, s: State)
    requires Frame2d(p) && Sweep1dKeeps(sweep1d, p.regs)
    requires Get(s, p.regs.dig, p.regs.stepCounter) >= 0
    ensures var r := p.regs;
      var n := Get(s, r.dig, r.stepCounter);
      var t := RepeatOuter(k, p, sweep1d, n, s);
      && Get(t, r.dig, r.stepCounter) == n
      && Get(t, r.secondary, r.awgLoopCounter) == Get(s, r.secondary, r.awgLoopCounter) + k * n
      && Get(t, r.secondary, r.rampCounter) == Get(s, r.secondary, r.rampCounter)
    decreases k
  {
    if k > 0 {
      var n := Get(s, p.regs.dig, p.regs.stepCounter);
      OuterIterationEffect(p, sweep1d, s);
      RepeatOuterEffect(k - 1, p, sweep1d, OuterIteration(p, sweep1d, n, s));
      assert n + (k - 1) * n == k * n;
    }
  }

  /**
   * With a step counter of 0 the inner loop ends at once, the AWG loop
   * counter never moves, and an outer loop that starts never ends.
   */
  lemma {:induction false} OuterLoopHangs(fuel: nat, p: Parts2d, sweep1d: State -> State, s: State)
    requires Frame2d(p) && Sweep1dKeeps(sweep1d, p.regs)
    requires Get(s, p.regs.dig, p.regs.stepCounter) == 0
    requires Get(s, p.regs.secondary, p.regs.awgLoopCounter) < Get(s, p.regs.secondary, p.regs.rampCounter)
    ensures RunStmt(fuel, OuterWhile(p, StepSeqs(p)), sweep1d, s) == None
    decreases fuel
  {
    var r := p.regs;
    var w := OuterWhile(p, StepSeqs(p));
    if fuel > 0 {
      var s1 := RunBlock(ResetLoopSeqs(p), s);
      ResetLoopEffect(p, s);
      InnerLoopRuns(fuel, p, sweep1d, s1);
      RunThree(fuel, w.body[0], w.body[1], w.body[2], sweep1d, s, s1, RepeatBlock(0, StepSeqs(p), s1));
      OuterIterationEffect(p, sweep1d, s);
      OuterLoopHangs(fuel - 1, p, sweep1d, OuterIteration(p, sweep1d, 0, s));
    }
  }

  // ---------------------------------------------------------------------
  // The whole sequence.

  lemma RunStmtsSome(fuel: nat, a: SyncStmt, rest: seq<SyncStmt>, sweep1d: State -> State, s: State, s1: State)
    requires RunStmt(fuel, a, sweep1d, s) == Some(s1)
    ensures RunStmts(fuel, [a] + rest, sweep1d, s) == RunStmts(fuel, rest, sweep1d, s1)
  {
    assert ([a] + rest)[0] == a && ([a] + rest)[1..] == rest;
  }

  /** The ramp to Vi 2D keeps the AWG loop, ramp and step counters, however many steps it takes. */
  lemma {:induction false} GoToViKeeps(fuel: nat, p: Parts2d, sweep1d: State -> State, s: State, t: State)
    requires Frame2d(p)
    requires RunStmt(fuel, GoToViWhile(p), sweep1d, s) == Some(t)
    ensures var r := p.regs;
      && Get(t, r.secondary, r.awgLoopCounter) == Get(s, r.secondary, r.awgLoopCounter)
      && Get(t, r.secondary, r.rampCounter) == Get(s, r.secondary, r.rampCounter)
      && Get(t, r.dig, r.stepCounter) == Get(s, r.dig, r.stepCounter)
    decreases fuel
  {
    var r := p.regs;
    var w := GoToViWhile(p);
    if Holds(s, r.secondary, w.cond) {
      var seqs := [EngineSeq(r.secondary, p.goToVi)] + p.goOthers;
      SingleBody(fuel, w.body[0], sweep1d, s);
      forall x | x == r.awgLoopCounter || x == r.rampCounter ensures Keeps(seqs, r.secondary, x) {
        forall k | 0 <= k < |seqs| ensures seqs[k].engine != r.secondary || x !in Writes(seqs[k].instrs) {
          if k > 0 { assert seqs[k] == p.goOthers[k - 1]; }
        }
      }
      assert Keeps(seqs, r.dig, r.stepCounter) by {
        forall k | 0 <= k < |seqs| ensures seqs[k].engine != r.dig {
          if k > 0 { assert seqs[k] == p.goOthers[k - 1]; }
        }
      }
      RunBlockFrame(seqs, s, r.secondary, r.awgLoopCounter);
      RunBlockFrame(seqs, s, r.secondary, r.rampCounter);
      RunBlockFrame(seqs, s, r.dig, r.stepCounter);
      GoToViKeeps(fuel - 1, p, sweep1d, RunBlock(seqs, s), t);
    }
  }

  /**
   * Once the ramp to Vi 2D has ended, the whole sequence ends too: after the
   * first 1D sweep the outer loop runs its Iterations(a, R, n) iterations and
   * the last block resets the AWG loop counter to 0.
   */
  lemma Sweeper2dRuns(fuel: nat, p: Parts2d, sweep1d: State -> State, s: State, t1: State)
    requires Frame2d(p) && Sweep1dKeeps(sweep1d, p.regs)
    requires RunStmt(fuel, GoToViWhile(p), sweep1d, s) == Some(t1)
    requires Get(s, p.regs.dig, p.regs.stepCounter) >= 1
    requires fuel >= Iterations(Get(s, p.regs.secondary, p.regs.awgLoopCounter),
                                Get(s, p.regs.secondary, p.regs.rampCounter),
                                Get(s, p.regs.dig, p.regs.stepCounter))
                     + Get(s, p.regs.dig, p.regs.stepCounter)
    ensures var r := p.regs;
      var n := Get(s, r.dig, r.stepCounter);
      var k := Iterations(Get(s, r.secondary, r.awgLoopCounter), Get(s, r.secondary, r.rampCounter), n);
      var run := RunStmts(fuel, Sweeper2dProgram(p), sweep1d, s);
      && run == Some(RunBlock(ResetAwgSeqs(p), RepeatOuter(k, p, sweep1d, n, sweep1d(t1))))
      && Get(run.value, r.secondary, r.awgLoopCounter) == 0
      && Get(run.value, r.secondary, r.rampCounter) == Get(s, r.secondary, r.rampCounter)
      && Get(run.value, r.dig, r.stepCounter) == n
  {
    var r := p.regs;
    var n := Get(s, r.dig, r.stepCounter);
    var k := Iterations(Get(s, r.secondary, r.awgLoopCounter), Get(s, r.secondary, r.rampCounter), n);
    GoToViKeeps(fuel, p, sweep1d, s, t1);
    var t2 := sweep1d(t1);
    var t3 := RepeatOuter(k, p, sweep1d, n, t2);
    OuterLoopRuns(fuel, p, sweep1d, t2);
    RepeatOuterEffect(k, p, sweep1d, t2);
    var last := SyncBlock(p.labels.resetBlock, 510, ResetAwgSeqs(p));
    var prog := Sweeper2dProgram(p);
    assert prog == [GoToViWhile(p)] + ([Sweep1d] + ([OuterWhile(p, StepSeqs(p))] + [last]));
    RunStmtsSome(fuel, GoToViWhile(p), [Sweep1d] + ([OuterWhile(p, StepSeqs(p))] + [last]), sweep1d, s, t1);
    RunStmtsSome(fuel, Sweep1d, [OuterWhile(p, StepSeqs(p))] + [last], sweep1d, t1, t2);
    RunStmtsSome(fuel, OuterWhile(p, StepSeqs(p)), [last], sweep1d, t2, t3);
    RunStmtsSome(fuel, last, [], sweep1d, t3, RunBlock(ResetAwgSeqs(p), t3));
    assert [last] + [] == [last];
    var a := ResetAwgSeqs(p)[0];
    RunBlockOne(a, t3);
    ExecSeqSingle(a.engine, a.instrs[0], t3);
  }

  // ---------------------------------------------------------------------
  // The emulator stop.

  function Mem(s: State, k: (string, string, int)): Option<int>
  {
    if k in s.memory then Some(s.memory[k]) else None
  }

  lemma {:induction false} ExecSeqMemoryFrame(engine: string, p: seq<Instr>, s: State, k: (string, string, int))
    requires k.0 != engine
    ensures Mem(ExecSeq(engine, p, s), k) == Mem(s, k)
    decreases p
  {
    if p != [] {
      ExecInstrMemoryFrame(engine, p[0], s, k);
      ExecSeqMemoryFrame(engine, p[1..], ExecInstr(engine, p[0], s), k);
    }
  }

  lemma {:induction false} ExecInstrMemoryFrame(engine: string, i: Instr, s: State, k: (string, string, int))
    requires k.0 != engine
    ensures Mem(ExecInstr(engine, i, s), k) == Mem(s, k)
    decreases i
  {
    match i
    case IfElse(_, _, c, _, t, f) =>
      if Holds(s, engine, c) { ExecSeqMemoryFrame(engine, t, s, k); } else { ExecSeqMemoryFrame(engine, f, s, k); }
    case _ =>
  }

  lemma {:induction false} RunBlockMemoryFrame(seqs: seq<EngineSeq>, s: State, k: (string, string, int))
    requires forall j :: 0 <= j < |seqs| ==> seqs[j].engine != k.0
    ensures Mem(RunBlock(seqs, s), k) == Mem(s, k)
    decreases |seqs|
  {
    if seqs != [] {
      ExecSeqMemoryFrame(seqs[0].engine, seqs[0].instrs, s, k);
      assert forall j :: 0 <= j < |seqs[1..]| ==> seqs[1..][j] == seqs[j + 1];
      RunBlockMemoryFrame(seqs[1..], ExecSeq(seqs[0].engine, seqs[0].instrs, s), k);
    }
  }

  /**
   * As built, the emulator stop sits in the "Step voltage 2D" block: every
   * single 2D step, from the first one on, writes `reg_HLS_start = 0`.
   */
  lemma QdStopInStepBlock(p: Parts2d, s: State)
    requires Frame2d(p) && p.qdStop.Some?
    ensures Mem(RunBlock(StepSeqs(p), s), (p.regs.dig, p.qdStop.value, 0)) == Some(0)
  {
    var r := p.regs;
    var key := (r.dig, p.qdStop.value, 0);
    var inc := Add(p.labels.incAwg, 10, r.awgLoopCounter, Reg(r.awgLoopCounter), Const(1));
    var incLoop := Add(p.labels.incLoop, 200, r.loopCounter, Reg(r.loopCounter), Const(1));
    var a := EngineSeq(r.secondary, p.stepToVf + [inc]);
    var b := EngineSeq(r.dig, [incLoop] + QdStopInstrs(p.qdStop));
    RunBlockTwo(a, b, p.stepOthers, s);
    var s1 := ExecSeq(r.secondary, a.instrs, s);
    ExecSeqCons(r.dig, incLoop, QdStopInstrs(p.qdStop), s1);
    var s2 := ExecInstr(r.dig, incLoop, s1);
    ExecSeqSingle(r.dig, QdStopInstrs(p.qdStop)[0], s2);
    RunBlockMemoryFrame(p.stepOthers, ExecSeq(r.dig, b.instrs, s1), key);
  }

  /** The first 2D step already stops the emulator, while the sweep goes on for its remaining steps. */
  lemma QdStoppedAfterFirstStep(p: Parts2d, s: State)
    requires Frame2d(p) && p.qdStop.Some? && Get(s, p.regs.dig, p.regs.stepCounter) >= 1
    ensures var t := RunBlock(StepSeqs(p), RunBlock(ResetLoopSeqs(p), s));
      && Mem(t, (p.regs.dig, p.qdStop.value, 0)) == Some(0)
      && Get(t, p.regs.dig, p.regs.loopCounter) == 1
      && Get(t, p.regs.dig, p.regs.loopCounter) <= Get(t, p.regs.dig, p.regs.stepCounter)
  {
    ResetLoopEffect(p, s);
    StepEffect(p, RunBlock(ResetLoopSeqs(p), s));
    QdStopInStepBlock(p, RunBlock(ResetLoopSeqs(p), s));
  }

  /** The sequence with the emulator stop where its comment puts it, at the end, after the AWG loop counter reset. */
  function Sweeper2dProgramFixed(p: Parts2d): seq<SyncStmt>
  {
    var q := p.(qdStop := None);
    [GoToViWhile(q), Sweep1d, OuterWhile(q, StepSeqs(q)),
     SyncBlock(p.labels.resetBlock, 510, ResetAwgSeqs(p) + [EngineSeq(p.regs.dig, QdStopInstrs(p.qdStop))])]
  }

  /** In the corrected sequence a 2D step leaves the emulator's start register alone. */
  lemma FixedStepKeepsEmulator(p: Parts2d, s: State, memoryMap: string)
    requires Frame2d(p)
    ensures var key := (p.regs.dig, memoryMap, 0);
      Mem(RunBlock(StepSeqs(p.(qdStop := None)), s), key) == Mem(s, key)
  {
    var q := p.(qdStop := None);
    var r := p.regs;
    var key := (r.dig, memoryMap, 0);
    var inc := Add(p.labels.incAwg, 10, r.awgLoopCounter, Reg(r.awgLoopCounter), Const(1));
    var incLoop := Add(p.labels.incLoop, 200, r.loopCounter, Reg(r.loopCounter), Const(1));
    var a := EngineSeq(r.secondary, p.stepToVf + [inc]);
    var b := EngineSeq(r.dig, [incLoop] + QdStopInstrs(None));
    assert StepSeqs(q) == [a, b] + p.stepOthers;
    RunBlockTwo(a, b, p.stepOthers, s);
    ExecSeqMemoryFrame(r.secondary, a.instrs, s, key);
    var s1 := ExecSeq(r.secondary, a.instrs, s);
    assert b.instrs == [incLoop];
    ExecSeqSingle(r.dig, incLoop, s1);
    RunBlockMemoryFrame(p.stepOthers, ExecSeq(r.dig, b.instrs, s1), key);
  }

  /**
   * The corrected sequence runs like the one built, and it ends with the
   * AWG loop counter at 0 and, when the emulator is used, stopped.
   */
  lemma Sweeper2dFixedRuns(fuel: nat, p: Parts2d, sweep1d: State -> State, s: State, t1: State)
    requires Frame2d(p) && Sweep1dKeeps(sweep1d, p.regs)
    requires RunStmt(fuel, GoToViWhile(p), sweep1d, s) == Some(t1)
    requires Get(s, p.regs.dig, p.regs.stepCounter) >= 1
    requires fuel >= Iterations(Get(s, p.regs.secondary, p.regs.awgLoopCounter),
                                Get(s, p.regs.secondary, p.regs.rampCounter),
                                Get(s, p.regs.dig, p.regs.stepCounter))
                     + Get(s, p.regs.dig, p.regs.stepCounter)
    ensures var run := RunStmts(fuel, Sweeper2dProgramFixed(p), sweep1d, s);
      && run.Some?
      && Get(run.value, p.regs.secondary, p.regs.awgLoopCounter) == 0
      && (p.qdStop.Some? ==> Mem(run.value, (p.regs.dig, p.qdStop.value, 0)) == Some(0))
  {
    var q := p.(qdStop := None);
    var r := p.regs;
    assert GoToViWhile(q) == GoToViWhile(p);
    Sweeper2dRuns(fuel, q, sweep1d, s, t1);
    var last := SyncBlock(p.labels.resetBlock, 510, ResetAwgSeqs(p) + [EngineSeq(r.dig, QdStopInstrs(p.qdStop))]);
    var n := Get(s, r.dig, r.stepCounter);
    var k := Iterations(Get(s, r.secondary, r.awgLoopCounter), Get(s, r.secondary, r.rampCounter), n);
    var t3 := RepeatOuter(k, q, sweep1d, n, sweep1d(t1));
    var prog := Sweeper2dProgramFixed(p);
    assert prog == [GoToViWhile(q)] + ([Sweep1d] + ([OuterWhile(q, StepSeqs(q))] + [last]));
    GoToViKeeps(fuel, q, sweep1d, s, t1);
    OuterLoopRuns(fuel, q, sweep1d, sweep1d(t1));
    RunStmtsSome(fuel, GoToViWhile(q), [Sweep1d] + ([OuterWhile(q, StepSeqs(q))] + [last]), sweep1d, s, t1);
    RunStmtsSome(fuel, Sweep1d, [OuterWhile(q, StepSeqs(q))] + [last], sweep1d, t1, sweep1d(t1));
    RunStmtsSome(fuel, OuterWhile(q, StepSeqs(q)), [last], sweep1d, sweep1d(t1), t3);
    RunStmtsSome(fuel, last, [], sweep1d, t3, RunBlock(last.sequences, t3));
    assert [last] + [] == [last];
    FixedResetEffect(p, t3);
  }

  /** The corrected reset block clears the AWG loop counter and, when the emulator is used, stops it. */
  lemma FixedResetEffect(p: Parts2d, t3: State)
    requires Frame2d(p)
    ensures var r := p.regs;
      var last := SyncBlock(p.labels.resetBlock, 510, ResetAwgSeqs(p) + [EngineSeq(r.dig, QdStopInstrs(p.qdStop))]);
      var t := RunBlock(last.sequences, t3);
      && Get(t, r.secondary, r.awgLoopCounter) == 0
      && (p.qdStop.Some? ==> Mem(t, (r.dig, p.qdStop.value, 0)) == Some(0))
  {
    var r := p.regs;
    var last := SyncBlock(p.labels.resetBlock, 510, ResetAwgSeqs(p) + [EngineSeq(r.dig, QdStopInstrs(p.qdStop))]);
    var a := ResetAwgSeqs(p)[0];
    var b := EngineSeq(r.dig, QdStopInstrs(p.qdStop));
    RunBlockTwo(a, b, [], t3);
    assert last.sequences == [a, b] + [];
    ExecSeqSingle(a.engine, a.instrs[0], t3);
    var t4 := ExecSeq(a.engine, a.instrs, t3);
    QdStopWrites(p.qdStop);
    ExecSeqFrame(r.dig, b.instrs, t4, r.secondary, r.awgLoopCounter);
    if p.qdStop.Some? {
      ExecSeqSingle(r.dig, b.instrs[0], t4);
    }
  }
}
