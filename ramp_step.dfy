/**
 * program_step_to_target_voltage: the HVI instructions that move an AWG
 * voltage register one increment toward a target register. Codes above
 * 32767 stand for negative voltages, so the builder counts how many of the
 * two codes are negative and, when exactly one is, steps the other way;
 * the out-of-range code 65537 is folded back to 0. The new code is then
 * sent to the AWG offset or to the virtual-gate register bank, and a delay
 * set by the slew rate follows.
 */
module RampStep {
  import opened Text
  import opened SlewPlanner
  import opened InstructionNames
  import opened HviProgram

  const MaxPositive: int := 32767
  const MaxNegative: int := 65536

  /** Where the new code goes after the step. */
  datatype Tail = SetAwgOffset | WriteRegisterBank(register: string) | NoWrite

  /** The names of the 1D helper registers in each AWG engine's scope. */
  datatype RegisterNames = RegisterNames(
    sweepDirection: string, negCounter: string, voltageIncrement: string, negVoltageIncrement: string)

  datatype StepParams = StepParams(
    awgChannel: int, current: string, target: string, regs: RegisterNames,
    useDv: bool, tail: Tail, delay: int)

  /** The register-bank register of a virtual-gate card: card K holds channels 4(K-1)+1 .. 4K. */
  function RegisterBankName(card: int, awgChannel: int): string
  {
    "Voltage_card" + IntToString(card) + "_V_ch" + IntToString((card - 1) * 4 + awgChannel)
  }

  function TailFor(outputVoltage: bool, nbVgAwgModules: int, sourceCard: int, awgChannel: int): (t: Tail)
    ensures outputVoltage <==> t == SetAwgOffset
    ensures t.WriteRegisterBank? <==> !outputVoltage && nbVgAwgModules > 1
  {
    if outputVoltage then SetAwgOffset
    else if nbVgAwgModules > 1 then WriteRegisterBank(RegisterBankName(sourceCard, awgChannel))
    else NoWrite
  }

  /** The wait after a step: ten times the slew timer, with the configured or the default dV. */
  function DelayTicks(slewRate: real, useDv: bool, dV: real): (d: int)
    ensures d >= 10 && d % 10 == 0
  {
    10 * CalcSlewTimer(slewRate, if useDv then dV else DefaultDv)
  }

  /** The names the builder asks the label cache for, in order. */
  function LabelCount(tail: Tail): nat
  {
    if tail.NoWrite? then 14 else 15
  }

  function RampLabelNames(tail: Tail): (names: seq<string>)
    ensures |names| == LabelCount(tail)
  {
    ["Target voltage < V Chx", "Sweep dir = -dV", "Sweep dir = dV", "Negative counter = 0",
     "Target voltage > max positive", "Negative counter +1", "V Chx > max positive",
     "Negative counter +1", "Neg counter = 1", "V Chx -= sweep direction",
     "V Chx += sweep direction", "V Chx = max negative + 1", "V Chx = 0"]
    + (match tail
       case SetAwgOffset => ["set AWG offset"]
       case WriteRegisterBank(_) => ["Write voltage register to register bank"]
       case NoWrite => [])
    + ["Wait"]
  }

  /** Sweep direction: -dV when the target is below the current code, +dV otherwise. */
  function DirectionInstr(labels: seq<string>, p: StepParams): Instr
    requires |labels| >= 14
  {
    var n := p.regs;
    IfElse(labels[0], 430, Compare(Reg(p.target), LessThan, Reg(p.current)), true,
      [Assign(labels[1], 10 + 50, n.sweepDirection, if p.useDv then Reg(n.negVoltageIncrement) else Const(-1))],
      [Assign(labels[2], 10 + 50, n.sweepDirection, if p.useDv then Reg(n.voltageIncrement) else Const(1))])
  }

  function ResetCounterInstr(labels: seq<string>, p: StepParams): Instr
    requires |labels| >= 14
  {
    Assign(labels[3], 10 + 50, p.regs.negCounter, Const(0))
  }

  /** Counts one negative code when `reg` holds a code above 32767. */
  function CountNegativeInstr(name: string, incName: string, reg: string, p: StepParams): Instr
  {
    IfElse(name, 100, Compare(Reg(reg), GreaterThan, Const(MaxPositive)), true,
      [Add(incName, 10 + 80, p.regs.negCounter, Reg(p.regs.negCounter), Const(1))], [])
  }

  /** Subtracts the direction when exactly one code is negative, adds it otherwise. */
  function MoveInstr(labels: seq<string>, p: StepParams): Instr
    requires |labels| >= 14
  {
    var n := p.regs;
    IfElse(labels[8], 100, Compare(Reg(n.negCounter), EqualTo, Const(1)), true,
      [Subtract(labels[9], 10 + 80, p.current, Reg(p.current), Reg(n.sweepDirection))],
      [Add(labels[10], 10 + 80, p.current, Reg(p.current), Reg(n.sweepDirection))])
  }

  /** Folds the out-of-range code 65537 back to 0. */
  function FoldInstr(labels: seq<string>, p: StepParams): Instr
    requires |labels| >= 14
  {
    IfElse(labels[11], 100, Compare(Reg(p.current), EqualTo, Const(MaxNegative + 1)), true,
      [Assign(labels[12], 10 + 80, p.current, Const(0))], [])
  }

  function OutInstrs(labels: seq<string>, p: StepParams): seq<Instr>
    requires |labels| >= 14
  {
    match p.tail
    case SetAwgOffset => [SetOffset(labels[13], 200, p.awgChannel, Reg(p.current))]
    case WriteRegisterBank(reg) => [FpgaRegisterWrite(labels[13], 100, reg, Reg(p.current))]
    case NoWrite => []
  }

  function CoreInstrs(labels: seq<string>, p: StepParams): seq<Instr>
    requires |labels| >= 14
  {
    [DirectionInstr(labels, p), ResetCounterInstr(labels, p),
     CountNegativeInstr(labels[4], labels[5], p.target, p),
     CountNegativeInstr(labels[6], labels[7], p.current, p),
     MoveInstr(labels, p), FoldInstr(labels, p)]
  }

  /** The instructions of one step, given the labels the cache handed out. */
  function RampInstrs(labels: seq<string>, p: StepParams): (r: seq<Instr>)
    requires |labels| == LabelCount(p.tail)
    ensures |r| == |labels| - 7 && r[|r| - 1] == Delay(labels[|labels| - 1], p.delay)
  {
    CoreInstrs(labels, p) + OutInstrs(labels, p) + [Delay(labels[|labels| - 1], p.delay)]
  }

  /** The registers each core instruction assigns, and its time matching. */
  lemma CoreInstrFacts(labels: seq<string>, p: StepParams)
    requires |labels| >= 14
    ensures var core := CoreInstrs(labels, p);
      && WritesOf(core[0]) == {p.regs.sweepDirection}
      && WritesOf(core[1]) == {p.regs.negCounter}
      && WritesOf(core[2]) == {p.regs.negCounter}
      && WritesOf(core[3]) == {p.regs.negCounter}
      && WritesOf(core[4]) == {p.current}
      && WritesOf(core[5]) == {p.current}
      && forall k :: 0 <= k < 6 ==> InstrTimeMatched(core[k])
  {
    var core := CoreInstrs(labels, p);
    BranchFacts(core[0].thenBranch); BranchFacts(core[0].elseBranch);
    BranchFacts(core[2].thenBranch); BranchFacts(core[2].elseBranch);
    BranchFacts(core[3].thenBranch); BranchFacts(core[3].elseBranch);
    BranchFacts(core[4].thenBranch); BranchFacts(core[4].elseBranch);
    BranchFacts(core[5].thenBranch); BranchFacts(core[5].elseBranch);
  }

  /** Every conditional of a step asks the HVI compiler for time matching. */
  lemma RampTimeMatched(labels: seq<string>, p: StepParams)
    requires |labels| == LabelCount(p.tail)
    ensures TimeMatched(RampInstrs(labels, p))
  {
    var core := CoreInstrs(labels, p);
    var r := RampInstrs(labels, p);
    CoreInstrFacts(labels, p);
    forall k | 0 <= k < |r| ensures InstrTimeMatched(r[k]) {
      if k < 6 { assert r[k] == core[k]; }
    }
  }

  /** A step assigns only the sweep-direction register, the negative counter and the current voltage register. */
  lemma RampWrites(labels: seq<string>, p: StepParams)
    requires |labels| == LabelCount(p.tail)
    ensures Writes(RampInstrs(labels, p)) == {p.regs.sweepDirection, p.regs.negCounter, p.current}
  {
    var core := CoreInstrs(labels, p);
    var out := OutInstrs(labels, p);
    var last := [Delay(labels[|labels| - 1], p.delay)];
    WritesAppend(core, out);
    WritesAppend(core + out, last);
    CoreWrites(labels, p);
    WritesCons(last[0], []);
    assert last == [last[0]] + [];
    WritesOfTail(out);
  }

  /** The six core instructions assign the sweep direction, the negative counter and the current voltage. */
  lemma CoreWrites(labels: seq<string>, p: StepParams)
    requires |labels| >= 14
    ensures Writes(CoreInstrs(labels, p)) == {p.regs.sweepDirection, p.regs.negCounter, p.current}
  {
    var core := CoreInstrs(labels, p);
    WritesOfSix(core[0], core[1], core[2], core[3], core[4], core[5]);
    assert core == [core[0], core[1], core[2], core[3], core[4], core[5]];
    CoreInstrFacts(labels, p);
  }

  /** A branch of at most one plain instruction writes what that instruction writes and is time matched. */
  lemma BranchFacts(b: seq<Instr>)
    requires |b| <= 1 && forall k :: 0 <= k < |b| ==> !b[k].IfElse?
    ensures TimeMatched(b)
    ensures Writes(b) == if b == [] then {} else WritesOf(b[0])
  {
    if b != [] {
      assert b == [b[0]] + [];
      WritesCons(b[0], []);
    }
  }

  lemma WritesCons(i: Instr, rest: seq<Instr>)
    ensures Writes([i] + rest) == WritesOf(i) + Writes(rest)
  {
    assert ([i] + rest)[1..] == rest;
  }

  lemma WritesOfTail(out: seq<Instr>)
    requires |out| <= 1 && forall k :: 0 <= k < |out| ==> !out[k].IfElse? && !out[k].Assign? && !out[k].Add? && !out[k].Subtract?
    ensures Writes(out) == {}
  {
    if out != [] {
      assert out == [out[0]] + [];
      WritesCons(out[0], []);
    }
  }

  lemma WritesOfSix(a: Instr, b: Instr, c: Instr, d: Instr, e: Instr, f: Instr)
    ensures Writes([a, b, c, d, e, f])
      == WritesOf(a) + WritesOf(b) + WritesOf(c) + WritesOf(d) + WritesOf(e) + WritesOf(f)
  {
    assert [a, b, c, d, e, f] == [a, b, c] + [d, e, f];
    WritesAppend([a, b, c], [d, e, f]);
    WritesOfThree(a, b, c);
    WritesOfThree(d, e, f);
  }

  lemma WritesOfThree(a: Instr, b: Instr, c: Instr)
    ensures Writes([a, b, c]) == WritesOf(a) + WritesOf(b) + WritesOf(c)
  {
    WritesCons(a, [b, c]);
    assert [a, b, c] == [a] + [b, c];
    WritesCons(b, [c]);
    assert [b, c] == [b] + [c];
    WritesCons(c, []);
    assert [c] == [c] + [];
  }

  lemma {:induction false} WritesAppend(p: seq<Instr>, q: seq<Instr>)
    ensures Writes(p + q) == Writes(p) + Writes(q)
    decreases p
  {
    if p != [] {
      assert (p + q)[1..] == p[1..] + q;
      WritesAppend(p[1..], q);
    } else {
      assert p + q == q;
    }
  }

  /**
   * The voltage code after one step, as the ramp design describes it: the
   * direction comes from comparing the codes, the number of negative codes
   * among target and current decides whether to add or subtract, and 65537
   * folds back to 0.
   */
  function NextCode(target: int, current: int, inc: int, negInc: int): int
  {
    var dir := if target < current then negInc else inc;
    var negatives := (if target > MaxPositive then 1 else 0) + (if current > MaxPositive then 1 else 0);
    var moved := if negatives == 1 then current - dir else current + dir;
    if moved == MaxNegative + 1 then 0 else moved
  }

  /** The signed number of code steps a code stands for: codes above 32767 count down from 65535. */
  function SignedCode(c: int): int
  {
    if c > MaxPositive then c - 65535 else c
  }

  function AbsInt(x: int): nat { if x < 0 then -x else x }

  /**
   * With unit increments one step brings a valid code exactly one code step
   * closer to the target in voltage, whichever signs the two codes have.
   */
  lemma StepApproachesTarget(target: int, current: int)
    requires 0 <= target <= 65535 && 0 <= current <= 65535
    requires SignedCode(target) != SignedCode(current)
    ensures AbsInt(SignedCode(target) - SignedCode(NextCode(target, current, 1, -1)))
      == AbsInt(SignedCode(target) - SignedCode(current)) - 1
  {
  }

  /** Codes 0 and 65535 both mean 0 V; from 65535 toward 0 the register passes 65536 and folds to 0. */
  lemma ZeroAliasStepsThroughFold()
    ensures NextCode(0, 65535, 1, -1) == 65536
    ensures NextCode(0, 65536, 1, -1) == 0
  {
  }

  function Inc(s: State, engine: string, p: StepParams): int
  {
    if p.useDv then Get(s, engine, p.regs.voltageIncrement) else 1
  }

  function NegInc(s: State, engine: string, p: StepParams): int
  {
    if p.useDv then Get(s, engine, p.regs.negVoltageIncrement) else -1
  }

  predicate DistinctRegisters(p: StepParams)
  {
    var n := p.regs;
    p.current != n.sweepDirection && p.current != n.negCounter && n.sweepDirection != n.negCounter
    && p.target != n.sweepDirection && p.target != n.negCounter && p.target != p.current
  }

  lemma ExecSeqCons(engine: string, i: Instr, rest: seq<Instr>, s: State)
    ensures ExecSeq(engine, [i] + rest, s) == ExecSeq(engine, rest, ExecInstr(engine, i, s))
  {
    assert ([i] + rest)[1..] == rest;
  }

  lemma ExecSeqSingle(engine: string, i: Instr, s: State)
    ensures ExecSeq(engine, [i], s) == ExecInstr(engine, i, s)
  {
    assert [i][1..] == [];
  }

  lemma DirectionEffect(labels: seq<string>, p: StepParams, engine: string, s: State)
    requires |labels| >= 14
    ensures ExecInstr(engine, DirectionInstr(labels, p), s)
      == Set(s, engine, p.regs.sweepDirection,
             if Get(s, engine, p.target) < Get(s, engine, p.current) then NegInc(s, engine, p) else Inc(s, engine, p))
  {
    var i := DirectionInstr(labels, p);
    ExecSeqSingle(engine, i.thenBranch[0], s);
    ExecSeqSingle(engine, i.elseBranch[0], s);
  }

  lemma CountNegativeEffect(name: string, incName: string, reg: string, p: StepParams, engine: string, s: State)
    ensures ExecInstr(engine, CountNegativeInstr(name, incName, reg, p), s)
      == if Get(s, engine, reg) > MaxPositive
         then Set(s, engine, p.regs.negCounter, Get(s, engine, p.regs.negCounter) + 1) else s
  {
    var i := CountNegativeInstr(name, incName, reg, p);
    ExecSeqSingle(engine, i.thenBranch[0], s);
  }

  lemma MoveEffect(labels: seq<string>, p: StepParams, engine: string, s: State)
    requires |labels| >= 14
    ensures ExecInstr(engine, MoveInstr(labels, p), s)
      == Set(s, engine, p.current,
             if Get(s, engine, p.regs.negCounter) == 1
             then Get(s, engine, p.current) - Get(s, engine, p.regs.sweepDirection)
             else Get(s, engine, p.current) + Get(s, engine, p.regs.sweepDirection))
  {
    var i := MoveInstr(labels, p);
    ExecSeqSingle(engine, i.thenBranch[0], s);
    ExecSeqSingle(engine, i.elseBranch[0], s);
  }

  lemma FoldEffect(labels: seq<string>, p: StepParams, engine: string, s: State)
    requires |labels| >= 14
    ensures ExecInstr(engine, FoldInstr(labels, p), s)
      == if Get(s, engine, p.current) == MaxNegative + 1 then Set(s, engine, p.current, 0) else s
  {
    var i := FoldInstr(labels, p);
    ExecSeqSingle(engine, i.thenBranch[0], s);
  }

  /** The six core instructions, run in order. */
  lemma ExecSix(engine: string, core: seq<Instr>, s: State)
    requires |core| == 6
    ensures ExecSeq(engine, core, s)
      == ExecInstr(engine, core[5], ExecInstr(engine, core[4], ExecInstr(engine, core[3],
           ExecInstr(engine, core[2], ExecInstr(engine, core[1], ExecInstr(engine, core[0], s))))))
  {
    var s1 := ExecInstr(engine, core[0], s);
    var s2 := ExecInstr(engine, core[1], s1);
    var s3 := ExecInstr(engine, core[2], s2);
    var s4 := ExecInstr(engine, core[3], s3);
    var s5 := ExecInstr(engine, core[4], s4);
    assert core[0..] == core;
    ExecSeqStep(engine, core, 0, s);
    ExecSeqStep(engine, core, 1, s1);
    ExecSeqStep(engine, core, 2, s2);
    ExecSeqStep(engine, core, 3, s3);
    ExecSeqStep(engine, core, 4, s4);
    ExecSeqStep(engine, core, 5, s5);
    assert core[6..] == [];
  }

  /** Running a sequence from its `k`-th instruction. */
  lemma ExecSeqStep(engine: string, p: seq<Instr>, k: nat, s: State)
    requires k < |p|
    ensures ExecSeq(engine, p[k..], s) == ExecSeq(engine, p[k + 1..], ExecInstr(engine, p[k], s))
  {
    assert p[k..][1..] == p[k + 1..];
  }

  /** The six core instructions compute the direction, the negative count and the next code. */
  lemma CoreEffect(labels: seq<string>, p: StepParams, engine: string, s: State)
    requires |labels| >= 14
    requires DistinctRegisters(p)
    ensures var t := ExecSeq(engine, CoreInstrs(labels, p), s);
      var tv := Get(s, engine, p.target);
      var cv := Get(s, engine, p.current);
      && Get(t, engine, p.current) == NextCode(tv, cv, Inc(s, engine, p), NegInc(s, engine, p))
      && Get(t, engine, p.target) == tv
      && Get(t, engine, p.regs.sweepDirection) == (if tv < cv then NegInc(s, engine, p) else Inc(s, engine, p))
      && Get(t, engine, p.regs.negCounter)
         == (if tv > MaxPositive then 1 else 0) + (if cv > MaxPositive then 1 else 0)
  {
    var core := CoreInstrs(labels, p);
    ExecSix(engine, core, s);
    var s4 := ExecInstr(engine, core[3], ExecInstr(engine, core[2], ExecInstr(engine, core[1], ExecInstr(engine, core[0], s))));
    PrepareEffect(labels, p, engine, s);
    FinishEffect(labels, p, engine, s4);
  }

  /** The first four core instructions: the direction, and the negative codes counted from 0. */
  lemma PrepareEffect(labels: seq<string>, p: StepParams, engine: string, s: State)
    requires |labels| >= 14
    requires DistinctRegisters(p)
    ensures var core := CoreInstrs(labels, p);
      var s4 := ExecInstr(engine, core[3], ExecInstr(engine, core[2], ExecInstr(engine, core[1], ExecInstr(engine, core[0], s))));
      var tv := Get(s, engine, p.target);
      var cv := Get(s, engine, p.current);
      && Get(s4, engine, p.target) == tv
      && Get(s4, engine, p.current) == cv
      && Get(s4, engine, p.regs.sweepDirection) == (if tv < cv then NegInc(s, engine, p) else Inc(s, engine, p))
      && Get(s4, engine, p.regs.negCounter)
         == (if tv > MaxPositive then 1 else 0) + (if cv > MaxPositive then 1 else 0)
  {
    var n := p.regs;
    var core := CoreInstrs(labels, p);
    var tv := Get(s, engine, p.target);
    var cv := Get(s, engine, p.current);
    var dir := if tv < cv then NegInc(s, engine, p) else Inc(s, engine, p);
    var s1 := ExecInstr(engine, core[0], s);
    DirectionEffect(labels, p, engine, s);
    var s2 := ExecInstr(engine, core[1], s1);
    assert Get(s2, engine, n.negCounter) == 0 && Get(s2, engine, n.sweepDirection) == dir;
    assert Get(s2, engine, p.target) == tv && Get(s2, engine, p.current) == cv;
    var s3 := ExecInstr(engine, core[2], s2);
    CountNegativeEffect(labels[4], labels[5], p.target, p, engine, s2);
    CountNegativeEffect(labels[6], labels[7], p.current, p, engine, s3);
  }

  /** The last two core instructions: the move by the direction, and the fold of 65537. */
  lemma FinishEffect(labels: seq<string>, p: StepParams, engine: string, s4: State)
    requires |labels| >= 14
    requires DistinctRegisters(p)
    ensures var core := CoreInstrs(labels, p);
      var s6 := ExecInstr(engine, core[5], ExecInstr(engine, core[4], s4));
      var cv := Get(s4, engine, p.current);
      var dir := Get(s4, engine, p.regs.sweepDirection);
      var moved := if Get(s4, engine, p.regs.negCounter) == 1 then cv - dir else cv + dir;
      && Get(s6, engine, p.current) == (if moved == MaxNegative + 1 then 0 else moved)
      && Get(s6, engine, p.target) == Get(s4, engine, p.target)
      && Get(s6, engine, p.regs.sweepDirection) == dir
      && Get(s6, engine, p.regs.negCounter) == Get(s4, engine, p.regs.negCounter)
  {
    var core := CoreInstrs(labels, p);
    MoveEffect(labels, p, engine, s4);
    FoldEffect(labels, p, engine, ExecInstr(engine, core[4], s4));
  }

  /**
   * Interpreting the emitted instructions performs exactly one NextCode step
   * on the current register, leaves the direction and negative-count
   * registers as the design says, keeps the target, and sends the new code
   * where the tail says.
   */
  lemma RampStepEffect(labels: seq<string>, p: StepParams, engine: string, s: State)
    requires |labels| == LabelCount(p.tail)
    requires DistinctRegisters(p)
    ensures var t := ExecSeq(engine, RampInstrs(labels, p), s);
      var tv := Get(s, engine, p.target);
      var cv := Get(s, engine, p.current);
      var next := NextCode(tv, cv, Inc(s, engine, p), NegInc(s, engine, p));
      && Get(t, engine, p.current) == next
      && Get(t, engine, p.target) == tv
      && Get(t, engine, p.regs.sweepDirection) == (if tv < cv then NegInc(s, engine, p) else Inc(s, engine, p))
      && Get(t, engine, p.regs.negCounter)
         == (if tv > MaxPositive then 1 else 0) + (if cv > MaxPositive then 1 else 0)
      && (p.tail == SetAwgOffset ==> (engine, p.awgChannel) in t.offsets && t.offsets[(engine, p.awgChannel)] == next)
      && (p.tail.WriteRegisterBank? ==>
            (engine, p.tail.register) in t.fpgaRegs && t.fpgaRegs[(engine, p.tail.register)] == next)
  {
    var core := CoreInstrs(labels, p);
    var rest := OutInstrs(labels, p) + [Delay(labels[|labels| - 1], p.delay)];
    assert RampInstrs(labels, p) == core + rest;
    ExecSeqAppend(engine, core, rest, s);
    CoreEffect(labels, p, engine, s);
    var s6 := ExecSeq(engine, core, s);
    match p.tail
    case SetAwgOffset =>
      assert rest == [rest[0]] + [rest[1]];
      ExecSeqCons(engine, rest[0], [rest[1]], s6);
      ExecSeqSingle(engine, rest[1], ExecInstr(engine, rest[0], s6));
    case WriteRegisterBank(_) =>
      assert rest == [rest[0]] + [rest[1]];
      ExecSeqCons(engine, rest[0], [rest[1]], s6);
      ExecSeqSingle(engine, rest[1], ExecInstr(engine, rest[0], s6));
    case NoWrite =>
      assert rest == [rest[0]];
      ExecSeqSingle(engine, rest[0], s6);
  }

  /** The builder: asks the cache for the labels in order and appends one step to `sequence`. */
  method ProgramStepToTargetVoltage(
    names: InstructionNameCache, sequence: seq<Instr>,
    awgChannel: int, current: string, target: string, regs: RegisterNames,
    slewRate: real, dV: real, useDv: bool, outputVoltage: bool, nbVgAwgModules: int, sourceCard: int)
    returns (out: seq<Instr>)
    modifies names
    ensures var p := StepParams(awgChannel, current, target, regs, useDv,
                                TailFor(outputVoltage, nbVgAwgModules, sourceCard, awgChannel),
                                DelayTicks(slewRate, useDv, dV));
      var (labels, cache) := UniqueAll(old(names.cache), RampLabelNames(p.tail));
      |labels| == LabelCount(p.tail) && out == sequence + RampInstrs(labels, p) && names.cache == cache
  {
    var tail := TailFor(outputVoltage, nbVgAwgModules, sourceCard, awgChannel);
    var p := StepParams(awgChannel, current, target, regs, useDv, tail, DelayTicks(slewRate, useDv, dV));
    var labels := names.UniqueSeries(RampLabelNames(tail));
    UniqueAllLength(old(names.cache), RampLabelNames(tail));
    out := sequence + RampInstrs(labels, p);
  }
}
