/**
 * The HVI instructions the host code emits into an engine's sequence, and
 * their effect on that engine's registers, AWG channel offsets and FPGA
 * registers and memory maps. Registers hold unbounded integers; a register
 * that was never written reads as 0.
 */
module HviProgram {

  datatype Operand = Reg(name: string) | Const(value: int)

  datatype Comparison = LessThan | GreaterThan | EqualTo | NotEqualTo

  /** `kthvi.Condition.register_comparison(left, op, right)`. */
  datatype Condition = Compare(left: Operand, op: Comparison, right: Operand)

  /** One instruction, its label and the start delay the builder passes with it. */
  datatype Instr =
    | Assign(name: string, start: int, dst: string, src: Operand)
    | Add(name: string, start: int, dst: string, left: Operand, right: Operand)
    | Subtract(name: string, start: int, dst: string, left: Operand, right: Operand)
    | IfElse(name: string, start: int, cond: Condition, timeMatching: bool,
             thenBranch: seq<Instr>, elseBranch: seq<Instr>)
    | SetOffset(name: string, start: int, channel: int, value: Operand)
    | FpgaRegisterWrite(name: string, start: int, register: string, value: Operand)
    | FpgaArrayWrite(name: string, start: int, memoryMap: string, offset: int, value: Operand)
    | Delay(name: string, ticks: int)

  /** Registers are scoped per engine; outputs are keyed by engine too. */
  datatype State = State(
    regs: map<(string, string), int>,
    offsets: map<(string, int), int>,
    fpgaRegs: map<(string, string), int>,
    memory: map<(string, string, int), int>)

  function Get(s: State, engine: string, r: string): int
  {
    if (engine, r) in s.regs then s.regs[(engine, r)] else 0
  }

  function Set(s: State, engine: string, r: string, v: int): (t: State)
    ensures Get(t, engine, r) == v
    ensures forall e, q :: (e, q) != (engine, r) ==> Get(t, e, q) == Get(s, e, q)
    ensures t.offsets == s.offsets && t.fpgaRegs == s.fpgaRegs && t.memory == s.memory
  {
    s.(regs := s.regs[(engine, r) := v])
  }

  function Eval(s: State, engine: string, o: Operand): int
  {
    match o
    case Reg(n) => Get(s, engine, n)
    case Const(v) => v
  }

  predicate Holds(s: State, engine: string, c: Condition)
  {
    var l := Eval(s, engine, c.left);
    var r := Eval(s, engine, c.right);
    match c.op
    case LessThan => l < r
    case GreaterThan => l > r
    case EqualTo => l == r
    case NotEqualTo => l != r
  }

  /** Run an instruction sequence on one engine. */
  function ExecSeq(engine: string, p: seq<Instr>, s: State): State
    decreases p
  {
    if p == [] then s
    else ExecSeq(engine, p[1..], ExecInstr(engine, p[0], s))
  }

  function ExecInstr(engine: string, i: Instr, s: State): State
    decreases i
  {
    match i
    case Assign(_, _, dst, src) => Set(s, engine, dst, Eval(s, engine, src))
    case Add(_, _, dst, l, r) => Set(s, engine, dst, Eval(s, engine, l) + Eval(s, engine, r))
    case Subtract(_, _, dst, l, r) => Set(s, engine, dst, Eval(s, engine, l) - Eval(s, engine, r))
    case IfElse(_, _, c, _, t, f) =>
      if Holds(s, engine, c) then ExecSeq(engine, t, s) else ExecSeq(engine, f, s)
    case SetOffset(_, _, ch, v) => s.(offsets := s.offsets[(engine, ch) := Eval(s, engine, v)])
    case FpgaRegisterWrite(_, _, reg, v) => s.(fpgaRegs := s.fpgaRegs[(engine, reg) := Eval(s, engine, v)])
    case FpgaArrayWrite(_, _, mm, off, v) => s.(memory := s.memory[(engine, mm, off) := Eval(s, engine, v)])
    case Delay(_, _) => s
  }

  /** The registers a sequence may assign, in either branch of its conditionals. */
  function Writes(p: seq<Instr>): set<string>
    decreases p
  {
    if p == [] then {} else WritesOf(p[0]) + Writes(p[1..])
  }

  function WritesOf(i: Instr): set<string>
    decreases i
  {
    match i
    case Assign(_, _, dst, _) => {dst}
    case Add(_, _, dst, _, _) => {dst}
    case Subtract(_, _, dst, _, _) => {dst}
    case IfElse(_, _, _, _, t, f) => Writes(t) + Writes(f)
    case _ => {}
  }

  /** Every conditional of a sequence asks the HVI compiler to match the durations of its branches. */
  predicate TimeMatched(p: seq<Instr>)
    decreases p
  {
    forall k :: 0 <= k < |p| ==> InstrTimeMatched(p[k])
  }

  predicate InstrTimeMatched(i: Instr)
    decreases i
  {
    i.IfElse? ==> i.timeMatching && TimeMatched(i.thenBranch) && TimeMatched(i.elseBranch)
  }

  /** Running a sequence leaves every register it does not assign, and every other engine's registers, alone. */
  lemma {:induction false} ExecSeqFrame(engine: string, p: seq<Instr>, s: State, e: string, r: string)
    requires e != engine || r !in Writes(p)
    ensures Get(ExecSeq(engine, p, s), e, r) == Get(s, e, r)
    decreases p
  {
    if p != [] {
      ExecInstrFrame(engine, p[0], s, e, r);
      ExecSeqFrame(engine, p[1..], ExecInstr(engine, p[0], s), e, r);
    }
  }

  lemma {:induction false} ExecInstrFrame(engine: string, i: Instr, s: State, e: string, r: string)
    requires e != engine || r !in WritesOf(i)
    ensures Get(ExecInstr(engine, i, s), e, r) == Get(s, e, r)
    decreases i
  {
    match i
    case IfElse(_, _, c, _, t, f) =>
      if Holds(s, engine, c) { ExecSeqFrame(engine, t, s, e, r); } else { ExecSeqFrame(engine, f, s, e, r); }
    case _ =>
  }

  /** Running a sequence on one engine leaves the outputs of every other engine alone. */
  lemma {:induction false} ExecSeqOutputsFrame(engine: string, p: seq<Instr>, s: State)
    ensures var t := ExecSeq(engine, p, s);
      (forall k :: k in s.offsets && k.0 != engine ==> k in t.offsets && t.offsets[k] == s.offsets[k]) &&
      (forall k :: k in s.fpgaRegs && k.0 != engine ==> k in t.fpgaRegs && t.fpgaRegs[k] == s.fpgaRegs[k])
    decreases p
  {
    if p != [] {
      ExecInstrOutputsFrame(engine, p[0], s);
      ExecSeqOutputsFrame(engine, p[1..], ExecInstr(engine, p[0], s));
    }
  }

  lemma {:induction false} ExecInstrOutputsFrame(engine: string, i: Instr, s: State)
    ensures var t := ExecInstr(engine, i, s);
      (forall k :: k in s.offsets && k.0 != engine ==> k in t.offsets && t.offsets[k] == s.offsets[k]) &&
      (forall k :: k in s.fpgaRegs && k.0 != engine ==> k in t.fpgaRegs && t.fpgaRegs[k] == s.fpgaRegs[k])
    decreases i
  {
    match i
    case IfElse(_, _, c, _, t, f) =>
      if Holds(s, engine, c) { ExecSeqOutputsFrame(engine, t, s); } else { ExecSeqOutputsFrame(engine, f, s); }
    case _ =>
  }

  lemma {:induction false} ExecSeqAppend(engine: string, p: seq<Instr>, q: seq<Instr>, s: State)
    ensures ExecSeq(engine, p + q, s) == ExecSeq(engine, q, ExecSeq(engine, p, s))
    decreases p
  {
    if p != [] {
      assert (p + q)[1..] == p[1..] + q;
      ExecSeqAppend(engine, p[1..], q, ExecInstr(engine, p[0], s));
    } else {
      assert p + q == q;
    }
  }
}
