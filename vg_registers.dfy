/**
 * update_vg_registers: every virtual-gate AWG module keeps, in its FPGA
 * register bank, a copy of the voltage of every channel of the OTHER
 * virtual-gate modules. With n modules of 4 channels, module m checks the
 * 4n - 4 channels that follow its own block, cyclically, and sweeps each
 * register whose value differs from the channel's actual code.
 *
 * A bank register "Voltage_card{K}_host_V_ch{C}" of module m is keyed here by
 * (m, K - 1, C - 1): the owning module, the card and the channel.
 */
module VgRegisters {
  import opened Wrappers
  import opened Text
  import opened Numerics

  /** sweep_voltage_register accepts slew rates between 0.1 and 1 V/s. */
  const MinSlewRate: real := 0.1
  const MaxSlewRate: real := 1.0

  datatype BankKey = BankKey(owner: int, card: int, channel: int)

  datatype VgError =
    | SlewRateOutOfRange(slewRate: real)
    | RegisterNotFound(key: BankKey)
    | VoltageIndexOutOfRange(channel: int)

  const CardPrefix := "Voltage_card"
  const ChannelInfix := "_host_V_ch"

  /** The name of a bank register, as the FPGA sandbox knows it. */
  function HostRegisterName(card: int, channel: int): string
  {
    CardPrefix + (IntToString(card + 1) + ChannelInfix + IntToString(channel + 1))
  }

  /**
   * Register names determine the card and channel they were built from, so
   * keying the bank by card and channel, as `BankKey` does, loses nothing.
   */
  lemma HostRegisterNameInjective(card1: nat, channel1: nat, card2: nat, channel2: nat)
    ensures HostRegisterName(card1, channel1) == HostRegisterName(card2, channel2)
      <==> card1 == card2 && channel1 == channel2
  {
    if HostRegisterName(card1, channel1) == HostRegisterName(card2, channel2) {
      var a, c := NatToString(card1 + 1), NatToString(channel1 + 1);
      var b, d := NatToString(card2 + 1), NatToString(channel2 + 1);
      PrefixCancels(CardPrefix, a + ChannelInfix + c, b + ChannelInfix + d);
      DigitsBeforeSeparator(a, b, ChannelInfix, c, d);
      if card1 != card2 {
        NatToStringInjective(card1 + 1, card2 + 1);
      }
      if channel1 != channel2 {
        NatToStringInjective(channel1 + 1, channel2 + 1);
      }
    }
  }

  lemma PrefixCancels(p: string, x: string, y: string)
    requires p + x == p + y
    ensures x == y
  {
    assert x == (p + x)[|p|..];
    assert y == (p + y)[|p|..];
  }

  /** The j-th channel module m checks. */
  function ChannelToUpdate(m: int, j: int, n: int): int
    requires n >= 1
  {
    ((m + 1) * 4 + j) % (n * 4)
  }

  /** The card (module block) the j-th checked channel of module m belongs to. */
  function ModuleToUpdate(m: int, j: int, n: int): int
    requires n >= 1
  {
    (((m + 1) * 4 + j) / 4) % n
  }

  /** The number of channels each module checks. */
  function ChecksPerModule(n: int): int
  {
    n * 4 - 4
  }

  /** The registers module m checks, in loop order. */
  function Row(n: int, m: int): (r: seq<BankKey>)
    ensures |r| == if ChecksPerModule(n) > 0 then ChecksPerModule(n) else 0
  {
    if ChecksPerModule(n) <= 0 then []
    else seq(ChecksPerModule(n), j requires 0 <= j < ChecksPerModule(n) =>
               BankKey(m, ModuleToUpdate(m, j, n), ChannelToUpdate(m, j, n)))
  }

  /** The registers checked for the first `count` modules, in loop order. */
  function Plan(n: int, count: nat): seq<BankKey>
  {
    if count == 0 then [] else Plan(n, count - 1) + Row(n, count - 1)
  }

  /**
   * The summary of sweep_voltage_register: the slew rate must lie in
   * [0.1, 1] V/s, and the register ends on the target code.
   */
  function SweepVoltageRegister(bank: map<BankKey, int>, key: BankKey, target: int, slewRate: real)
    : (r: Result<map<BankKey, int>, VgError>)
    ensures r.Success? <==> MinSlewRate <= slewRate <= MaxSlewRate
    ensures r.Success? ==> key in r.value && r.value[key] == target
    ensures r.Success? ==> forall k :: k != key ==> (k in r.value <==> k in bank) && (k in bank ==> r.value[k] == bank[k])
  {
    if slewRate < MinSlewRate || slewRate > MaxSlewRate then Failure(SlewRateOutOfRange(slewRate))
    else Success(bank[key := target])
  }

  /** The bank after the checks so far, and the registers swept, in order. */
  datatype Progress = Progress(bank: map<BankKey, int>, swept: seq<BankKey>)

  /** One check: fetch the register, compare it with the channel's code, sweep it when they differ. */
  function Check(acc: Result<Progress, VgError>, voltages: seq<int>, key: BankKey): Result<Progress, VgError>
  {
    if acc.Failure? then acc
    else if key !in acc.value.bank then Failure(RegisterNotFound(key))
    else if !(0 <= key.channel < |voltages|) then Failure(VoltageIndexOutOfRange(key.channel))
    else if voltages[key.channel] != acc.value.bank[key] then
      match SweepVoltageRegister(acc.value.bank, key, voltages[key.channel], 1.0)
      case Success(b) => Success(Progress(b, acc.value.swept + [key]))
      case Failure(e) => Failure(e)
    else acc
  }

  /** The checks of `plan`, in order, from `acc`; the first error stops them. */
  function Run(acc: Result<Progress, VgError>, voltages: seq<int>, plan: seq<BankKey>): Result<Progress, VgError>
  {
    if plan == [] then acc
    else Check(Run(acc, voltages, plan[..|plan| - 1]), voltages, plan[|plan| - 1])
  }

  function ApplyPlan(bank: map<BankKey, int>, voltages: seq<int>, plan: seq<BankKey>): Result<Progress, VgError>
  {
    Run(Success(Progress(bank, [])), voltages, plan)
  }

  lemma {:induction false} RunAppend(acc: Result<Progress, VgError>, voltages: seq<int>, p: seq<BankKey>, q: seq<BankKey>)
    ensures Run(acc, voltages, p + q) == Run(Run(acc, voltages, p), voltages, q)
    decreases |q|
  {
    if q == [] {
      assert p + q == p;
    } else {
      assert (p + q)[..|p + q| - 1] == p + q[..|q| - 1];
      RunAppend(acc, voltages, p, q[..|q| - 1]);
    }
  }

  /** Once a check fails, later checks keep that error. */
  lemma {:induction false} RunFailed(e: VgError, voltages: seq<int>, q: seq<BankKey>)
    ensures Run(Failure(e), voltages, q) == Failure(e)
    decreases |q|
  {
    if q != [] {
      RunFailed(e, voltages, q[..|q| - 1]);
    }
  }

  /** One module's checks (the inner loop of update_vg_registers), continuing from `bank` and `swept`. */
  method CheckRow(bank: map<BankKey, int>, swept: seq<BankKey>, voltages: seq<int>, row: seq<BankKey>)
    returns (r: Result<Progress, VgError>)
    ensures r == Run(Success(Progress(bank, swept)), voltages, row)
  {
    var b := bank;
    var s := swept;
    var j := 0;
    while j < |row|
      invariant 0 <= j <= |row|
      invariant Run(Success(Progress(bank, swept)), voltages, row[..j]) == Success(Progress(b, s))
    {
      var key := row[j];
      assert row[..j + 1][..j] == row[..j];
      if key !in b || !(0 <= key.channel < |voltages|) {
        r := if key !in b then Failure(RegisterNotFound(key)) else Failure(VoltageIndexOutOfRange(key.channel));
        assert Run(Success(Progress(bank, swept)), voltages, row[..j + 1]) == r;
        RunAppend(Success(Progress(bank, swept)), voltages, row[..j + 1], row[j + 1..]);
        RunFailed(r.error, voltages, row[j + 1..]);
        assert row[..j + 1] + row[j + 1..] == row;
        return;
      }
      if voltages[key.channel] != b[key] {
        b := b[key := voltages[key.channel]];
        s := s + [key];
      }
      j := j + 1;
    }
    assert row[..j] == row;
    r := Success(Progress(b, s));
  }

  /** The register-bank loop of update_vg_registers over `count` modules. */
  method UpdateVgRegisters(bank: map<BankKey, int>, voltages: seq<int>, n: int, count: nat)
    returns (r: Result<Progress, VgError>)
    ensures r == ApplyPlan(bank, voltages, Plan(n, count))
  {
    r := Success(Progress(bank, []));
    var m := 0;
    while m < count
      invariant 0 <= m <= count
      invariant r == ApplyPlan(bank, voltages, Plan(n, m)) && r.Success?
    {
      RunAppend(Success(Progress(bank, [])), voltages, Plan(n, m), Row(n, m));
      r := CheckRow(r.value.bank, r.value.swept, voltages, Row(n, m));
      if r.Failure? {
        PlanStaysFailed(bank, voltages, n, m + 1, count, r.error);
        return;
      }
      m := m + 1;
    }
  }

  lemma {:induction false} PlanStaysFailed(bank: map<BankKey, int>, voltages: seq<int>, n: int, m: nat, count: nat, e: VgError)
    requires m <= count
    requires ApplyPlan(bank, voltages, Plan(n, m)) == Failure(e)
    ensures ApplyPlan(bank, voltages, Plan(n, count)) == Failure(e)
    decreases count - m
  {
    if m < count {
      RunAppend(Success(Progress(bank, [])), voltages, Plan(n, m), Row(n, m));
      RunFailed(e, voltages, Row(n, m));
      PlanStaysFailed(bank, voltages, n, m + 1, count, e);
    }
  }

  // ---------------------------------------------------------------------
  // The index arithmetic

  /** A register is checked for module m when it belongs to another card and its card matches its channel. */
  predicate Checked(n: int, count: nat, k: BankKey)
  {
    && 0 <= k.owner < count
    && 0 <= k.channel < n * 4
    && k.card == k.channel / 4
    && k.card != k.owner
  }

  /**
   * For m < n the j-th check of module m is channel ((m+1)*4 + j) mod 4n of
   * card channel / 4, which is never m's own card.
   */
  lemma CheckIndex(m: int, j: int, n: int)
    requires 0 <= m < n && 0 <= j < ChecksPerModule(n)
    ensures var c := ChannelToUpdate(m, j, n);
      && 0 <= c < n * 4
      && ModuleToUpdate(m, j, n) == c / 4
      && ModuleToUpdate(m, j, n) != m
  {
    var x := (m + 1) * 4 + j;
    assert 4 * m + 4 <= x < 4 * m + 4 * n < 8 * n;
    ModWithinTwoPeriods(x, n * 4);
    ModWithinTwoPeriods(x / 4, n);
  }

  /** Which j brings module m to channel c of another card: the inverse of ChannelToUpdate. */
  function CheckOf(m: int, c: int, n: int): int
  {
    var y := c - (m + 1) * 4;
    if y >= 0 then y else y + n * 4
  }

  lemma CheckOfInverts(m: int, c: int, n: int)
    requires 0 <= m < n && 0 <= c < n * 4 && c / 4 != m
    ensures 0 <= CheckOf(m, c, n) < ChecksPerModule(n)
    ensures ChannelToUpdate(m, CheckOf(m, c, n), n) == c
  {
    var j := CheckOf(m, c, n);
    assert c < 4 * m || c >= 4 * m + 4;
    ModWithinTwoPeriods((m + 1) * 4 + j, n * 4);
  }

  /** Distinct checks of one module reach distinct channels. */
  lemma ChecksDistinct(m: int, j1: int, j2: int, n: int)
    requires 0 <= m < n && 0 <= j1 < j2 < ChecksPerModule(n)
    ensures ChannelToUpdate(m, j1, n) != ChannelToUpdate(m, j2, n)
  {
    ModWithinTwoPeriods((m + 1) * 4 + j1, n * 4);
    ModWithinTwoPeriods((m + 1) * 4 + j2, n * 4);
  }

  /**
   * With at most n modules, a register is in the plan exactly when it is
   * Checked: each module visits every channel of every other card.
   */
  lemma {:induction false} PlanCoverage(n: int, count: nat, k: BankKey)
    requires n >= 1 && count <= n
    ensures k in Plan(n, count) <==> Checked(n, count, k)
    decreases count
  {
    if count > 0 {
      PlanCoverage(n, count - 1, k);
      var m := count - 1;
      var row := Row(n, m);
      if k in row {
        var j :| 0 <= j < |row| && row[j] == k;
        CheckIndex(m, j, n);
      }
      if Checked(n, count, k) && k.owner == m {
        CheckOfInverts(m, k.channel, n);
        var j := CheckOf(m, k.channel, n);
        CheckIndex(m, j, n);
        assert row[j] == k;
      }
    }
  }

  /** Every register is checked at most once. */
  lemma {:induction false} PlanDistinct(n: int, count: nat)
    requires n >= 1 && count <= n
    ensures forall a, b :: 0 <= a < b < |Plan(n, count)| ==> Plan(n, count)[a] != Plan(n, count)[b]
    decreases count
  {
    if count > 0 {
      PlanDistinct(n, count - 1);
      var p := Plan(n, count - 1);
      var row := Row(n, count - 1);
      var q := p + row;
      forall a, b | 0 <= a < b < |q| ensures q[a] != q[b] {
        if b >= |p| {
          if a >= |p| {
            ChecksDistinct(count - 1, a - |p|, b - |p|, n);
          } else {
            PlanCoverage(n, count - 1, p[a]);
          }
        }
      }
    }
  }

  // ---------------------------------------------------------------------
  // The effect of the plan

  /** One successful check leaves the domain alone, sets the checked register to its code and keeps the rest. */
  lemma CheckEffect(acc: Result<Progress, VgError>, voltages: seq<int>, key: BankKey)
    requires Check(acc, voltages, key).Success?
    ensures acc.Success?
    ensures var p := Check(acc, voltages, key).value;
      && key in acc.value.bank && 0 <= key.channel < |voltages|
      && (forall k :: k in p.bank <==> k in acc.value.bank)
      && p.bank[key] == voltages[key.channel]
      && (forall k :: k in acc.value.bank && k != key ==> p.bank[k] == acc.value.bank[k])
      && p.swept == acc.value.swept + (if acc.value.bank[key] != voltages[key.channel] then [key] else [])
  {
  }

  /**
   * When the checks succeed, every register in the plan holds its channel's
   * code, every other register is unchanged, and every swept register is in
   * the plan.
   */
  lemma {:induction false} ApplyPlanEffect(bank: map<BankKey, int>, voltages: seq<int>, plan: seq<BankKey>)
    requires ApplyPlan(bank, voltages, plan).Success?
    ensures var p := ApplyPlan(bank, voltages, plan).value;
      && (forall k :: k in p.bank <==> k in bank)
      && (forall k :: k in plan ==> k in p.bank && 0 <= k.channel < |voltages| && p.bank[k] == voltages[k.channel])
      && (forall k :: k in bank && k !in plan ==> p.bank[k] == bank[k])
      && (forall i :: 0 <= i < |p.swept| ==> p.swept[i] in plan)
    decreases |plan|
  {
    if plan != [] {
      var prefix := plan[..|plan| - 1];
      var last := plan[|plan| - 1];
      CheckEffect(ApplyPlan(bank, voltages, prefix), voltages, last);
      ApplyPlanEffect(bank, voltages, prefix);
      assert plan == prefix + [last];
      forall k | k in plan ensures k in prefix || k == last { }
    }
  }

  /** With distinct checks, a register is swept exactly when its original value differs from the code. */
  lemma {:induction false} ApplyPlanSweeps(bank: map<BankKey, int>, voltages: seq<int>, plan: seq<BankKey>)
    requires ApplyPlan(bank, voltages, plan).Success?
    requires forall a, b :: 0 <= a < b < |plan| ==> plan[a] != plan[b]
    ensures var p := ApplyPlan(bank, voltages, plan).value;
      forall k :: k in plan ==> k in bank && 0 <= k.channel < |voltages| && (k in p.swept <==> bank[k] != voltages[k.channel])
    decreases |plan|
  {
    if plan != [] {
      var prefix := plan[..|plan| - 1];
      var last := plan[|plan| - 1];
      CheckEffect(ApplyPlan(bank, voltages, prefix), voltages, last);
      ApplyPlanSweeps(bank, voltages, prefix);
      ApplyPlanEffect(bank, voltages, prefix);
      assert plan == prefix + [last];
      assert last !in prefix;
      forall k | k in plan ensures k in prefix || k == last { }
    }
  }

  /** The plan succeeds exactly when every register it checks exists and every channel has a code. */
  lemma {:induction false} ApplyPlanSucceeds(bank: map<BankKey, int>, voltages: seq<int>, plan: seq<BankKey>)
    ensures ApplyPlan(bank, voltages, plan).Success?
        <==> forall k :: k in plan ==> k in bank && 0 <= k.channel < |voltages|
    decreases |plan|
  {
    if plan != [] {
      var prefix := plan[..|plan| - 1];
      var last := plan[|plan| - 1];
      ApplyPlanSucceeds(bank, voltages, prefix);
      assert plan == prefix + [last];
      forall k | k in plan ensures k in prefix || k == last { }
      if ApplyPlan(bank, voltages, prefix).Success? {
        ApplyPlanEffect(bank, voltages, prefix);
      }
    }
  }

  /**
   * With at most n modules: the loop succeeds exactly when every Checked
   * register exists and every channel has a code; it then leaves every
   * Checked register holding its channel's code, changes no other register,
   * and sweeps exactly the Checked registers that disagreed with the code.
   */
  lemma UpdateVgRegistersCorrect(bank: map<BankKey, int>, voltages: seq<int>, n: int, count: nat)
    requires n >= 1 && count <= n
    ensures var r := ApplyPlan(bank, voltages, Plan(n, count));
      && (r.Success? <==> forall k :: Checked(n, count, k) ==> k in bank && k.channel < |voltages|)
      && (r.Success? ==>
            && (forall k :: k in r.value.bank <==> k in bank)
            && (forall k :: Checked(n, count, k) ==> k in r.value.bank && r.value.bank[k] == voltages[k.channel])
            && (forall k :: k in bank && !Checked(n, count, k) ==> r.value.bank[k] == bank[k])
            && (forall k :: k in r.value.swept <==> Checked(n, count, k) && bank[k] != voltages[k.channel]))
  {
    var plan := Plan(n, count);
    forall k ensures k in plan <==> Checked(n, count, k) {
      PlanCoverage(n, count, k);
    }
    ApplyPlanSucceeds(bank, voltages, plan);
    var r := ApplyPlan(bank, voltages, plan);
    if r.Success? {
      ApplyPlanEffect(bank, voltages, plan);
      PlanDistinct(n, count);
      ApplyPlanSweeps(bank, voltages, plan);
      forall k | k in r.value.swept ensures k in plan {
        var i :| 0 <= i < |r.value.swept| && r.value.swept[i] == k;
      }
    }
  }

  // ---------------------------------------------------------------------
  // The HVI sweep registers

  /**
   * The first loop of update_vg_registers: in the scope of every virtual-gate
   * engine, the 1D and 2D voltage registers receive the codes read from the
   * main and secondary AWG channels.
   */
  method WriteSweepRegisters(
    regs: map<(string, string), int>, engines: seq<string>,
    voltage1dName: string, voltage2dName: string, v1d: int, v2d: int)
    returns (out: map<(string, string), int>)
    requires voltage1dName != voltage2dName
    ensures forall e :: e in engines ==>
      (e, voltage1dName) in out && out[(e, voltage1dName)] == v1d &&
      (e, voltage2dName) in out && out[(e, voltage2dName)] == v2d
    ensures forall k :: k in regs && k.0 !in engines ==> k in out && out[k] == regs[k]
    ensures forall k :: k in regs && k.1 != voltage1dName && k.1 != voltage2dName ==> k in out && out[k] == regs[k]
    ensures forall k :: k in out ==> k in regs || (k.0 in engines && (k.1 == voltage1dName || k.1 == voltage2dName))
  {
    out := regs;
    var i := 0;
    while i < |engines|
      invariant 0 <= i <= |engines|
      invariant forall e :: e in engines[..i] ==>
        (e, voltage1dName) in out && out[(e, voltage1dName)] == v1d &&
        (e, voltage2dName) in out && out[(e, voltage2dName)] == v2d
      invariant forall k :: k in regs && k.0 !in engines[..i] ==> k in out && out[k] == regs[k]
      invariant forall k :: k in regs && k.1 != voltage1dName && k.1 != voltage2dName ==> k in out && out[k] == regs[k]
      invariant forall k :: k in out ==> k in regs || (k.0 in engines[..i] && (k.1 == voltage1dName || k.1 == voltage2dName))
    {
      assert engines[..i + 1] == engines[..i] + [engines[i]];
      out := out[(engines[i], voltage1dName) := v1d][(engines[i], voltage2dName) := v2d];
      i := i + 1;
    }
    assert engines[..i] == engines;
  }
}
