// The group 1 actions of src/nes/cpu/exec_core_g1.rs.  Each action receives
// the operand byte the addressing routine fetched, updates the register file
// in place and returns the byte an addressing routine with Memory
// destination would store (only STA returns a meaningful value).
module ExecCoreG1 {
  import opened ExecuterTypes
  import opened Cpu

  /** The actions of this group. */
  predicate IsGroupOne(core: CoreFn)
  {
    core.Ora? || core.And? || core.Eor? || core.Adc? || core.Sta? ||
    core.Lda? || core.Cmp? || core.Sbc? || core.Ldx?
  }

  /** What a group 1 action does: its new register file and the byte it
      returns.  Only A, X and P can change; STA changes nothing and returns
      A, every other action returns 0; only LDX writes X. */
  function GroupOneEffect(core: CoreFn, r: Regs, val: bv8): (res: (Regs, bv8))
    requires IsGroupOne(core)
    ensures res.0.y == r.y && res.0.s == r.s && res.0.pc == r.pc
    ensures core.Sta? ==> res == (r, r.a)
    ensures !core.Sta? ==> res.1 == 0
    ensures !core.Ldx? ==> res.0.x == r.x
  {
    match core
    case Ora => (WithA(r, r.a | val), 0)
    case And => (WithA(r, r.a & val), 0)
    case Eor => (WithA(r, r.a ^ val), 0)
    case Adc => (AddResult(r, val), 0)
    case Sta => (r, r.a)
    case Lda => (WithA(r, val), 0)
    case Cmp => (CmpResult(r, val), 0)
    case Sbc => (SubResult(r, val), 0)
    case Ldx => (WithX(r, val), 0)
  }

  /** A group 1 action on the whole CPU state: only the registers change. */
  function GroupOneCall(core: CoreFn, m: Machine, val: bv8): (Machine, bv8)
    requires IsGroupOne(core)
  {
    var res := GroupOneEffect(core, m.regs, val);
    (m.(regs := res.0), res.1)
  }

  /** Calls the group 1 action named by `core`. */
  method CallGroupOne(cpu: Cpu, core: CoreFn, val: bv8) returns (r: bv8)
    requires IsGroupOne(core)
    modifies cpu.regs
    ensures (cpu.Snapshot(), r) == GroupOneCall(core, old(cpu.Snapshot()), val)
  {
    match core
    case Ora => r := OraAction(cpu, val);
    case And => r := AndAction(cpu, val);
    case Eor => r := EorAction(cpu, val);
    case Adc => r := AdcAction(cpu, val);
    case Sta => r := StaAction(cpu, val);
    case Lda => r := LdaAction(cpu, val);
    case Cmp => r := CmpAction(cpu, val);
    case Sbc => r := SbcAction(cpu, val);
    case Ldx => r := LdxAction(cpu, val);
  }

  /** ORA: A := A | val, N and Z from the new A. */
  method OraAction(cpu: Cpu, val: bv8) returns (r: bv8)
    modifies cpu.regs
    ensures (cpu.regs.View(), r) == GroupOneEffect(Ora, old(cpu.regs.View()), val)
    ensures cpu.regs.View() == WithA(old(cpu.regs.View()), old(cpu.regs.a) | val)
    ensures r == 0
  {
    cpu.regs.ASet(cpu.regs.a | val);
    r := 0;
  }

  /** AND: A := A & val, N and Z from the new A. */
  method AndAction(cpu: Cpu, val: bv8) returns (r: bv8)
    modifies cpu.regs
    ensures (cpu.regs.View(), r) == GroupOneEffect(And, old(cpu.regs.View()), val)
    ensures cpu.regs.View() == WithA(old(cpu.regs.View()), old(cpu.regs.a) & val)
    ensures r == 0
  {
    cpu.regs.ASet(cpu.regs.a & val);
    r := 0;
  }

  /** EOR: A := A ^ val, N and Z from the new A. */
  method EorAction(cpu: Cpu, val: bv8) returns (r: bv8)
    modifies cpu.regs
    ensures (cpu.regs.View(), r) == GroupOneEffect(Eor, old(cpu.regs.View()), val)
    ensures cpu.regs.View() == WithA(old(cpu.regs.View()), old(cpu.regs.a) ^ val)
    ensures r == 0
  {
    cpu.regs.ASet(cpu.regs.a ^ val);
    r := 0;
  }

  /** ADC: exactly `a_add(val)`. */
  method AdcAction(cpu: Cpu, val: bv8) returns (r: bv8)
    modifies cpu.regs
    ensures (cpu.regs.View(), r) == GroupOneEffect(Adc, old(cpu.regs.View()), val)
    ensures cpu.regs.View() == AddResult(old(cpu.regs.View()), val)
    ensures r == 0
  {
    cpu.regs.AAdd(val);
    r := 0;
  }

  /** STA: hands A to the addressing routine and changes nothing. */
  method StaAction(cpu: Cpu, val: bv8) returns (r: bv8)
    ensures (cpu.regs.View(), r) == GroupOneEffect(Sta, old(cpu.regs.View()), val)
    ensures r == cpu.regs.a
  {
    r := cpu.regs.a;
  }

  /** LDA: A := val, N and Z from it. */
  method LdaAction(cpu: Cpu, val: bv8) returns (r: bv8)
    modifies cpu.regs
    ensures (cpu.regs.View(), r) == GroupOneEffect(Lda, old(cpu.regs.View()), val)
    ensures cpu.regs.View() == WithA(old(cpu.regs.View()), val)
    ensures r == 0
  {
    cpu.regs.ASet(val);
    r := 0;
  }

  /** CMP: exactly `a_cmp(val)`. */
  method CmpAction(cpu: Cpu, val: bv8) returns (r: bv8)
    modifies cpu.regs
    ensures (cpu.regs.View(), r) == GroupOneEffect(Cmp, old(cpu.regs.View()), val)
    ensures cpu.regs.View() == CmpResult(old(cpu.regs.View()), val)
    ensures r == 0
  {
    cpu.regs.ACmp(val);
    r := 0;
  }

  /** SBC: exactly `a_sub(val)`. */
  method SbcAction(cpu: Cpu, val: bv8) returns (r: bv8)
    modifies cpu.regs
    ensures (cpu.regs.View(), r) == GroupOneEffect(Sbc, old(cpu.regs.View()), val)
    ensures cpu.regs.View() == SubResult(old(cpu.regs.View()), val)
    ensures r == 0
  {
    cpu.regs.ASub(val);
    r := 0;
  }

  /** LDX: X := val, N and Z from it. */
  method LdxAction(cpu: Cpu, val: bv8) returns (r: bv8)
    modifies cpu.regs
    ensures (cpu.regs.View(), r) == GroupOneEffect(Ldx, old(cpu.regs.View()), val)
    ensures cpu.regs.View() == WithX(old(cpu.regs.View()), val)
    ensures r == 0
  {
    cpu.regs.XSet(val);
    r := 0;
  }
}
