// The per-cycle state machines of src/nes/cpu/cpu_state.rs and the clock
// step of src/nes/cpu.rs that drives them: `exec_step` runs one cycle of
// the instruction in flight, `int_step` one cycle of the seven-cycle
// interrupt sequence (reset, NMI, IRQ or BRK), and `step` advances the
// clock, runs whichever of the two `fn_step` names and then polls for
// interrupts.
module CpuState {
  import opened Util
  import opened ExecuterTypes
  import opened Cpu
  import opened ExecuterRoutines

  // Interrupt vectors: where the handler's address is stored.
  const ADDR_INT_NMI: bv16 := 0xFFFA
  const ADDR_INT_RESET: bv16 := 0xFFFC
  const ADDR_INT_IRQ: bv16 := 0xFFFE

  // ---------------------------------------------------------------------
  // The interrupt sequence, cycle by cycle
  // ---------------------------------------------------------------------

  /** The kind of interrupt cycle 1 records: reset before NMI before IRQ,
      and an IRQ raised by BRK is recorded as BRK.  With no line raised the
      recorded kind stays as it was. */
  function ChosenInt(m: Machine): (t: IntType)
    ensures m.resetTrigger ==> t == Reset
    ensures !m.resetTrigger && m.nmiTrigger ==> t == Nmi
    ensures !m.resetTrigger && !m.nmiTrigger && m.irqTrigger ==> t == (if m.irqIsBrake then Brk else Irq)
    ensures !m.resetTrigger && !m.nmiTrigger && !m.irqTrigger ==> t == m.state.intType
  {
    if m.resetTrigger then Reset
    else if m.nmiTrigger then Nmi
    else if m.irqTrigger then (if m.irqIsBrake then Brk else Irq)
    else m.state.intType
  }

  /** Cycle 1: polling off, I set, the kind recorded, every line cleared. */
  function IntSelect(m: Machine): Machine
  {
    TriggersCleared(m.(polling := false,
                       regs := m.regs.(p := SetFlags(m.regs.p, INT_DISABLE)),
                       state := m.state.(intType := ChosenInt(m))))
  }

  /** Cycle 2: BRK skips the byte after its opcode (PC + 1, wrapping). */
  function IntBrkSkip(m: Machine): Machine
  {
    if m.state.intType == Brk then m.(regs := m.regs.(pc := m.regs.pc + 1)) else m
  }

  /** The status byte pushed on cycle 5: P with bit 4 (B) set for BRK only. */
  function PushedStatus(p: bv8, t: IntType): (b: bv8)
    ensures b & !BREAK == p & !BREAK
    ensures t == Brk ==> b & BREAK != 0
    ensures t != Brk ==> b == p
  {
    p | (if t == Brk then BREAK else 0)
  }

  /** Cycles 3, 4 and 5: push PC's high byte, its low byte, then the
      status byte; a reset pushes nothing. */
  function IntPush(m: Machine, data: bv8): Machine
  {
    if m.state.intType != Reset then StackPush(m, data) else m
  }

  /** The vector of an interrupt kind. */
  function VectorOf(t: IntType): (v: bv16)
    requires !t.IntNone?
    ensures v == ADDR_INT_RESET || v == ADDR_INT_NMI || v == ADDR_INT_IRQ
    ensures t == Reset <==> v == ADDR_INT_RESET
    ensures t == Nmi <==> v == ADDR_INT_NMI
  {
    match t
    case Reset => ADDR_INT_RESET
    case Nmi => ADDR_INT_NMI
    case Irq => ADDR_INT_IRQ
    case Brk => ADDR_INT_IRQ
  }

  /** The handler address stored at vector `v`, low byte first. */
  function VectorTarget(mem: Memory, v: bv16): bv16
  {
    MakeAddr(mem(v + 1), mem(v))
  }

  /** Cycle 7: PC := the handler address, then the CPU goes back to
      executing instructions (polling stays off until one finishes). */
  function IntJump(m: Machine): Machine
    requires !m.state.intType.IntNone?
  {
    var target := VectorTarget(m.mem, VectorOf(m.state.intType));
    ExecStateEntered(m.(regs := m.regs.(pc := target)))
  }

  /** The cycles `int_step` handles: 1 to 7, and a kind on record by the
      last one (the other cases are `unreachable!()`). */
  predicate IntReady(m: Machine)
  {
    1 <= m.state.counter <= 7 && (m.state.counter == 7 ==> !m.state.intType.IntNone?)
  }

  /** `int_step`: one cycle of the interrupt sequence. */
  function IntCycle(m: Machine): Machine
    requires IntReady(m)
  {
    match m.state.counter
    case 1 => IntSelect(m)
    case 2 => IntBrkSkip(m)
    case 3 => IntPush(m, HighByte(m.regs.pc))
    case 4 => IntPush(m, LowByte(m.regs.pc))
    case 5 => IntPush(m, PushedStatus(m.regs.p, m.state.intType))
    case 6 => m
    case 7 => IntJump(m)
  }

  // ---------------------------------------------------------------------
  // The instruction cycle and the clock step
  // ---------------------------------------------------------------------

  /** The cycles `exec_step` handles: the opcode cycle, or a cycle the
      routine of the instruction in flight handles. */
  predicate ExecReady(m: Machine)
  {
    m.state.counter == 1 || RoutineReady(m)
  }

  /** `exec_step`: on cycle 1 polling stops and the decoder fetches the
      opcode and installs its executer; later cycles run that executer's
      routine. */
  function ExecCycle(m: Machine, u: Externals): Machine
    requires ExecReady(m)
  {
    if m.state.counter == 1 then
      var (m1, ex) := u.fetchAndDecode(m.(polling := false));
      m1.(state := m1.state.(executer := ex))
    else RoutineCycle(m, u)
  }

  /** The states `step` handles: those whose next cycle the routine named
      by `fn_step` handles. */
  predicate StepReady(m: Machine)
  {
    match m.fnStep
    case IntStep => IntReady(Ticked(m))
    case ExecStep => ExecReady(Ticked(m))
  }

  /** `step`: clock and cycle counter advance, the routine named by
      `fn_step` runs, and then `check_int` polls for interrupts. */
  function StepCycle(m: Machine, u: Externals): Machine
    requires StepReady(m)
  {
    match m.fnStep
    case IntStep => IntChecked(IntCycle(Ticked(m)))
    case ExecStep => IntChecked(ExecCycle(Ticked(m), u))
  }

  // ---------------------------------------------------------------------
  // The interrupt sequence: what it promises
  // ---------------------------------------------------------------------

  /** Cycle 1 of the sequence, as `step` runs it: the kind is recorded by
      priority, polling goes off, I is set, every line is cleared, and
      nothing else changes. */
  lemma InterruptEntry(m: Machine, u: Externals)
    requires m.fnStep == IntStep && m.state.counter == 0
    ensures StepReady(m)
    ensures var m1 := StepCycle(m, u);
      && m1.state == m.state.(counter := 1, intType := ChosenInt(m))
      && !m1.polling && m1.fnStep == IntStep
      && !m1.resetTrigger && !m1.nmiTrigger && !m1.irqTrigger && !m1.irqIsBrake
      && m1.regs == m.regs.(p := SetFlags(m.regs.p, INT_DISABLE))
      && m1.mem == m.mem && m1.clockCounter == m.clockCounter + 1
  {
    var t := Ticked(m);
    assert IntCycle(t) == IntSelect(t);
    assert ChosenInt(t) == ChosenInt(m);
  }

  /** Cycle 2: BRK moves PC one further; every other kind leaves it, and
      nothing else changes beyond the clock and the cycle counter. */
  lemma BrkSkipsPadding(m: Machine, u: Externals)
    requires m.fnStep == IntStep && m.state.counter == 1 && !m.polling
    ensures StepReady(m)
    ensures StepCycle(m, u) ==
      if m.state.intType == Brk then Ticked(m).(regs := m.regs.(pc := m.regs.pc + 1))
      else Ticked(m)
  {
    var t := Ticked(m);
    assert IntCycle(t) == IntBrkSkip(t);
  }

  /** One interrupt cycle as `step` runs it, while polling is off. */
  function IntStepCycle(m: Machine): Machine
    requires IntReady(Ticked(m))
  {
    IntCycle(Ticked(m))
  }

  /** With polling off, `check_int` changes nothing, so a step of the
      sequence is just its cycle. */
  lemma QuietStep(m: Machine, u: Externals)
    requires m.fnStep == IntStep && IntReady(Ticked(m))
    requires !IntCycle(Ticked(m)).polling
    ensures StepReady(m) && StepCycle(m, u) == IntStepCycle(m)
  {
  }

  /** The byte cycle 3, 4 or 5 of an NMI, IRQ or BRK pushes. */
  function PushedByte(m: Machine): bv8
    requires 3 <= m.state.counter <= 5
  {
    if m.state.counter == 3 then HighByte(m.regs.pc)
    else if m.state.counter == 4 then LowByte(m.regs.pc)
    else PushedStatus(m.regs.p, m.state.intType)
  }

  /** Cycles 3, 4 and 5 of an NMI, IRQ or BRK each push one byte. */
  lemma PushCycle(m: Machine)
    requires 3 <= m.state.counter <= 5 && m.state.intType != Reset
    ensures IntReady(m)
    ensures IntCycle(m) == m.(mem := Store(m.mem, StackAddr(m.regs.s), PushedByte(m)),
                              regs := m.regs.(s := m.regs.s - 1))
  {
    assert IntCycle(m) == IntPush(m, PushedByte(m));
  }

  /** Three stack slots in a row going down are three different addresses. */
  lemma StackSlotsDistinct(s: bv8)
    ensures StackAddr(s - 1) != StackAddr(s)
    ensures StackAddr(s - 2) != StackAddr(s)
    ensures StackAddr(s - 2) != StackAddr(s - 1)
  {
    assert LowByte(StackAddr(s - 1)) != LowByte(StackAddr(s));
    assert LowByte(StackAddr(s - 2)) != LowByte(StackAddr(s));
    assert LowByte(StackAddr(s - 2)) != LowByte(StackAddr(s - 1));
  }

  /** Cycles 3 to 5 of an NMI, IRQ or BRK: PC's high byte, its low byte
      and the status byte are written to three consecutive stack slots going
      down (see StackSlotsDistinct), S drops by 3 (wrapping), and nothing
      else changes beyond the clock and the cycle counter. */
  lemma InterruptPushes(m: Machine)
    requires m.state.counter == 2 && (m.state.intType == Nmi || m.state.intType == Irq || m.state.intType == Brk)
    ensures IntReady(Ticked(m))
    ensures var m3 := IntStepCycle(m);
      IntReady(Ticked(m3)) &&
      var m4 := IntStepCycle(m3);
      IntReady(Ticked(m4)) &&
      var s := m.regs.s;
      IntStepCycle(m4) == m.(
        mem := Store(Store(Store(m.mem, StackAddr(s), HighByte(m.regs.pc)),
                           StackAddr(s - 1), LowByte(m.regs.pc)),
                     StackAddr(s - 2), PushedStatus(m.regs.p, m.state.intType)),
        regs := m.regs.(s := s - 3),
        clockCounter := m.clockCounter + 3,
        state := m.state.(counter := 5))
  {
    PushCycle(Ticked(m));
    PushCycle(Ticked(IntStepCycle(m)));
    PushCycle(Ticked(IntStepCycle(IntStepCycle(m))));
  }

  /** Cycles 3 to 5 of a reset: neither the stack nor S is touched. */
  lemma ResetSkipsPushes(m: Machine)
    requires m.state.counter == 2 && m.state.intType == Reset
    ensures IntReady(Ticked(m))
    ensures var m3 := IntStepCycle(m);
      IntReady(Ticked(m3)) &&
      var m4 := IntStepCycle(m3);
      IntReady(Ticked(m4)) &&
      var m5 := IntStepCycle(m4);
      m5 == m.(clockCounter := m.clockCounter + 3, state := m.state.(counter := 5))
  {
  }

  /** Cycles 6 and 7: PC is loaded from the vector of the recorded kind,
      low byte first, and the CPU goes back to executing instructions with
      a fresh scratch state; memory and the other registers are kept. */
  lemma InterruptVector(m: Machine)
    requires m.state.counter == 5 && !m.state.intType.IntNone?
    ensures IntReady(Ticked(m))
    ensures var m6 := IntStepCycle(m);
      IntReady(Ticked(m6)) &&
      var m7 := IntStepCycle(m6);
      var v := VectorOf(m.state.intType);
      && m7.regs == m.regs.(pc := MakeAddr(m.mem(v + 1), m.mem(v)))
      && m7.fnStep == ExecStep && m7.state == DEFAULT_STATE
      && m7 == m.(regs := m7.regs, fnStep := ExecStep, state := DEFAULT_STATE, clockCounter := m.clockCounter + 2)
  {
    var m6 := IntStepCycle(m);
    assert m6 == Ticked(m);
    assert IntStepCycle(m6) == IntJump(Ticked(m6));
  }

  /** Past the opcode cycle, `exec_step` only calls the routine of the
      executer in flight: with the dummy routine (the default executer)
      and polling off, a step just advances the clock and the cycle
      counter, so the routine never finishes the instruction.  Only the
      wrap of the `u8` counter from 255 to 0 ends the run: two steps later
      the counter is 1 again and the decoder fetches the next opcode. */
  lemma DummyRoutineNeverFinishes(m: Machine, u: Externals)
    requires m.fnStep == ExecStep && m.state.counter >= 1 && !m.polling
    requires m.state.executer.fnExec == FnDummy
    ensures StepReady(m) && StepCycle(m, u) == Ticked(m)
    ensures StepCycle(m, u).state.counter == (m.state.counter + 1) % 0x100 && !StepCycle(m, u).polling
    ensures m.state.counter == 0xFF ==> StepCycle(m, u).state.counter == 0
  {
  }

  /** The dummy routine at counter 255: the counter wraps to 0, and the
      step after that is cycle 1 again, where `exec_step` hands the CPU to
      the decoder. */
  lemma DummyRoutineWraps(m: Machine, u: Externals)
    requires m.fnStep == ExecStep && m.state.counter == 0xFF && !m.polling
    requires m.state.executer.fnExec == FnDummy
    ensures var m1 := StepCycle(m, u);
            m1.state.counter == 0 && StepReady(m1) &&
            StepCycle(m1, u) == IntChecked(ExecCycle(Ticked(m1), u)) &&
            Ticked(m1).state.counter == 1
  {
    DummyRoutineNeverFinishes(m, u);
  }

  // ---------------------------------------------------------------------
  // The methods
  // ---------------------------------------------------------------------

  /** `int_step` on the CPU object. */
  method IntStepRun(cpu: Cpu)
    requires IntReady(cpu.Snapshot())
    modifies cpu, cpu.regs
    ensures cpu.Snapshot() == IntCycle(old(cpu.Snapshot()))
  {
    match cpu.state.counter
    case 1 => IntSelectRun(cpu);
    case 2 => IntBrkSkipRun(cpu);
    case 3 => IntPushHighRun(cpu);
    case 4 => IntPushLowRun(cpu);
    case 5 => IntPushStatusRun(cpu);
    case 6 =>
    case 7 => IntJumpRun(cpu);
  }

  /** Cycle 2 on the CPU object. */
  method IntBrkSkipRun(cpu: Cpu)
    requires cpu.state.counter == 2
    modifies cpu.regs
    ensures cpu.Snapshot() == IntCycle(old(cpu.Snapshot()))
  {
    if cpu.state.intType == Brk {
      cpu.regs.pc := cpu.regs.pc + 1;
    }
  }

  /** Cycle 3 on the CPU object. */
  method IntPushHighRun(cpu: Cpu)
    requires cpu.state.counter == 3
    modifies cpu, cpu.regs
    ensures cpu.Snapshot() == IntCycle(old(cpu.Snapshot()))
  {
    if cpu.state.intType != Reset {
      cpu.PushStack(((cpu.regs.pc >> 8) & 0x00FF) as bv8);
    }
  }

  /** Cycle 4 on the CPU object. */
  method IntPushLowRun(cpu: Cpu)
    requires cpu.state.counter == 4
    modifies cpu, cpu.regs
    ensures cpu.Snapshot() == IntCycle(old(cpu.Snapshot()))
  {
    if cpu.state.intType != Reset {
      cpu.PushStack((cpu.regs.pc & 0x00FF) as bv8);
    }
  }

  /** Cycle 5 on the CPU object. */
  method IntPushStatusRun(cpu: Cpu)
    requires cpu.state.counter == 5
    modifies cpu, cpu.regs
    ensures cpu.Snapshot() == IntCycle(old(cpu.Snapshot()))
  {
    if cpu.state.intType != Reset {
      var brkFlag: bv8 := (if cpu.state.intType == Brk then 1 else 0) << 4;
      var flags := cpu.regs.p | brkFlag;
      cpu.PushStack(flags);
    }
  }

  /** Cycle 1 on the CPU object. */
  method IntSelectRun(cpu: Cpu)
    requires cpu.state.counter == 1
    modifies cpu, cpu.regs
    ensures cpu.Snapshot() == IntSelect(old(cpu.Snapshot()))
  {
    cpu.intPollingEnabled := false;
    cpu.regs.FlagsOn(INT_DISABLE);
    if cpu.resetTrigger {
      cpu.state := cpu.state.(intType := Reset);
    } else if cpu.nmiTrigger {
      cpu.state := cpu.state.(intType := Nmi);
    } else if cpu.irqTrigger {
      if cpu.irqIsBrake {
        cpu.state := cpu.state.(intType := Brk);
      } else {
        cpu.state := cpu.state.(intType := Irq);
      }
    }
    cpu.ClearAllIntTrigger();
  }

  /** Cycle 7 on the CPU object. */
  method IntJumpRun(cpu: Cpu)
    requires cpu.state.counter == 7 && !cpu.state.intType.IntNone?
    modifies cpu, cpu.regs
    ensures cpu.Snapshot() == IntJump(old(cpu.Snapshot()))
  {
    var vecAddr := match cpu.state.intType
      case Reset => ADDR_INT_RESET
      case Nmi => ADDR_INT_NMI
      case Irq => ADDR_INT_IRQ
      case Brk => ADDR_INT_IRQ;
    var low := cpu.mem(vecAddr);
    var high := cpu.mem(vecAddr + 1);
    cpu.regs.pc := MakeAddr(high, low);
    cpu.SwitchStateExec();
  }

  /** `exec_step` on the CPU object. */
  method ExecStepRun(cpu: Cpu, u: Externals)
    requires ExecReady(cpu.Snapshot())
    modifies cpu, cpu.regs
    ensures cpu.Snapshot() == ExecCycle(old(cpu.Snapshot()), u)
  {
    if cpu.state.counter == 1 {
      cpu.intPollingEnabled := false;
      var (m1, ex) := u.fetchAndDecode(cpu.Snapshot());
      cpu.Load(m1.(state := m1.state.(executer := ex)));
    } else {
      CallExec(cpu, u);
    }
  }

  /** `Cpu::step`. */
  method Step(cpu: Cpu, u: Externals)
    requires StepReady(cpu.Snapshot())
    modifies cpu, cpu.regs
    ensures cpu.Snapshot() == StepCycle(old(cpu.Snapshot()), u)
  {
    cpu.clockCounter := cpu.clockCounter + 1;
    cpu.state := cpu.state.(counter := (cpu.state.counter + 1) % 0x100);
    match cpu.fnStep {
      case IntStep => IntStepRun(cpu);
      case ExecStep => ExecStepRun(cpu, u);
    }
    cpu.CheckInt();
  }
}
