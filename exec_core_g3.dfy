// The group 3 actions of src/nes/cpu/exec_core_g3.rs: stack pushes and
// pulls, register transfers, increments and decrements, and the flag
// set/clear instructions.  Every one of them returns 0.
module ExecCoreG3 {
  import opened ExecuterTypes
  import opened Cpu

  /** The actions of this group. */
  predicate IsGroupThree(core: CoreFn)
  {
    core.Jsr? || core.Rti? || core.Rts? || core.Php? || core.Plp? || core.Pha? ||
    core.Pla? || core.Dey? || core.Tay? || core.Iny? || core.Inx? || core.Clc? ||
    core.Sec? || core.Cli? || core.Sei? || core.Tya? || core.Clv? || core.Cld? ||
    core.Sed? || core.Txa? || core.Txs? || core.Tax? || core.Tsx? || core.Dex? ||
    core.Nop?
  }

  /** The actions that push or read the stack. */
  predicate IsStackOp(core: CoreFn)
  {
    core.Php? || core.Plp? || core.Pha? || core.Pla?
  }

  /** The transfers: one register copied into another. */
  predicate IsTransfer(core: CoreFn)
  {
    core.Tay? || core.Tya? || core.Txa? || core.Txs? || core.Tax? || core.Tsx?
  }

  /** The increments and decrements. */
  predicate IsCount(core: CoreFn)
  {
    core.Dey? || core.Iny? || core.Inx? || core.Dex?
  }

  /** The flag instructions: each sets or clears one bit of P. */
  predicate IsFlagOp(core: CoreFn)
  {
    core.Clc? || core.Sec? || core.Cli? || core.Sei? || core.Clv? ||
    core.Cld? || core.Sed?
  }

  /** PHP, PLP, PHA, PLA.  The pushes move S; the pulls only read the slot S
      points to, because the pull routine has already moved S. */
  function StackEffect(core: CoreFn, m: Machine): Machine
    requires IsStackOp(core)
  {
    match core
    case Php => StackPush(m, m.regs.p)
    case Plp => m.(regs := m.regs.(p := StackTop(m)))
    case Pha => StackPush(m, m.regs.a)
    case Pla => m.(regs := WithA(m.regs, StackTop(m)))
  }

  /** The register file after a transfer.  TXS alone leaves P alone; the
      others take N and Z from the value copied. */
  function TransferEffect(core: CoreFn, r: Regs): Regs
    requires IsTransfer(core)
  {
    match core
    case Tay => r.(y := r.a, p := NZFrom(r.p, r.a))
    case Tya => WithA(r, r.y)
    case Txa => WithA(r, r.x)
    case Txs => r.(s := r.x)
    case Tax => WithX(r, r.a)
    case Tsx => WithX(r, r.s)
  }

  /** The register file after an increment or decrement (wrapping).  INY is
      modelled as written: the incremented Y lands in X and N and Z come
      from the old Y. */
  function CountEffect(core: CoreFn, r: Regs): Regs
    requires IsCount(core)
  {
    match core
    case Dey => r.(y := r.y - 1, p := NZFrom(r.p, r.y - 1))
    case Iny => r.(x := r.y + 1, p := NZFrom(r.p, r.y))
    case Inx => WithX(r, r.x + 1)
    case Dex => WithX(r, r.x - 1)
  }

  /** The bit of P a flag instruction works on. */
  function FlagMask(core: CoreFn): bv8
    requires IsFlagOp(core)
  {
    match core
    case Clc => CARRY
    case Sec => CARRY
    case Cli => INT_DISABLE
    case Sei => INT_DISABLE
    case Clv => OVERFLOW
    case Cld => DECIMAL
    case Sed => DECIMAL
  }

  /** Whether a flag instruction sets its bit (SEC, SEI, SED) or clears it. */
  predicate FlagSets(core: CoreFn)
    requires IsFlagOp(core)
  {
    core.Sec? || core.Sei? || core.Sed?
  }

  /** P after a flag instruction. */
  function FlagEffect(core: CoreFn, p: bv8): bv8
    requires IsFlagOp(core)
  {
    match core
    case Clc => ClearFlags(p, CARRY)
    case Sec => SetFlags(p, CARRY)
    case Cli => ClearFlags(p, INT_DISABLE)
    case Sei => SetFlags(p, INT_DISABLE)
    case Clv => ClearFlags(p, OVERFLOW)
    case Cld => ClearFlags(p, DECIMAL)
    case Sed => SetFlags(p, DECIMAL)
  }

  /** A flag instruction gives its bit the value it names and keeps the
      other seven. */
  lemma FlagEffectSpec(core: CoreFn, p: bv8)
    requires IsFlagOp(core)
    ensures (FlagEffect(core, p) & FlagMask(core) != 0) <==> FlagSets(core)
    ensures FlagEffect(core, p) & !FlagMask(core) == p & !FlagMask(core)
  {
  }

  /** A transfer moves S only for TXS and keeps PC; it copies the source
      register into the destination one. */
  lemma TransferEffectFrame(core: CoreFn, r: Regs)
    requires IsTransfer(core)
    ensures !core.Txs? ==> TransferEffect(core, r).s == r.s
    ensures TransferEffect(core, r).pc == r.pc
  {
  }

  /** An increment or decrement keeps S, A and PC. */
  lemma CountEffectFrame(core: CoreFn, r: Regs)
    requires IsCount(core)
    ensures var r' := CountEffect(core, r); r'.s == r.s && r'.a == r.a && r'.pc == r.pc
  {
  }

  /** What a group 3 action does to the CPU state.  JSR, RTI, RTS and NOP
      do nothing here (their addressing routines do the work). */
  function GroupThreeEffect(core: CoreFn, m: Machine): Machine
    requires IsGroupThree(core)
  {
    if IsStackOp(core) then StackEffect(core, m)
    else if IsTransfer(core) then m.(regs := TransferEffect(core, m.regs))
    else if IsCount(core) then m.(regs := CountEffect(core, m.regs))
    else if IsFlagOp(core) then m.(regs := m.regs.(p := FlagEffect(core, m.regs.p)))
    else m
  }

  /** A group 3 action changes at most the registers and memory; only PHP
      and PHA write memory, and only they and TXS move S. */
  lemma GroupThreeFrame(core: CoreFn, m: Machine)
    requires IsGroupThree(core)
    ensures var res := GroupThreeEffect(core, m);
      && res == m.(regs := res.regs, mem := res.mem)
      && (!(core.Php? || core.Pha?) ==> res.mem == m.mem)
      && (!(core.Php? || core.Pha? || core.Txs?) ==> res.regs.s == m.regs.s)
  {
    if IsTransfer(core) {
      TransferEffectFrame(core, m.regs);
    } else if IsCount(core) {
      CountEffectFrame(core, m.regs);
    }
  }

  /** Calls the stack action named by `core`. */
  method CallStackOp(cpu: Cpu, core: CoreFn, val: bv8) returns (r: bv8)
    requires IsStackOp(core)
    modifies cpu, cpu.regs
    ensures cpu.Snapshot() == StackEffect(core, old(cpu.Snapshot()))
    ensures cpu.Snapshot() == GroupThreeEffect(core, old(cpu.Snapshot()))
    ensures r == 0
  {
    match core
    case Php => r := PhpAction(cpu, val);
    case Plp => r := PlpAction(cpu, val);
    case Pha => r := PhaAction(cpu, val);
    case Pla => r := PlaAction(cpu, val);
  }

  /** Calls the transfer named by `core`. */
  method CallTransfer(cpu: Cpu, core: CoreFn, val: bv8) returns (r: bv8)
    requires IsTransfer(core)
    modifies cpu.regs
    ensures cpu.regs.View() == TransferEffect(core, old(cpu.regs.View()))
    ensures cpu.Snapshot() == GroupThreeEffect(core, old(cpu.Snapshot()))
    ensures r == 0
  {
    match core
    case Tay => r := TayAction(cpu, val);
    case Tya => r := TyaAction(cpu, val);
    case Txa => r := TxaAction(cpu, val);
    case Txs => r := TxsAction(cpu, val);
    case Tax => r := TaxAction(cpu, val);
    case Tsx => r := TsxAction(cpu, val);
  }

  /** Calls the increment or decrement named by `core`. */
  method CallCount(cpu: Cpu, core: CoreFn, val: bv8) returns (r: bv8)
    requires IsCount(core)
    modifies cpu.regs
    ensures cpu.regs.View() == CountEffect(core, old(cpu.regs.View()))
    ensures cpu.Snapshot() == GroupThreeEffect(core, old(cpu.Snapshot()))
    ensures r == 0
  {
    match core
    case Dey => r := DeyAction(cpu, val);
    case Iny => r := InyAction(cpu, val);
    case Inx => r := InxAction(cpu, val);
    case Dex => r := DexAction(cpu, val);
  }

  /** Calls the flag instruction named by `core`. */
  method CallFlagOp(cpu: Cpu, core: CoreFn, val: bv8) returns (r: bv8)
    requires IsFlagOp(core)
    modifies cpu.regs
    ensures cpu.regs.View() == old(cpu.regs.View()).(p := FlagEffect(core, old(cpu.regs.p)))
    ensures r == 0
  {
    match core
    case Clc => r := ClcAction(cpu, val);
    case Sec => r := SecAction(cpu, val);
    case Cli => r := CliAction(cpu, val);
    case Sei => r := SeiAction(cpu, val);
    case Clv => r := ClvAction(cpu, val);
    case Cld => r := CldAction(cpu, val);
    case Sed => r := SedAction(cpu, val);
  }

  /** Calls the group 3 action named by `core`; each returns 0. */
  method CallGroupThree(cpu: Cpu, core: CoreFn, val: bv8) returns (r: bv8)
    requires IsGroupThree(core)
    modifies cpu, cpu.regs
    ensures cpu.Snapshot() == GroupThreeEffect(core, old(cpu.Snapshot()))
    ensures r == 0
  {
    if IsStackOp(core) {
      r := CallStackOp(cpu, core, val);
    } else if IsTransfer(core) {
      r := CallTransfer(cpu, core, val);
    } else if IsCount(core) {
      r := CallCount(cpu, core, val);
    } else if IsFlagOp(core) {
      r := CallFlagOp(cpu, core, val);
    } else {
      match core
      case Jsr => r := JsrAction(cpu, val);
      case Rti => r := RtiAction(cpu, val);
      case Rts => r := RtsAction(cpu, val);
      case Nop => r := NopAction(cpu, val);
    }
  }

  /** JSR: the action itself does nothing (the addressing routine, which is
      is not modelled, does the work). */
  method JsrAction(cpu: Cpu, val: bv8) returns (r: bv8)
    ensures r == 0
  {
    r := 0;
  }

  /** RTI: the action itself does nothing. */
  method RtiAction(cpu: Cpu, val: bv8) returns (r: bv8)
    ensures r == 0
  {
    r := 0;
  }

  /** RTS: the action itself does nothing. */
  method RtsAction(cpu: Cpu, val: bv8) returns (r: bv8)
    ensures r == 0
  {
    r := 0;
  }

  /** PHP: pushes P. */
  method PhpAction(cpu: Cpu, val: bv8) returns (r: bv8)
    modifies cpu, cpu.regs
    ensures cpu.Snapshot() == StackPush(old(cpu.Snapshot()), old(cpu.regs.p))
    ensures r == 0
  {
    cpu.PushStack(cpu.regs.p);
    r := 0;
  }

  /** PLP: P := the byte S points to; S is not moved here (the pull
      routine has already moved it). */
  method PlpAction(cpu: Cpu, val: bv8) returns (r: bv8)
    modifies cpu.regs
    ensures cpu.regs.View() == old(cpu.regs.View()).(p := StackTop(old(cpu.Snapshot())))
    ensures r == 0
  {
    var top := cpu.PeekStack();
    cpu.regs.p := top;
    r := 0;
  }

  /** PHA: pushes A. */
  method PhaAction(cpu: Cpu, val: bv8) returns (r: bv8)
    modifies cpu, cpu.regs
    ensures cpu.Snapshot() == StackPush(old(cpu.Snapshot()), old(cpu.regs.a))
    ensures r == 0
  {
    cpu.PushStack(cpu.regs.a);
    r := 0;
  }

  /** PLA: A := the byte S points to, N and Z from it; S is not moved here. */
  method PlaAction(cpu: Cpu, val: bv8) returns (r: bv8)
    modifies cpu.regs
    ensures cpu.regs.View() == WithA(old(cpu.regs.View()), StackTop(old(cpu.Snapshot())))
    ensures r == 0
  {
    var top := cpu.PeekStack();
    cpu.regs.a := top;
    cpu.regs.ChangeNegativeByValue(cpu.regs.a);
    cpu.regs.ChangeZeroByValue(cpu.regs.a);
    r := 0;
  }

  /** DEY: Y := Y - 1 (wrapping), N and Z from the new Y. */
  method DeyAction(cpu: Cpu, val: bv8) returns (r: bv8)
    modifies cpu.regs
    ensures cpu.regs.View() == CountEffect(Dey, old(cpu.regs.View()))
    ensures cpu.regs.View() == old(cpu.regs.View()).(y := old(cpu.regs.y) - 1, p := NZFrom(old(cpu.regs.p), old(cpu.regs.y) - 1))
    ensures r == 0
  {
    cpu.regs.y := cpu.regs.y - 1;
    cpu.regs.ChangeNegativeByValue(cpu.regs.y);
    cpu.regs.ChangeZeroByValue(cpu.regs.y);
    r := 0;
  }

  /** TAY: Y := A, N and Z from it. */
  method TayAction(cpu: Cpu, val: bv8) returns (r: bv8)
    modifies cpu.regs
    ensures cpu.regs.View() == old(cpu.regs.View()).(y := old(cpu.regs.a), p := NZFrom(old(cpu.regs.p), old(cpu.regs.a)))
    ensures r == 0
  {
    cpu.regs.y := cpu.regs.a;
    cpu.regs.ChangeNegativeByValue(cpu.regs.y);
    cpu.regs.ChangeZeroByValue(cpu.regs.y);
    r := 0;
  }

  /** INY as written: the incremented Y lands in X, Y keeps its value and N
      and Z are taken from the old Y. */
  method InyAction(cpu: Cpu, val: bv8) returns (r: bv8)
    modifies cpu.regs
    ensures cpu.regs.View() == CountEffect(Iny, old(cpu.regs.View()))
    ensures cpu.regs.View() == old(cpu.regs.View()).(x := old(cpu.regs.y) + 1, p := NZFrom(old(cpu.regs.p), old(cpu.regs.y)))
    ensures r == 0
  {
    cpu.regs.x := cpu.regs.y + 1;
    cpu.regs.ChangeNegativeByValue(cpu.regs.y);
    cpu.regs.ChangeZeroByValue(cpu.regs.y);
    r := 0;
  }

  /** INX: X := X + 1 (wrapping), N and Z from the new X. */
  method InxAction(cpu: Cpu, val: bv8) returns (r: bv8)
    modifies cpu.regs
    ensures cpu.regs.View() == CountEffect(Inx, old(cpu.regs.View()))
    ensures cpu.regs.View() == WithX(old(cpu.regs.View()), old(cpu.regs.x) + 1)
    ensures r == 0
  {
    cpu.regs.x := cpu.regs.x + 1;
    cpu.regs.ChangeNegativeByValue(cpu.regs.x);
    cpu.regs.ChangeZeroByValue(cpu.regs.x);
    r := 0;
  }

  /** CLC: C := 0. */
  method ClcAction(cpu: Cpu, val: bv8) returns (r: bv8)
    modifies cpu.regs
    ensures cpu.regs.View() == old(cpu.regs.View()).(p := FlagEffect(Clc, old(cpu.regs.p)))
    ensures cpu.regs.View() == old(cpu.regs.View()).(p := ClearFlags(old(cpu.regs.p), CARRY))
    ensures r == 0
  {
    cpu.regs.FlagsOff(CARRY);
    r := 0;
  }

  /** SEC: C := 1. */
  method SecAction(cpu: Cpu, val: bv8) returns (r: bv8)
    modifies cpu.regs
    ensures cpu.regs.View() == old(cpu.regs.View()).(p := FlagEffect(Sec, old(cpu.regs.p)))
    ensures cpu.regs.View() == old(cpu.regs.View()).(p := SetFlags(old(cpu.regs.p), CARRY))
    ensures r == 0
  {
    cpu.regs.FlagsOn(CARRY);
    r := 0;
  }

  /** CLI: I := 0. */
  method CliAction(cpu: Cpu, val: bv8) returns (r: bv8)
    modifies cpu.regs
    ensures cpu.regs.View() == old(cpu.regs.View()).(p := FlagEffect(Cli, old(cpu.regs.p)))
    ensures cpu.regs.View() == old(cpu.regs.View()).(p := ClearFlags(old(cpu.regs.p), INT_DISABLE))
    ensures r == 0
  {
    cpu.regs.FlagsOff(INT_DISABLE);
    r := 0;
  }

  /** SEI: I := 1. */
  method SeiAction(cpu: Cpu, val: bv8) returns (r: bv8)
    modifies cpu.regs
    ensures cpu.regs.View() == old(cpu.regs.View()).(p := FlagEffect(Sei, old(cpu.regs.p)))
    ensures cpu.regs.View() == old(cpu.regs.View()).(p := SetFlags(old(cpu.regs.p), INT_DISABLE))
    ensures r == 0
  {
    cpu.regs.FlagsOn(INT_DISABLE);
    r := 0;
  }

  /** TYA: A := Y, N and Z from it. */
  method TyaAction(cpu: Cpu, val: bv8) returns (r: bv8)
    modifies cpu.regs
    ensures cpu.regs.View() == WithA(old(cpu.regs.View()), old(cpu.regs.y))
    ensures r == 0
  {
    cpu.regs.a := cpu.regs.y;
    cpu.regs.ChangeNegativeByValue(cpu.regs.a);
    cpu.regs.ChangeZeroByValue(cpu.regs.a);
    r := 0;
  }

  /** CLV: V := 0. */
  method ClvAction(cpu: Cpu, val: bv8) returns (r: bv8)
    modifies cpu.regs
    ensures cpu.regs.View() == old(cpu.regs.View()).(p := FlagEffect(Clv, old(cpu.regs.p)))
    ensures cpu.regs.View() == old(cpu.regs.View()).(p := ClearFlags(old(cpu.regs.p), OVERFLOW))
    ensures r == 0
  {
    cpu.regs.FlagsOff(OVERFLOW);
    r := 0;
  }

  /** CLD: D := 0. */
  method CldAction(cpu: Cpu, val: bv8) returns (r: bv8)
    modifies cpu.regs
    ensures cpu.regs.View() == old(cpu.regs.View()).(p := FlagEffect(Cld, old(cpu.regs.p)))
    ensures cpu.regs.View() == old(cpu.regs.View()).(p := ClearFlags(old(cpu.regs.p), DECIMAL))
    ensures r == 0
  {
    cpu.regs.FlagsOff(DECIMAL);
    r := 0;
  }

  /** SED: D := 1. */
  method SedAction(cpu: Cpu, val: bv8) returns (r: bv8)
    modifies cpu.regs
    ensures cpu.regs.View() == old(cpu.regs.View()).(p := FlagEffect(Sed, old(cpu.regs.p)))
    ensures cpu.regs.View() == old(cpu.regs.View()).(p := SetFlags(old(cpu.regs.p), DECIMAL))
    ensures r == 0
  {
    cpu.regs.FlagsOn(DECIMAL);
    r := 0;
  }

  /** TXA: A := X, N and Z from it. */
  method TxaAction(cpu: Cpu, val: bv8) returns (r: bv8)
    modifies cpu.regs
    ensures cpu.regs.View() == WithA(old(cpu.regs.View()), old(cpu.regs.x))
    ensures r == 0
  {
    cpu.regs.a := cpu.regs.x;
    cpu.regs.ChangeNegativeByValue(cpu.regs.a);
    cpu.regs.ChangeZeroByValue(cpu.regs.a);
    r := 0;
  }

  /** TXS: S := X; no flag changes. */
  method TxsAction(cpu: Cpu, val: bv8) returns (r: bv8)
    modifies cpu.regs
    ensures cpu.regs.View() == old(cpu.regs.View()).(s := old(cpu.regs.x))
    ensures r == 0
  {
    cpu.regs.s := cpu.regs.x;
    r := 0;
  }

  /** TAX: X := A, N and Z from it. */
  method TaxAction(cpu: Cpu, val: bv8) returns (r: bv8)
    modifies cpu.regs
    ensures cpu.regs.View() == WithX(old(cpu.regs.View()), old(cpu.regs.a))
    ensures r == 0
  {
    cpu.regs.x := cpu.regs.a;
    cpu.regs.ChangeNegativeByValue(cpu.regs.x);
    cpu.regs.ChangeZeroByValue(cpu.regs.x);
    r := 0;
  }

  /** TSX: X := S, N and Z from it. */
  method TsxAction(cpu: Cpu, val: bv8) returns (r: bv8)
    modifies cpu.regs
    ensures cpu.regs.View() == WithX(old(cpu.regs.View()), old(cpu.regs.s))
    ensures r == 0
  {
    cpu.regs.x := cpu.regs.s;
    cpu.regs.ChangeNegativeByValue(cpu.regs.x);
    cpu.regs.ChangeZeroByValue(cpu.regs.x);
    r := 0;
  }

  /** DEX: X := X - 1 (wrapping), N and Z from the new X. */
  method DexAction(cpu: Cpu, val: bv8) returns (r: bv8)
    modifies cpu.regs
    ensures cpu.regs.View() == CountEffect(Dex, old(cpu.regs.View()))
    ensures cpu.regs.View() == WithX(old(cpu.regs.View()), old(cpu.regs.x) - 1)
    ensures r == 0
  {
    cpu.regs.x := cpu.regs.x - 1;
    cpu.regs.ChangeNegativeByValue(cpu.regs.x);
    cpu.regs.ChangeZeroByValue(cpu.regs.x);
    r := 0;
  }

  /** NOP: nothing. */
  method NopAction(cpu: Cpu, val: bv8) returns (r: bv8)
    ensures r == 0
  {
    r := 0;
  }
}
