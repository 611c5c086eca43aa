// The older copies of the action functions kept at the end of
// src/nes/cpu/executer.rs (lines 272-685).  They assign the register fields
// directly instead of going through `a_set`/`x_set`.  They agree with the
// copies in exec_core_g1.rs and exec_core_g3.rs except for DEY: here both
// INY and DEY put their result into X, leave Y alone and take N and Z from
// the old Y.
module ExecuterActions {
  import opened ExecuterTypes
  import opened Cpu
  import ExecCoreG1
  import ExecCoreG3

  /** The actions that have an older copy in executer.rs. */
  predicate IsLegacy(core: CoreFn)
  {
    core.Adc? || core.Sbc? || core.Ora? || core.And? || core.Eor? ||
    core.Cmp? || core.Lda? || core.Ldx? || core.Sta? || core.Tax? ||
    core.Tay? || core.Txa? || core.Tya? || core.Txs? || core.Tsx? ||
    core.Inx? || core.Dex? || core.Iny? || core.Dey? || core.Sei? ||
    core.Cli? || core.Sed? || core.Cld? || core.Clv? || core.Sec? ||
    core.Clc? || core.Nop?
  }

  /** What an older copy does: its new register file and the byte it
      returns (A for STA, 0 for every other). */
  function LegacyEffect(core: CoreFn, r: Regs, val: bv8): (Regs, bv8)
    requires IsLegacy(core)
  {
    match core
    case Adc => (AddResult(r, val), 0)
    case Sbc => (SubResult(r, val), 0)
    case Ora => (r.(a := r.a | val, p := NZFrom(r.p, r.a | val)), 0)
    case And => (r.(a := r.a & val, p := NZFrom(r.p, r.a & val)), 0)
    case Eor => (r.(a := r.a ^ val, p := NZFrom(r.p, r.a ^ val)), 0)
    case Cmp => (CmpResult(r, val), 0)
    case Lda => (r.(a := val, p := NZFrom(r.p, val)), 0)
    case Ldx => (r.(x := val, p := NZFrom(r.p, val)), 0)
    case Sta => (r, r.a)
    case Tax => (r.(x := r.a, p := NZFrom(r.p, r.a)), 0)
    case Tay => (r.(y := r.a, p := NZFrom(r.p, r.a)), 0)
    case Txa => (r.(a := r.x, p := NZFrom(r.p, r.x)), 0)
    case Tya => (r.(a := r.y, p := NZFrom(r.p, r.y)), 0)
    case Txs => (r.(s := r.x), 0)
    case Tsx => (r.(x := r.s, p := NZFrom(r.p, r.s)), 0)
    case Inx => (r.(x := r.x + 1, p := NZFrom(r.p, r.x + 1)), 0)
    case Dex => (r.(x := r.x - 1, p := NZFrom(r.p, r.x - 1)), 0)
    case Iny => (r.(x := r.y + 1, p := NZFrom(r.p, r.y)), 0)
    case Dey => (r.(x := r.y - 1, p := NZFrom(r.p, r.y)), 0)
    case Sei => (r.(p := SetFlags(r.p, INT_DISABLE)), 0)
    case Cli => (r.(p := ClearFlags(r.p, INT_DISABLE)), 0)
    case Sed => (r.(p := SetFlags(r.p, DECIMAL)), 0)
    case Cld => (r.(p := ClearFlags(r.p, DECIMAL)), 0)
    case Clv => (r.(p := ClearFlags(r.p, OVERFLOW)), 0)
    case Sec => (r.(p := SetFlags(r.p, CARRY)), 0)
    case Clc => (r.(p := ClearFlags(r.p, CARRY)), 0)
    case Nop => (r, 0)
  }

  // ---------------------------------------------------------------------
  // Properties
  // ---------------------------------------------------------------------

  /** The register each load or transfer writes. */
  datatype Target = ToA | ToX | ToY

  /** The older copies that store a value in one register and derive N and
      Z from it. */
  predicate IsLoad(core: CoreFn)
  {
    core.Ora? || core.And? || core.Eor? || core.Lda? || core.Ldx? ||
    core.Tax? || core.Tay? || core.Txa? || core.Tya? ||
    core.Tsx?
  }

  /** The value a load or transfer stores. */
  function Loaded(core: CoreFn, r: Regs, val: bv8): bv8
    requires IsLoad(core)
  {
    match core
    case Ora => r.a | val
    case And => r.a & val
    case Eor => r.a ^ val
    case Lda => val
    case Ldx => val
    case Tax => r.a
    case Tay => r.a
    case Txa => r.x
    case Tya => r.y
    case Tsx => r.s
  }

  /** The register a load or transfer writes. */
  function TargetOf(core: CoreFn): Target
    requires IsLoad(core)
  {
    match core
    case Ora => ToA
    case And => ToA
    case Eor => ToA
    case Lda => ToA
    case Txa => ToA
    case Tya => ToA
    case Ldx => ToX
    case Tax => ToX
    case Tsx => ToX
    case Tay => ToY
  }

  /** A value stored into one register with N and Z taken from it: the
      other registers and the other six flags keep their values. */
  function LoadInto(t: Target, r: Regs, v: bv8): (r': Regs)
    ensures r'.a == (if t == ToA then v else r.a)
    ensures r'.x == (if t == ToX then v else r.x)
    ensures r'.y == (if t == ToY then v else r.y)
    ensures r'.s == r.s && r'.pc == r.pc
    ensures (r'.p & NEGATIVE != 0) <==> Sign(v)
    ensures (r'.p & ZERO != 0) <==> v == 0
    ensures r'.p & !(NEGATIVE | ZERO) == r.p & !(NEGATIVE | ZERO)
  {
    match t
    case ToA => r.(a := v, p := NZFrom(r.p, v))
    case ToX => r.(x := v, p := NZFrom(r.p, v))
    case ToY => r.(y := v, p := NZFrom(r.p, v))
  }

  /** ORA, AND, EOR, LDA, LDX, TAX, TAY, TXA, TYA and TSX store their value
      in their target register, keep the other registers, set N to its bit 7
      and Z to whether it is 0, change no other flag and return 0. */
  lemma LoadSetsOnlyNZ(core: CoreFn, r: Regs, val: bv8)
    requires IsLoad(core)
    ensures LegacyEffect(core, r, val) == (LoadInto(TargetOf(core), r, Loaded(core, r, val)), 0)
  {
    match core
    case Ora =>
    case And =>
    case Eor =>
    case Lda =>
    case Ldx =>
    case Tax =>
    case Tay =>
    case Txa =>
    case Tya =>
    case Tsx =>
  }

  /** TXS copies X into S and leaves every flag alone. */
  lemma TxsKeepsFlags(r: Regs, val: bv8)
    ensures LegacyEffect(Txs, r, val) == (r.(s := r.x), 0)
    ensures LegacyEffect(Txs, r, val).0.p == r.p
  {
  }

  /** INY and DEY as written: X receives Y plus or minus one, Y keeps its
      value, and N and Z come from the unchanged Y. */
  lemma IncDecYWriteX(core: CoreFn, r: Regs, val: bv8)
    requires core.Iny? || core.Dey?
    ensures var r' := LegacyEffect(core, r, val).0;
      && r'.y == r.y
      && r'.x == (if core.Iny? then r.y + 1 else r.y - 1)
      && r'.a == r.a && r'.s == r.s && r'.pc == r.pc
      && r'.p == NZFrom(r.p, r.y)
  {
  }

  /** The older DEY never does what the DEY of exec_core_g3.rs does: that
      one decrements Y, this one leaves Y as it was. */
  lemma DeyCopiesDisagree(r: Regs, val: bv8)
    ensures LegacyEffect(Dey, r, val).0.y == r.y
    ensures ExecCoreG3.CountEffect(Dey, r).y == r.y - 1
    ensures LegacyEffect(Dey, r, val).0 != ExecCoreG3.CountEffect(Dey, r)
  {
    assert r.y - 1 != r.y;
  }

  /** The older ADC, SBC, ORA, AND, EOR, CMP, LDA, LDX and STA do exactly
      what the copies in exec_core_g1.rs do. */
  lemma GroupOneCopiesAgree(core: CoreFn, r: Regs, val: bv8)
    requires ExecCoreG1.IsGroupOne(core)
    ensures IsLegacy(core)
    ensures LegacyEffect(core, r, val) == ExecCoreG1.GroupOneEffect(core, r, val)
  {
    match core
    case Ora =>
    case And =>
    case Eor =>
    case Adc =>
    case Sta =>
    case Lda =>
    case Cmp =>
    case Sbc =>
    case Ldx =>
  }

  /** The older transfers do exactly what the copies in exec_core_g3.rs do. */
  lemma TransferCopiesAgree(core: CoreFn, r: Regs, val: bv8)
    requires ExecCoreG3.IsTransfer(core)
    ensures IsLegacy(core)
    ensures LegacyEffect(core, r, val) == (ExecCoreG3.TransferEffect(core, r), 0)
  {
    match core
    case Tay =>
    case Tya =>
    case Txa =>
    case Txs =>
    case Tax =>
    case Tsx =>
  }

  /** The older INY, INX and DEX do exactly what the copies in
      exec_core_g3.rs do (DEY does not, see DeyCopiesDisagree). */
  lemma CountCopiesAgree(core: CoreFn, r: Regs, val: bv8)
    requires ExecCoreG3.IsCount(core) && !core.Dey?
    ensures IsLegacy(core)
    ensures LegacyEffect(core, r, val) == (ExecCoreG3.CountEffect(core, r), 0)
  {
    match core
    case Iny =>
    case Inx =>
    case Dex =>
  }

  /** The older flag instructions do exactly what the copies in
      exec_core_g3.rs do. */
  lemma FlagCopiesAgree(core: CoreFn, r: Regs, val: bv8)
    requires ExecCoreG3.IsFlagOp(core)
    ensures IsLegacy(core)
    ensures LegacyEffect(core, r, val) == (r.(p := ExecCoreG3.FlagEffect(core, r.p)), 0)
  {
    match core
    case Clc =>
    case Sec =>
    case Cli =>
    case Sei =>
    case Clv =>
    case Cld =>
    case Sed =>
  }

  // ---------------------------------------------------------------------
  // The actions on the CPU object
  // ---------------------------------------------------------------------

  /** ADC: `a_add(val)`. */
  method AdcAction(cpu: Cpu, val: bv8) returns (r: bv8)
    modifies cpu.regs
    ensures (cpu.regs.View(), r) == LegacyEffect(Adc, old(cpu.regs.View()), val)
  {
    cpu.regs.AAdd(val);
    r := 0;
  }

  /** SBC: `a_sub(val)`. */
  method SbcAction(cpu: Cpu, val: bv8) returns (r: bv8)
    modifies cpu.regs
    ensures (cpu.regs.View(), r) == LegacyEffect(Sbc, old(cpu.regs.View()), val)
  {
    cpu.regs.ASub(val);
    r := 0;
  }

  /** ORA: A |= val, then N and Z from A. */
  method OraAction(cpu: Cpu, val: bv8) returns (r: bv8)
    modifies cpu.regs
    ensures (cpu.regs.View(), r) == LegacyEffect(Ora, old(cpu.regs.View()), val)
  {
    cpu.regs.a := cpu.regs.a | val;
    cpu.regs.ChangeNegativeByValue(cpu.regs.a);
    cpu.regs.ChangeZeroByValue(cpu.regs.a);
    r := 0;
  }

  /** AND: A &= val, then N and Z from A. */
  method AndAction(cpu: Cpu, val: bv8) returns (r: bv8)
    modifies cpu.regs
    ensures (cpu.regs.View(), r) == LegacyEffect(And, old(cpu.regs.View()), val)
  {
    cpu.regs.a := cpu.regs.a & val;
    cpu.regs.ChangeNegativeByValue(cpu.regs.a);
    cpu.regs.ChangeZeroByValue(cpu.regs.a);
    r := 0;
  }

  /** EOR: A ^= val, then N and Z from A. */
  method EorAction(cpu: Cpu, val: bv8) returns (r: bv8)
    modifies cpu.regs
    ensures (cpu.regs.View(), r) == LegacyEffect(Eor, old(cpu.regs.View()), val)
  {
    cpu.regs.a := cpu.regs.a ^ val;
    cpu.regs.ChangeNegativeByValue(cpu.regs.a);
    cpu.regs.ChangeZeroByValue(cpu.regs.a);
    r := 0;
  }

  /** CMP: `a_cmp(val)`. */
  method CmpAction(cpu: Cpu, val: bv8) returns (r: bv8)
    modifies cpu.regs
    ensures (cpu.regs.View(), r) == LegacyEffect(Cmp, old(cpu.regs.View()), val)
  {
    cpu.regs.ACmp(val);
    r := 0;
  }

  /** LDA: A := val, then N and Z from A. */
  method LdaAction(cpu: Cpu, val: bv8) returns (r: bv8)
    modifies cpu.regs
    ensures (cpu.regs.View(), r) == LegacyEffect(Lda, old(cpu.regs.View()), val)
  {
    cpu.regs.a := val;
    cpu.regs.ChangeNegativeByValue(cpu.regs.a);
    cpu.regs.ChangeZeroByValue(cpu.regs.a);
    r := 0;
  }

  /** LDX: X := val, then N and Z from X. */
  method LdxAction(cpu: Cpu, val: bv8) returns (r: bv8)
    modifies cpu.regs
    ensures (cpu.regs.View(), r) == LegacyEffect(Ldx, old(cpu.regs.View()), val)
  {
    cpu.regs.x := val;
    cpu.regs.ChangeNegativeByValue(cpu.regs.x);
    cpu.regs.ChangeZeroByValue(cpu.regs.x);
    r := 0;
  }

  /** STA: returns A and changes nothing. */
  method StaAction(cpu: Cpu, val: bv8) returns (r: bv8)
    ensures (cpu.regs.View(), r) == LegacyEffect(Sta, cpu.regs.View(), val)
    ensures r == cpu.regs.a
  {
    r := cpu.regs.a;
  }

  /** TAX: X := A, then N and Z from X. */
  method TaxAction(cpu: Cpu, val: bv8) returns (r: bv8)
    modifies cpu.regs
    ensures (cpu.regs.View(), r) == LegacyEffect(Tax, old(cpu.regs.View()), val)
  {
    cpu.regs.x := cpu.regs.a;
    cpu.regs.ChangeNegativeByValue(cpu.regs.x);
    cpu.regs.ChangeZeroByValue(cpu.regs.x);
    r := 0;
  }

  /** TAY: Y := A, then N and Z from Y. */
  method TayAction(cpu: Cpu, val: bv8) returns (r: bv8)
    modifies cpu.regs
    ensures (cpu.regs.View(), r) == LegacyEffect(Tay, old(cpu.regs.View()), val)
  {
    cpu.regs.y := cpu.regs.a;
    cpu.regs.ChangeNegativeByValue(cpu.regs.y);
    cpu.regs.ChangeZeroByValue(cpu.regs.y);
    r := 0;
  }

  /** TXA: A := X, then N and Z from A. */
  method TxaAction(cpu: Cpu, val: bv8) returns (r: bv8)
    modifies cpu.regs
    ensures (cpu.regs.View(), r) == LegacyEffect(Txa, old(cpu.regs.View()), val)
  {
    cpu.regs.a := cpu.regs.x;
    cpu.regs.ChangeNegativeByValue(cpu.regs.a);
    cpu.regs.ChangeZeroByValue(cpu.regs.a);
    r := 0;
  }

  /** TYA: A := Y, then N and Z from A. */
  method TyaAction(cpu: Cpu, val: bv8) returns (r: bv8)
    modifies cpu.regs
    ensures (cpu.regs.View(), r) == LegacyEffect(Tya, old(cpu.regs.View()), val)
  {
    cpu.regs.a := cpu.regs.y;
    cpu.regs.ChangeNegativeByValue(cpu.regs.a);
    cpu.regs.ChangeZeroByValue(cpu.regs.a);
    r := 0;
  }

  /** TXS: S := X, no flag changes. */
  method TxsAction(cpu: Cpu, val: bv8) returns (r: bv8)
    modifies cpu.regs
    ensures (cpu.regs.View(), r) == LegacyEffect(Txs, old(cpu.regs.View()), val)
  {
    cpu.regs.s := cpu.regs.x;
    r := 0;
  }

  /** TSX: X := S, then N and Z from X. */
  method TsxAction(cpu: Cpu, val: bv8) returns (r: bv8)
    modifies cpu.regs
    ensures (cpu.regs.View(), r) == LegacyEffect(Tsx, old(cpu.regs.View()), val)
  {
    cpu.regs.x := cpu.regs.s;
    cpu.regs.ChangeNegativeByValue(cpu.regs.x);
    cpu.regs.ChangeZeroByValue(cpu.regs.x);
    r := 0;
  }

  /** INX: X := X + 1 (wrapping), then N and Z from X. */
  method InxAction(cpu: Cpu, val: bv8) returns (r: bv8)
    modifies cpu.regs
    ensures (cpu.regs.View(), r) == LegacyEffect(Inx, old(cpu.regs.View()), val)
  {
    cpu.regs.x := cpu.regs.x + 1;
    cpu.regs.ChangeNegativeByValue(cpu.regs.x);
    cpu.regs.ChangeZeroByValue(cpu.regs.x);
    r := 0;
  }

  /** DEX: X := X - 1 (wrapping), then N and Z from X. */
  method DexAction(cpu: Cpu, val: bv8) returns (r: bv8)
    modifies cpu.regs
    ensures (cpu.regs.View(), r) == LegacyEffect(Dex, old(cpu.regs.View()), val)
  {
    cpu.regs.x := cpu.regs.x - 1;
    cpu.regs.ChangeNegativeByValue(cpu.regs.x);
    cpu.regs.ChangeZeroByValue(cpu.regs.x);
    r := 0;
  }

  /** INY as written: X := Y + 1, then N and Z from the unchanged Y. */
  method InyAction(cpu: Cpu, val: bv8) returns (r: bv8)
    modifies cpu.regs
    ensures (cpu.regs.View(), r) == LegacyEffect(Iny, old(cpu.regs.View()), val)
  {
    cpu.regs.x := cpu.regs.y + 1;
    cpu.regs.ChangeNegativeByValue(cpu.regs.y);
    cpu.regs.ChangeZeroByValue(cpu.regs.y);
    r := 0;
  }

  /** DEY as written: X := Y - 1, then N and Z from the unchanged Y. */
  method DeyAction(cpu: Cpu, val: bv8) returns (r: bv8)
    modifies cpu.regs
    ensures (cpu.regs.View(), r) == LegacyEffect(Dey, old(cpu.regs.View()), val)
  {
    cpu.regs.x := cpu.regs.y - 1;
    cpu.regs.ChangeNegativeByValue(cpu.regs.y);
    cpu.regs.ChangeZeroByValue(cpu.regs.y);
    r := 0;
  }

  /** SEI: I := 1. */
  method SeiAction(cpu: Cpu, val: bv8) returns (r: bv8)
    modifies cpu.regs
    ensures (cpu.regs.View(), r) == LegacyEffect(Sei, old(cpu.regs.View()), val)
  {
    cpu.regs.FlagsOn(INT_DISABLE);
    r := 0;
  }

  /** CLI: I := 0. */
  method CliAction(cpu: Cpu, val: bv8) returns (r: bv8)
    modifies cpu.regs
    ensures (cpu.regs.View(), r) == LegacyEffect(Cli, old(cpu.regs.View()), val)
  {
    cpu.regs.FlagsOff(INT_DISABLE);
    r := 0;
  }

  /** SED: D := 1. */
  method SedAction(cpu: Cpu, val: bv8) returns (r: bv8)
    modifies cpu.regs
    ensures (cpu.regs.View(), r) == LegacyEffect(Sed, old(cpu.regs.View()), val)
  {
    cpu.regs.FlagsOn(DECIMAL);
    r := 0;
  }

  /** CLD: D := 0. */
  method CldAction(cpu: Cpu, val: bv8) returns (r: bv8)
    modifies cpu.regs
    ensures (cpu.regs.View(), r) == LegacyEffect(Cld, old(cpu.regs.View()), val)
  {
    cpu.regs.FlagsOff(DECIMAL);
    r := 0;
  }

  /** CLV: V := 0. */
  method ClvAction(cpu: Cpu, val: bv8) returns (r: bv8)
    modifies cpu.regs
    ensures (cpu.regs.View(), r) == LegacyEffect(Clv, old(cpu.regs.View()), val)
  {
    cpu.regs.FlagsOff(OVERFLOW);
    r := 0;
  }

  /** SEC: C := 1. */
  method SecAction(cpu: Cpu, val: bv8) returns (r: bv8)
    modifies cpu.regs
    ensures (cpu.regs.View(), r) == LegacyEffect(Sec, old(cpu.regs.View()), val)
  {
    cpu.regs.FlagsOn(CARRY);
    r := 0;
  }

  /** CLC: C := 0. */
  method ClcAction(cpu: Cpu, val: bv8) returns (r: bv8)
    modifies cpu.regs
    ensures (cpu.regs.View(), r) == LegacyEffect(Clc, old(cpu.regs.View()), val)
  {
    cpu.regs.FlagsOff(CARRY);
    r := 0;
  }

  /** NOP: nothing. */
  method NopAction(cpu: Cpu, val: bv8) returns (r: bv8)
    ensures (cpu.regs.View(), r) == LegacyEffect(Nop, cpu.regs.View(), val)
    ensures r == 0
  {
    r := 0;
  }
}
