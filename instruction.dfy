// Instruction descriptors and the opcode table (src/nes/cpu/instruction.rs).
// A descriptor joins a template (routine, mode tag, cycle budget) with a core
// (name, action, destination); the table maps each of the 256 opcode values
// to a descriptor or to nothing.
module Instruction {
  import opened ExecuterTypes
  import opened IsTemplate
  import opened IsCore
  import opened Util

  /** `Instruction`.  `minClock` is filled from the template's cycle budget
      (`total_clock`). */
  datatype Instruction = Instruction(
    coreName: string,
    templateName: string,
    fnExec: ExecFn,
    fnCore: CoreFn,
    dst: Destination,
    minClock: nat,
    addrMode: AddrMode)

  /** `new_instruction!`: the routine, the cycle budget and the mode tag come
      from the template; the name, the action and the destination from the
      core. */
  function NewInstruction(t: Template, c: Core): (i: Instruction)
  {
    Instruction(c.name, t.name, t.fnExec, c.fnCore, c.dst, t.totalClock, t.addrMode)
  }

  /** Each field of a built descriptor is taken from its template or its core,
      so the template and the core can be read back from the descriptor. */
  lemma NewInstructionFields(t: Template, c: Core)
    ensures var i := NewInstruction(t, c);
      i.fnExec == t.fnExec && i.minClock == t.totalClock && i.addrMode == t.addrMode &&
      i.templateName == t.name &&
      Core(i.coreName, i.fnCore, i.dst) == c
  {
  }

  /** `Display`: the core name, a space, then the template name in parentheses. */
  function Display(i: Instruction): (s: string)
    ensures |s| == |i.coreName| + |i.templateName| + 3
    ensures s[..|i.coreName|] == i.coreName
    ensures s[|i.coreName|..|i.coreName| + 2] == " ("
    ensures s[|i.coreName| + 2..|s| - 1] == i.templateName
    ensures s[|s| - 1] == ')'
  {
    i.coreName + " (" + i.templateName + ")"
  }

  /** The descriptor used when no instruction is in flight
      (src/nes/cpu/instruction.rs:350). */
  const DUMMY_INSTRUCTION: Instruction := NewInstruction(IS_TEMP_DUMMY, IS_DUMMY)

  /** The dummy descriptor names the same routine, action and destination as
      the executer a CPU starts with, and the largest cycle budget. */
  lemma DummyInstructionIsIdle()
    ensures Executer(DUMMY_INSTRUCTION.fnExec, DUMMY_INSTRUCTION.fnCore, DUMMY_INSTRUCTION.dst) == DEFAULT_EXECUTER
    ensures DUMMY_INSTRUCTION.minClock == 255 && Display(DUMMY_INSTRUCTION) == "DUMMY (IS_TEMP_DUMMY)"
  {
  }

  /** `INSTRUCTION_SET`: one entry per opcode value, so exactly 256 entries.
      Opcodes without an entry (BRK, which is handled as an interrupt, and the
      undocumented opcodes) have no descriptor. */
  function InstructionSet(op: bv8): Option<Instruction>
  {
    match Layout(op)
    case None => None
    case Some((t, c)) => Some(NewInstruction(t, c))
  }

  /** The template and the core each entry's descriptor is built from, row by
      row of the opcode matrix (high nibble, then low nibble); each line names
      the descriptor constant of src/nes/cpu/instruction.rs:352-529 that the
      entry refers to. */
  function Layout(op: bv8): Option<(Template, Core)>
  {
    match op >> 4
    case 0x0 => Row0(op & 0xF)
    case 0x1 => Row1(op & 0xF)
    case 0x2 => Row2(op & 0xF)
    case 0x3 => Row3(op & 0xF)
    case 0x4 => Row4(op & 0xF)
    case 0x5 => Row5(op & 0xF)
    case 0x6 => Row6(op & 0xF)
    case 0x7 => Row7(op & 0xF)
    case 0x8 => Row8(op & 0xF)
    case 0x9 => Row9(op & 0xF)
    case 0xA => RowA(op & 0xF)
    case 0xB => RowB(op & 0xF)
    case 0xC => RowC(op & 0xF)
    case 0xD => RowD(op & 0xF)
    case 0xE => RowE(op & 0xF)
    case 0xF => RowF(op & 0xF)
    case _ => None
  }

  /** Opcodes 0x00 to 0x0F. */
  function Row0(low: bv8): Option<(Template, Core)>
  {
    match low
    case 0x1 => Some((IS_TEMP_INDEXED_INDIRECT_X, IS_ORA))  // ORA_INDEXED_INDIRECT_X
    case 0x5 => Some((IS_TEMP_ZEROPAGE, IS_ORA))  // ORA_ZEROPAGE
    case 0x6 => Some((IS_TEMP_ZEROPAGE_RMW, IS_ASL))  // ASL_ZEROPAGE
    case 0x8 => Some((IS_TEMP_PUSH_STACK, IS_PHP))  // PHP
    case 0x9 => Some((IS_TEMP_IMMEDIATE, IS_ORA))  // ORA_IMMEDIATE
    case 0xA => Some((IS_TEMP_ACCUMULATOR_RMW, IS_ASL))  // ASL_ACCUMULATOR
    case 0xD => Some((IS_TEMP_ABSOLUTE, IS_ORA))  // ORA_ABSOLUTE
    case 0xE => Some((IS_TEMP_ABSOLUTE_RMW, IS_ASL))  // ASL_ABSOLUTE
    case _ => None
  }

  /** Opcodes 0x10 to 0x1F. */
  function Row1(low: bv8): Option<(Template, Core)>
  {
    match low
    case 0x0 => Some((IS_TEMP_RELATIVE, IS_BPL))  // BPL
    case 0x1 => Some((IS_TEMP_INDIRECT_INDEXED_Y, IS_ORA))  // ORA_INDIRECT_INDEXED_Y
    case 0x5 => Some((IS_TEMP_INDEXED_ZEROPAGE_X, IS_ORA))  // ORA_INDEXED_ZEROPAGE_X
    case 0x6 => Some((IS_TEMP_INDEXED_ZEROPAGE_X_RMW, IS_ASL))  // ASL_INDEXED_ZEROPAGE_X
    case 0x8 => Some((IS_TEMP_IMPLIED, IS_CLC))  // CLC
    case 0x9 => Some((IS_TEMP_INDEXED_ABSOLUTE_Y, IS_ORA))  // ORA_INDEXED_ABSOLUTE_Y
    case 0xD => Some((IS_TEMP_INDEXED_ABSOLUTE_X, IS_ORA))  // ORA_INDEXED_ABSOLUTE_X
    case 0xE => Some((IS_TEMP_INDEXED_ABSOLUTE_X_RMW, IS_ASL))  // ASL_INDEXED_ABSOLUTE_X
    case _ => None
  }

  /** Opcodes 0x20 to 0x2F. */
  function Row2(low: bv8): Option<(Template, Core)>
  {
    match low
    case 0x0 => Some((IS_TEMP_JSR, IS_JSR))  // JSR
    case 0x1 => Some((IS_TEMP_INDEXED_INDIRECT_X, IS_AND))  // AND_INDEXED_INDIRECT_X
    case 0x4 => Some((IS_TEMP_ZEROPAGE, IS_BIT))  // BIT_ZEROPAGE
    case 0x5 => Some((IS_TEMP_ZEROPAGE, IS_AND))  // AND_ZEROPAGE
    case 0x6 => Some((IS_TEMP_ZEROPAGE_RMW, IS_ROL))  // ROL_ZEROPAGE
    case 0x8 => Some((IS_TEMP_PULL_STACK, IS_PLP))  // PLP
    case 0x9 => Some((IS_TEMP_IMMEDIATE, IS_AND))  // AND_IMMEDIATE
    case 0xA => Some((IS_TEMP_ACCUMULATOR_RMW, IS_ROL))  // ROL_ACCUMULATOR
    case 0xC => Some((IS_TEMP_ABSOLUTE, IS_BIT))  // BIT_ABSOLUTE
    case 0xD => Some((IS_TEMP_ABSOLUTE, IS_AND))  // AND_ABSOLUTE
    case 0xE => Some((IS_TEMP_ABSOLUTE_RMW, IS_ROL))  // ROL_ABSOLUTE
    case _ => None
  }

  /** Opcodes 0x30 to 0x3F. */
  function Row3(low: bv8): Option<(Template, Core)>
  {
    match low
    case 0x0 => Some((IS_TEMP_RELATIVE, IS_BMI))  // BMI
    case 0x1 => Some((IS_TEMP_INDIRECT_INDEXED_Y, IS_AND))  // AND_INDIRECT_INDEXED_Y
    case 0x5 => Some((IS_TEMP_INDEXED_ZEROPAGE_X, IS_AND))  // AND_INDEXED_ZEROPAGE_X
    case 0x6 => Some((IS_TEMP_INDEXED_ZEROPAGE_X_RMW, IS_ROL))  // ROL_INDEXED_ZEROPAGE_X
    case 0x8 => Some((IS_TEMP_IMPLIED, IS_SEC))  // SEC
    case 0x9 => Some((IS_TEMP_INDEXED_ABSOLUTE_Y, IS_AND))  // AND_INDEXED_ABSOLUTE_Y
    case 0xD => Some((IS_TEMP_INDEXED_ABSOLUTE_X, IS_AND))  // AND_INDEXED_ABSOLUTE_X
    case 0xE => Some((IS_TEMP_INDEXED_ABSOLUTE_X_RMW, IS_ROL))  // ROL_INDEXED_ABSOLUTE_X
    case _ => None
  }

  /** Opcodes 0x40 to 0x4F. */
  function Row4(low: bv8): Option<(Template, Core)>
  {
    match low
    case 0x0 => Some((IS_TEMP_RTI, IS_RTI))  // RTI
    case 0x1 => Some((IS_TEMP_INDEXED_INDIRECT_X, IS_EOR))  // EOR_INDEXED_INDIRECT_X
    case 0x5 => Some((IS_TEMP_ZEROPAGE, IS_EOR))  // EOR_ZEROPAGE
    case 0x6 => Some((IS_TEMP_ZEROPAGE_RMW, IS_LSR))  // LSR_ZEROPAGE
    case 0x8 => Some((IS_TEMP_PUSH_STACK, IS_PHA))  // PHA
    case 0x9 => Some((IS_TEMP_IMMEDIATE, IS_EOR))  // EOR_IMMEDIATE
    case 0xA => Some((IS_TEMP_ACCUMULATOR_RMW, IS_LSR))  // LSR_ACCUMULATOR
    case 0xC => Some((IS_TEMP_ABSOLUTE_JMP, IS_JMP))  // JMP_ABSOLUTE
    case 0xD => Some((IS_TEMP_ABSOLUTE, IS_EOR))  // EOR_ABSOLUTE
    case 0xE => Some((IS_TEMP_ABSOLUTE_RMW, IS_LSR))  // LSR_ABSOLUTE
    case _ => None
  }

  /** Opcodes 0x50 to 0x5F. */
  function Row5(low: bv8): Option<(Template, Core)>
  {
    match low
    case 0x0 => Some((IS_TEMP_RELATIVE, IS_BVC))  // BVC
    case 0x1 => Some((IS_TEMP_INDIRECT_INDEXED_Y, IS_EOR))  // EOR_INDIRECT_INDEXED_Y
    case 0x5 => Some((IS_TEMP_INDEXED_ZEROPAGE_X, IS_EOR))  // EOR_INDEXED_ZEROPAGE_X
    case 0x6 => Some((IS_TEMP_INDEXED_ZEROPAGE_X_RMW, IS_LSR))  // LSR_INDEXED_ZEROPAGE_X
    case 0x8 => Some((IS_TEMP_IMPLIED, IS_CLI))  // CLI
    case 0x9 => Some((IS_TEMP_INDEXED_ABSOLUTE_Y, IS_EOR))  // EOR_INDEXED_ABSOLUTE_Y
    case 0xD => Some((IS_TEMP_INDEXED_ABSOLUTE_X, IS_EOR))  // EOR_INDEXED_ABSOLUTE_X
    case 0xE => Some((IS_TEMP_INDEXED_ABSOLUTE_X_RMW, IS_LSR))  // LSR_INDEXED_ABSOLUTE_X
    case _ => None
  }

  /** Opcodes 0x60 to 0x6F. */
  function Row6(low: bv8): Option<(Template, Core)>
  {
    match low
    case 0x0 => Some((IS_TEMP_RTS, IS_RTS))  // RTS
    case 0x1 => Some((IS_TEMP_INDEXED_INDIRECT_X, IS_ADC))  // ADC_INDEXED_INDIRECT_X
    case 0x5 => Some((IS_TEMP_ZEROPAGE, IS_ADC))  // ADC_ZEROPAGE
    case 0x6 => Some((IS_TEMP_ZEROPAGE_RMW, IS_ROR))  // ROR_ZEROPAGE
    case 0x8 => Some((IS_TEMP_PULL_STACK, IS_PLA))  // PLA
    case 0x9 => Some((IS_TEMP_IMMEDIATE, IS_ADC))  // ADC_IMMEDIATE
    case 0xA => Some((IS_TEMP_ACCUMULATOR_RMW, IS_ROR))  // ROR_ACCUMULATOR
    case 0xC => Some((IS_TEMP_INDIRECT_JMP, IS_JMP))  // JMP_INDIRECT
    case 0xD => Some((IS_TEMP_ABSOLUTE, IS_ADC))  // ADC_ABSOLUTE
    case 0xE => Some((IS_TEMP_ABSOLUTE_RMW, IS_ROR))  // ROR_ABSOLUTE
    case _ => None
  }

  /** Opcodes 0x70 to 0x7F. */
  function Row7(low: bv8): Option<(Template, Core)>
  {
    match low
    case 0x0 => Some((IS_TEMP_RELATIVE, IS_BVS))  // BVS
    case 0x1 => Some((IS_TEMP_INDIRECT_INDEXED_Y, IS_ADC))  // ADC_INDIRECT_INDEXED_Y
    case 0x5 => Some((IS_TEMP_INDEXED_ZEROPAGE_X, IS_ADC))  // ADC_INDEXED_ZEROPAGE_X
    case 0x6 => Some((IS_TEMP_INDEXED_ZEROPAGE_X_RMW, IS_ROR))  // ROR_INDEXED_ZEROPAGE_X
    case 0x8 => Some((IS_TEMP_IMPLIED, IS_SEI))  // SEI
    case 0x9 => Some((IS_TEMP_INDEXED_ABSOLUTE_Y, IS_ADC))  // ADC_INDEXED_ABSOLUTE_Y
    case 0xD => Some((IS_TEMP_INDEXED_ABSOLUTE_X, IS_ADC))  // ADC_INDEXED_ABSOLUTE_X
    case 0xE => Some((IS_TEMP_INDEXED_ABSOLUTE_X_RMW, IS_ROR))  // ROR_INDEXED_ABSOLUTE_X
    case _ => None
  }

  /** Opcodes 0x80 to 0x8F. */
  function Row8(low: bv8): Option<(Template, Core)>
  {
    match low
    case 0x1 => Some((IS_TEMP_INDEXED_INDIRECT_X, IS_STA))  // STA_INDEXED_INDIRECT_X
    case 0x4 => Some((IS_TEMP_ZEROPAGE, IS_STY))  // STY_ZEROPAGE
    case 0x5 => Some((IS_TEMP_ZEROPAGE, IS_STA))  // STA_ZEROPAGE
    case 0x6 => Some((IS_TEMP_ZEROPAGE, IS_STX))  // STX_ZEROPAGE
    case 0x8 => Some((IS_TEMP_IMPLIED, IS_DEY))  // DEY
    case 0xA => Some((IS_TEMP_IMPLIED, IS_TXA))  // TXA
    case 0xC => Some((IS_TEMP_ABSOLUTE, IS_STY))  // STY_ABSOLUTE
    case 0xD => Some((IS_TEMP_ABSOLUTE, IS_STA))  // STA_ABSOLUTE
    case 0xE => Some((IS_TEMP_ABSOLUTE, IS_STX))  // STX_ABSOLUTE
    case _ => None
  }

  /** Opcodes 0x90 to 0x9F. */
  function Row9(low: bv8): Option<(Template, Core)>
  {
    match low
    case 0x0 => Some((IS_TEMP_RELATIVE, IS_BCC))  // BCC
    case 0x1 => Some((IS_TEMP_INDIRECT_INDEXED_Y, IS_STA))  // STA_INDIRECT_INDEXED_Y
    case 0x4 => Some((IS_TEMP_INDEXED_ZEROPAGE_X, IS_STY))  // STY_INDEXED_ZEROPAGE_X
    case 0x5 => Some((IS_TEMP_INDEXED_ZEROPAGE_X, IS_STA))  // STA_INDEXED_ZEROPAGE_X
    case 0x6 => Some((IS_TEMP_INDEXED_ZEROPAGE_Y, IS_STX))  // STX_INDEXED_ZEROPAGE_Y
    case 0x8 => Some((IS_TEMP_IMPLIED, IS_TYA))  // TYA
    case 0x9 => Some((IS_TEMP_INDEXED_ABSOLUTE_Y, IS_STA))  // STA_INDEXED_ABSOLUTE_Y
    case 0xA => Some((IS_TEMP_IMPLIED, IS_TXS))  // TXS
    case 0xD => Some((IS_TEMP_INDEXED_ABSOLUTE_X, IS_STA))  // STA_INDEXED_ABSOLUTE_X
    case _ => None
  }

  /** Opcodes 0xA0 to 0xAF. */
  function RowA(low: bv8): Option<(Template, Core)>
  {
    match low
    case 0x0 => Some((IS_TEMP_IMMEDIATE, IS_LDY))  // LDY_IMMEDIATE
    case 0x1 => Some((IS_TEMP_INDEXED_INDIRECT_X, IS_LDA))  // LDA_INDEXED_INDIRECT_X
    case 0x2 => Some((IS_TEMP_IMMEDIATE, IS_LDX))  // LDX_IMMEDIATE
    case 0x4 => Some((IS_TEMP_ZEROPAGE, IS_LDY))  // LDY_ZEROPAGE
    case 0x5 => Some((IS_TEMP_ZEROPAGE, IS_LDA))  // LDA_ZEROPAGE
    case 0x6 => Some((IS_TEMP_ZEROPAGE, IS_LDX))  // LDX_ZEROPAGE
    case 0x8 => Some((IS_TEMP_IMPLIED, IS_TAY))  // TAY
    case 0x9 => Some((IS_TEMP_IMMEDIATE, IS_LDA))  // LDA_IMMEDIATE
    case 0xA => Some((IS_TEMP_IMPLIED, IS_TAX))  // TAX
    case 0xC => Some((IS_TEMP_ABSOLUTE, IS_LDY))  // LDY_ABSOLUTE
    case 0xD => Some((IS_TEMP_ABSOLUTE, IS_LDA))  // LDA_ABSOLUTE
    case 0xE => Some((IS_TEMP_ABSOLUTE, IS_LDX))  // LDX_ABSOLUTE
    case _ => None
  }

  /** Opcodes 0xB0 to 0xBF. */
  function RowB(low: bv8): Option<(Template, Core)>
  {
    match low
    case 0x0 => Some((IS_TEMP_RELATIVE, IS_BCS))  // BCS
    case 0x1 => Some((IS_TEMP_INDIRECT_INDEXED_Y, IS_LDA))  // LDA_INDIRECT_INDEXED_Y
    case 0x4 => Some((IS_TEMP_INDEXED_ZEROPAGE_X, IS_LDY))  // LDY_INDEXED_ZEROPAGE_X
    case 0x5 => Some((IS_TEMP_INDEXED_ZEROPAGE_X, IS_LDA))  // LDA_INDEXED_ZEROPAGE_X
    case 0x6 => Some((IS_TEMP_INDEXED_ZEROPAGE_Y, IS_LDX))  // LDX_INDEXED_ZEROPAGE_Y
    case 0x8 => Some((IS_TEMP_IMPLIED, IS_CLV))  // CLV
    case 0x9 => Some((IS_TEMP_INDEXED_ABSOLUTE_Y, IS_LDA))  // LDA_INDEXED_ABSOLUTE_Y
    case 0xA => Some((IS_TEMP_IMPLIED, IS_TSX))  // TSX
    case 0xC => Some((IS_TEMP_INDEXED_ABSOLUTE_X, IS_LDY))  // LDY_INDEXED_ABSOLUTE_X
    case 0xD => Some((IS_TEMP_INDEXED_ABSOLUTE_X, IS_LDA))  // LDA_INDEXED_ABSOLUTE_X
    case 0xE => Some((IS_TEMP_INDEXED_ABSOLUTE_Y, IS_LDX))  // LDX_INDEXED_ABSOLUTE_Y
    case _ => None
  }

  /** Opcodes 0xC0 to 0xCF. */
  function RowC(low: bv8): Option<(Template, Core)>
  {
    match low
    case 0x0 => Some((IS_TEMP_IMMEDIATE, IS_CPY))  // CPY_IMMEDIATE
    case 0x1 => Some((IS_TEMP_INDEXED_INDIRECT_X, IS_CMP))  // CMP_INDEXED_INDIRECT_X
    case 0x4 => Some((IS_TEMP_ZEROPAGE, IS_CPY))  // CPY_ZEROPAGE
    case 0x5 => Some((IS_TEMP_ZEROPAGE, IS_CMP))  // CMP_ZEROPAGE
    case 0x6 => Some((IS_TEMP_ZEROPAGE_RMW, IS_DEC))  // DEC_ZEROPAGE
    case 0x8 => Some((IS_TEMP_IMPLIED, IS_INY))  // INY
    case 0x9 => Some((IS_TEMP_IMMEDIATE, IS_CMP))  // CMP_IMMEDIATE
    case 0xA => Some((IS_TEMP_IMPLIED, IS_DEX))  // DEX
    case 0xC => Some((IS_TEMP_ABSOLUTE, IS_CPY))  // CPY_ABSOLUTE
    case 0xD => Some((IS_TEMP_ABSOLUTE, IS_CMP))  // CMP_ABSOLUTE
    case 0xE => Some((IS_TEMP_ABSOLUTE_RMW, IS_DEC))  // DEC_ABSOLUTE
    case _ => None
  }

  /** Opcodes 0xD0 to 0xDF. */
  function RowD(low: bv8): Option<(Template, Core)>
  {
    match low
    case 0x0 => Some((IS_TEMP_RELATIVE, IS_BNE))  // BNE
    case 0x1 => Some((IS_TEMP_INDIRECT_INDEXED_Y, IS_CMP))  // CMP_INDIRECT_INDEXED_Y
    case 0x5 => Some((IS_TEMP_INDEXED_ZEROPAGE_X, IS_CMP))  // CMP_INDEXED_ZEROPAGE_X
    case 0x6 => Some((IS_TEMP_INDEXED_ZEROPAGE_X_RMW, IS_DEC))  // DEC_INDEXED_ZEROPAGE_X
    case 0x8 => Some((IS_TEMP_IMPLIED, IS_CLD))  // CLD
    case 0x9 => Some((IS_TEMP_INDEXED_ABSOLUTE_Y, IS_CMP))  // CMP_INDEXED_ABSOLUTE_Y
    case 0xD => Some((IS_TEMP_INDEXED_ABSOLUTE_X, IS_CMP))  // CMP_INDEXED_ABSOLUTE_X
    case 0xE => Some((IS_TEMP_INDEXED_ABSOLUTE_X_RMW, IS_DEC))  // DEC_INDEXED_ABSOLUTE_X
    case _ => None
  }

  /** Opcodes 0xE0 to 0xEF. */
  function RowE(low: bv8): Option<(Template, Core)>
  {
    match low
    case 0x0 => Some((IS_TEMP_IMMEDIATE, IS_CPX))  // CPX_IMMEDIATE
    case 0x1 => Some((IS_TEMP_INDEXED_INDIRECT_X, IS_SBC))  // SBC_INDEXED_INDIRECT_X
    case 0x4 => Some((IS_TEMP_ZEROPAGE, IS_CPX))  // CPX_ZEROPAGE
    case 0x5 => Some((IS_TEMP_ZEROPAGE, IS_SBC))  // SBC_ZEROPAGE
    case 0x6 => Some((IS_TEMP_ZEROPAGE_RMW, IS_INC))  // INC_ZEROPAGE
    case 0x8 => Some((IS_TEMP_IMPLIED, IS_INX))  // INX
    case 0x9 => Some((IS_TEMP_IMMEDIATE, IS_SBC))  // SBC_IMMEDIATE
    case 0xA => Some((IS_TEMP_IMPLIED, IS_NOP))  // NOP
    case 0xC => Some((IS_TEMP_ABSOLUTE, IS_CPX))  // CPX_ABSOLUTE
    case 0xD => Some((IS_TEMP_ABSOLUTE, IS_SBC))  // SBC_ABSOLUTE
    case 0xE => Some((IS_TEMP_ABSOLUTE_RMW, IS_INC))  // INC_ABSOLUTE
    case _ => None
  }

  /** Opcodes 0xF0 to 0xFF. */
  function RowF(low: bv8): Option<(Template, Core)>
  {
    match low
    case 0x0 => Some((IS_TEMP_RELATIVE, IS_BEQ))  // BEQ
    case 0x1 => Some((IS_TEMP_INDIRECT_INDEXED_Y, IS_SBC))  // SBC_INDIRECT_INDEXED_Y
    case 0x5 => Some((IS_TEMP_INDEXED_ZEROPAGE_X, IS_SBC))  // SBC_INDEXED_ZEROPAGE_X
    case 0x6 => Some((IS_TEMP_INDEXED_ZEROPAGE_X_RMW, IS_INC))  // INC_INDEXED_ZEROPAGE_X
    case 0x8 => Some((IS_TEMP_IMPLIED, IS_SED))  // SED
    case 0x9 => Some((IS_TEMP_INDEXED_ABSOLUTE_Y, IS_SBC))  // SBC_INDEXED_ABSOLUTE_Y
    case 0xD => Some((IS_TEMP_INDEXED_ABSOLUTE_X, IS_SBC))  // SBC_INDEXED_ABSOLUTE_X
    case 0xE => Some((IS_TEMP_INDEXED_ABSOLUTE_X_RMW, IS_INC))  // INC_INDEXED_ABSOLUTE_X
    case _ => None
  }

  /** BRK (opcode 0x00) has no descriptor: it is run as an interrupt. */
  lemma BrkHasNoEntry()
    ensures InstructionSet(0x00) == None
  {
  }

  /** No opcode whose two low bits are both set has a descriptor. */
  lemma LowBitsElevenHaveNoEntry(op: bv8)
    requires op & 3 == 3
    ensures InstructionSet(op) == None
  {
  }

  /** Opcode 0xA9 is LDA on the immediate template: immediate mode, register
      destination, two cycles. */
  lemma LdaImmediateEntry()
    ensures InstructionSet(0xA9) ==
      Some(Instruction("LDA", "IS_TEMP_IMMEDIATE", FnImmediate, Lda, Register, 2, Immediate))
  {
  }

  /** The branch cores in the order of their opcodes' three top bits. */
  const BRANCHES: seq<Core> := [IS_BPL, IS_BMI, IS_BVC, IS_BVS, IS_BCC, IS_BCS, IS_BNE, IS_BEQ]

  /** Every opcode of the form xxy10000 is a conditional branch on the
      relative template; its three top bits pick BPL, BMI, BVC, BVS, BCC,
      BCS, BNE or BEQ. */
  lemma BranchEntries(op: bv8)
    requires op & 0x1F == 0x10
    ensures InstructionSet(op) == Some(NewInstruction(IS_TEMP_RELATIVE, BRANCHES[(op >> 5) as int]))
  {
    match op >> 5
    case 0 => assert op == 0x10;
    case 1 => assert op == 0x30;
    case 2 => assert op == 0x50;
    case 3 => assert op == 0x70;
    case 4 => assert op == 0x90;
    case 5 => assert op == 0xB0;
    case 6 => assert op == 0xD0;
    case 7 => assert op == 0xF0;
  }

  /** The actions of the opcodes aaabbb01, in the order of aaa. */
  const GROUP_ONE: seq<CoreFn> := [Ora, And, Eor, Adc, Sta, Lda, Cmp, Sbc]

  /** The addressing modes of the opcodes aaabbb01, in the order of bbb. */
  const GROUP_ONE_MODES: seq<AddrMode> :=
    [IndexedIndirectX, ZeroPage, Immediate, Absolute,
     IndirectIndexedY, IndexedZeroPageX, IndexedAbsoluteY, IndexedAbsoluteX]

  /** Every opcode aaabbb01 has a descriptor, except 0x89: there is no
      immediate STA. */
  lemma GroupOneComplete(op: bv8)
    requires op & 3 == 1
    ensures InstructionSet(op).Some? <==> op != 0x89
  {
    match op >> 4
    case 0x0 =>
    case 0x1 =>
    case 0x2 =>
    case 0x3 =>
    case 0x4 =>
    case 0x5 =>
    case 0x6 =>
    case 0x7 =>
    case 0x8 =>
    case 0x9 =>
    case 0xA =>
    case 0xB =>
    case 0xC =>
    case 0xD =>
    case 0xE =>
    case 0xF =>
  }

  /** In every descriptor of an opcode aaabbb01, aaa chooses the action. */
  lemma GroupOneActions(op: bv8)
    requires op & 3 == 1 && InstructionSet(op).Some?
    ensures InstructionSet(op).value.fnCore == GROUP_ONE[(op >> 5) as int]
  {
    match op >> 4
    case 0x0 => assert GROUP_ONE[0] == Ora;
    case 0x1 => assert GROUP_ONE[0] == Ora;
    case 0x2 => assert GROUP_ONE[1] == And;
    case 0x3 => assert GROUP_ONE[1] == And;
    case 0x4 => assert GROUP_ONE[2] == Eor;
    case 0x5 => assert GROUP_ONE[2] == Eor;
    case 0x6 => assert GROUP_ONE[3] == Adc;
    case 0x7 => assert GROUP_ONE[3] == Adc;
    case 0x8 => assert GROUP_ONE[4] == Sta;
    case 0x9 => assert GROUP_ONE[4] == Sta;
    case 0xA => assert GROUP_ONE[5] == Lda;
    case 0xB => assert GROUP_ONE[5] == Lda;
    case 0xC => assert GROUP_ONE[6] == Cmp;
    case 0xD => assert GROUP_ONE[6] == Cmp;
    case 0xE => assert GROUP_ONE[7] == Sbc;
    case 0xF => assert GROUP_ONE[7] == Sbc;
  }

  /** In every descriptor of an opcode aaabbb01, bbb chooses the mode. */
  lemma GroupOneModes(op: bv8)
    requires op & 3 == 1 && InstructionSet(op).Some?
    ensures InstructionSet(op).value.addrMode == GROUP_ONE_MODES[((op >> 2) & 7) as int]
  {
    match op >> 4
    case 0x0 =>
    case 0x1 =>
    case 0x2 =>
    case 0x3 =>
    case 0x4 =>
    case 0x5 =>
    case 0x6 =>
    case 0x7 =>
    case 0x8 =>
    case 0x9 =>
    case 0xA =>
    case 0xB =>
    case 0xC =>
    case 0xD =>
    case 0xE =>
    case 0xF =>
  }

  /** What every entry of the table satisfies: a real routine with a budget
      of 2 to 7 cycles; never the immediate routine with the memory
      destination; a read-modify-write routine for every shift, rotate,
      increment and decrement; and the memory destination exactly for STA,
      STX and INC. */
  predicate WellFormed(e: Option<(Template, Core)>)
  {
    e.Some? ==>
      var (t, c) := e.value;
      t.fnExec != FnDummy && 2 <= t.totalClock <= 7 &&
      !(t.fnExec == FnImmediate && c.dst == Memory) &&
      (c.fnCore in {Asl, Rol, Lsr, Ror, Dec, Inc} ==>
         t.fnExec in {FnAccumulator, FnZeroPageRmw, FnAbsoluteRmw, FnIndexedZeroPageXRmw, FnIndexedAbsoluteXRmw}) &&
      (c.dst == Memory <==> c.fnCore in {Sta, Stx, Inc})
  }

  lemma Row0WellFormed(low: bv8)
    ensures WellFormed(Row0(low))
  {
    match low
    case 0x1 =>
    case 0x5 =>
    case 0x6 =>
    case 0x8 =>
    case 0x9 =>
    case 0xA =>
    case 0xD =>
    case 0xE =>
    case _ =>
  }

  lemma Row1WellFormed(low: bv8)
    ensures WellFormed(Row1(low))
  {
    match low
    case 0x0 =>
    case 0x1 =>
    case 0x5 =>
    case 0x6 =>
    case 0x8 =>
    case 0x9 =>
    case 0xD =>
    case 0xE =>
    case _ =>
  }

  lemma Row2WellFormed(low: bv8)
    ensures WellFormed(Row2(low))
  {
    match low
    case 0x0 =>
    case 0x1 =>
    case 0x4 =>
    case 0x5 =>
    case 0x6 =>
    case 0x8 =>
    case 0x9 =>
    case 0xA =>
    case 0xC =>
    case 0xD =>
    case 0xE =>
    case _ =>
  }

  lemma Row3WellFormed(low: bv8)
    ensures WellFormed(Row3(low))
  {
    match low
    case 0x0 =>
    case 0x1 =>
    case 0x5 =>
    case 0x6 =>
    case 0x8 =>
    case 0x9 =>
    case 0xD =>
    case 0xE =>
    case _ =>
  }

  lemma Row4WellFormed(low: bv8)
    ensures WellFormed(Row4(low))
  {
    match low
    case 0x0 =>
    case 0x1 =>
    case 0x5 =>
    case 0x6 =>
    case 0x8 =>
    case 0x9 =>
    case 0xA =>
    case 0xC =>
    case 0xD =>
    case 0xE =>
    case _ =>
  }

  lemma Row5WellFormed(low: bv8)
    ensures WellFormed(Row5(low))
  {
    match low
    case 0x0 =>
    case 0x1 =>
    case 0x5 =>
    case 0x6 =>
    case 0x8 =>
    case 0x9 =>
    case 0xD =>
    case 0xE =>
    case _ =>
  }

  lemma Row6WellFormed(low: bv8)
    ensures WellFormed(Row6(low))
  {
    match low
    case 0x0 =>
    case 0x1 =>
    case 0x5 =>
    case 0x6 =>
    case 0x8 =>
    case 0x9 =>
    case 0xA =>
    case 0xC =>
    case 0xD =>
    case 0xE =>
    case _ =>
  }

  lemma Row7WellFormed(low: bv8)
    ensures WellFormed(Row7(low))
  {
    match low
    case 0x0 =>
    case 0x1 =>
    case 0x5 =>
    case 0x6 =>
    case 0x8 =>
    case 0x9 =>
    case 0xD =>
    case 0xE =>
    case _ =>
  }

  lemma Row8WellFormed(low: bv8)
    ensures WellFormed(Row8(low))
  {
    match low
    case 0x1 =>
    case 0x4 =>
    case 0x5 =>
    case 0x6 =>
    case 0x8 =>
    case 0xA =>
    case 0xC =>
    case 0xD =>
    case 0xE =>
    case _ =>
  }

  lemma Row9WellFormed(low: bv8)
    ensures WellFormed(Row9(low))
  {
    match low
    case 0x0 =>
    case 0x1 =>
    case 0x4 =>
    case 0x5 =>
    case 0x6 =>
    case 0x8 =>
    case 0x9 =>
    case 0xA =>
    case 0xD =>
    case _ =>
  }

  lemma RowAWellFormed(low: bv8)
    ensures WellFormed(RowA(low))
  {
    match low
    case 0x0 =>
    case 0x1 =>
    case 0x2 =>
    case 0x4 =>
    case 0x5 =>
    case 0x6 =>
    case 0x8 =>
    case 0x9 =>
    case 0xA =>
    case 0xC =>
    case 0xD =>
    case 0xE =>
    case _ =>
  }

  lemma RowBWellFormed(low: bv8)
    ensures WellFormed(RowB(low))
  {
    match low
    case 0x0 =>
    case 0x1 =>
    case 0x4 =>
    case 0x5 =>
    case 0x6 =>
    case 0x8 =>
    case 0x9 =>
    case 0xA =>
    case 0xC =>
    case 0xD =>
    case 0xE =>
    case _ =>
  }

  lemma RowCWellFormed(low: bv8)
    ensures WellFormed(RowC(low))
  {
    match low
    case 0x0 =>
    case 0x1 =>
    case 0x4 =>
    case 0x5 =>
    case 0x6 =>
    case 0x8 =>
    case 0x9 =>
    case 0xA =>
    case 0xC =>
    case 0xD =>
    case 0xE =>
    case _ =>
  }

  lemma RowDWellFormed(low: bv8)
    ensures WellFormed(RowD(low))
  {
    match low
    case 0x0 =>
    case 0x1 =>
    case 0x5 =>
    case 0x6 =>
    case 0x8 =>
    case 0x9 =>
    case 0xD =>
    case 0xE =>
    case _ =>
  }

  lemma RowEWellFormed(low: bv8)
    ensures WellFormed(RowE(low))
  {
    match low
    case 0x0 =>
    case 0x1 =>
    case 0x4 =>
    case 0x5 =>
    case 0x6 =>
    case 0x8 =>
    case 0x9 =>
    case 0xA =>
    case 0xC =>
    case 0xD =>
    case 0xE =>
    case _ =>
  }

  lemma RowFWellFormed(low: bv8)
    ensures WellFormed(RowF(low))
  {
    match low
    case 0x0 =>
    case 0x1 =>
    case 0x5 =>
    case 0x6 =>
    case 0x8 =>
    case 0x9 =>
    case 0xD =>
    case 0xE =>
    case _ =>
  }

  lemma LayoutWellFormed(op: bv8)
    ensures WellFormed(Layout(op))
  {
    match op >> 4
    case 0x0 => Row0WellFormed(op & 0xF);
    case 0x1 => Row1WellFormed(op & 0xF);
    case 0x2 => Row2WellFormed(op & 0xF);
    case 0x3 => Row3WellFormed(op & 0xF);
    case 0x4 => Row4WellFormed(op & 0xF);
    case 0x5 => Row5WellFormed(op & 0xF);
    case 0x6 => Row6WellFormed(op & 0xF);
    case 0x7 => Row7WellFormed(op & 0xF);
    case 0x8 => Row8WellFormed(op & 0xF);
    case 0x9 => Row9WellFormed(op & 0xF);
    case 0xA => RowAWellFormed(op & 0xF);
    case 0xB => RowBWellFormed(op & 0xF);
    case 0xC => RowCWellFormed(op & 0xF);
    case 0xD => RowDWellFormed(op & 0xF);
    case 0xE => RowEWellFormed(op & 0xF);
    case 0xF => RowFWellFormed(op & 0xF);
    case _ =>
  }

  /** The table-wide facts, read off a descriptor. */
  lemma EntriesWellFormed(op: bv8)
    requires InstructionSet(op).Some?
    ensures var i := InstructionSet(op).value;
      i.fnExec != FnDummy && 2 <= i.minClock <= 7 &&
      !(i.fnExec == FnImmediate && i.dst == Memory) &&
      (i.fnCore in {Asl, Rol, Lsr, Ror, Dec, Inc} ==>
         i.fnExec in {FnAccumulator, FnZeroPageRmw, FnAbsoluteRmw, FnIndexedZeroPageXRmw, FnIndexedAbsoluteXRmw}) &&
      (i.dst == Memory <==> i.fnCore in {Sta, Stx, Inc})
  {
    LayoutWellFormed(op);
  }
}
