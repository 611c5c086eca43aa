// Instruction cores (src/nes/cpu/is_core.rs): the part of an instruction
// that depends on the mnemonic — its printed name, its action and where the
// action's result goes.
module IsCore {
  import opened ExecuterTypes

  /** `IsCore`. */
  datatype Core = Core(name: string, fnCore: CoreFn, dst: Destination)

  // The constants of src/nes/cpu/is_core.rs:13-347, in source order.
  const IS_DUMMY: Core := Core("DUMMY", CoreDummy, Register)
  const IS_ORA: Core := Core("ORA", Ora, Register)
  const IS_AND: Core := Core("AND", And, Register)
  const IS_EOR: Core := Core("EOR", Eor, Register)
  const IS_ADC: Core := Core("ADC", Adc, Register)
  const IS_STA: Core := Core("STA", Sta, Memory)
  const IS_LDA: Core := Core("LDA", Lda, Register)
  const IS_CMP: Core := Core("CMP", Cmp, Register)
  const IS_SBC: Core := Core("SBC", Sbc, Register)
  const IS_STX: Core := Core("STX", Stx, Memory)
  const IS_LDX: Core := Core("LDX", Ldx, Register)
  const IS_ASL: Core := Core("ASL", Asl, Register)
  const IS_ROL: Core := Core("ROL", Rol, Register)
  const IS_LSR: Core := Core("ISR", Lsr, Register)
  const IS_ROR: Core := Core("ROR", Ror, Register)
  const IS_DEC: Core := Core("DEC", Dec, Register)
  const IS_INC: Core := Core("INC", Inc, Memory)
  const IS_BIT: Core := Core("BIT", Bit, Register)
  const IS_JMP: Core := Core("JMP", Jmp, Register)
  const IS_STY: Core := Core("STY", Sty, Register)
  const IS_LDY: Core := Core("LDY", Ldy, Register)
  const IS_CPY: Core := Core("CPY", Cpy, Register)
  const IS_CPX: Core := Core("CPX", Cpx, Register)
  const IS_BPL: Core := Core("BPL", Bpl, Register)
  const IS_BMI: Core := Core("BMI", Bmi, Register)
  const IS_BVC: Core := Core("BVC", Bvc, Register)
  const IS_BVS: Core := Core("BVS", Bvs, Register)
  const IS_BCC: Core := Core("BCC", Bcc, Register)
  const IS_BCS: Core := Core("BCS", Bcs, Register)
  const IS_BNE: Core := Core("BNE", Bne, Register)
  const IS_BEQ: Core := Core("BEQ", Beq, Register)
  const IS_JSR: Core := Core("JSR", Jsr, Register)
  const IS_RTI: Core := Core("RTI", Rti, Register)
  const IS_RTS: Core := Core("RTS", Rts, Register)
  const IS_PHP: Core := Core("PHP", Php, Register)
  const IS_PLP: Core := Core("PLP", Plp, Register)
  const IS_PHA: Core := Core("PHA", Pha, Register)
  const IS_PLA: Core := Core("PLA", Pla, Register)
  const IS_DEY: Core := Core("DEY", Dey, Register)
  const IS_TAY: Core := Core("TAY", Tay, Register)
  const IS_INX: Core := Core("INX", Inx, Register)
  const IS_INY: Core := Core("INY", Iny, Register)
  const IS_CLC: Core := Core("CLC", Clc, Register)
  const IS_SEC: Core := Core("SEC", Sec, Register)
  const IS_CLI: Core := Core("CLI", Cli, Register)
  const IS_SEI: Core := Core("SEI", Sei, Register)
  const IS_TYA: Core := Core("TYA", Tya, Register)
  const IS_CLV: Core := Core("CLV", Clv, Register)
  const IS_CLD: Core := Core("CLD", Cld, Register)
  const IS_SED: Core := Core("SED", Sed, Register)
  const IS_TXA: Core := Core("TXA", Txa, Register)
  const IS_TXS: Core := Core("TXS", Txs, Register)
  const IS_TAX: Core := Core("TAX", Tax, Register)
  const IS_TSX: Core := Core("TSX", Tsx, Register)
  const IS_DEX: Core := Core("DEX", Dex, Register)
  const IS_NOP: Core := Core("NOP", Nop, Register)
  /** The core constant that holds a given action: every action has exactly
      one. */
  function CoreOf(f: CoreFn): (c: Core)
  {
    match f
    case CoreDummy => IS_DUMMY
    case Ora => IS_ORA
    case And => IS_AND
    case Eor => IS_EOR
    case Adc => IS_ADC
    case Sta => IS_STA
    case Lda => IS_LDA
    case Cmp => IS_CMP
    case Sbc => IS_SBC
    case Stx => IS_STX
    case Ldx => IS_LDX
    case Asl => IS_ASL
    case Rol => IS_ROL
    case Lsr => IS_LSR
    case Ror => IS_ROR
    case Dec => IS_DEC
    case Inc => IS_INC
    case Bit => IS_BIT
    case Jmp => IS_JMP
    case Sty => IS_STY
    case Ldy => IS_LDY
    case Cpy => IS_CPY
    case Cpx => IS_CPX
    case Bpl => IS_BPL
    case Bmi => IS_BMI
    case Bvc => IS_BVC
    case Bvs => IS_BVS
    case Bcc => IS_BCC
    case Bcs => IS_BCS
    case Bne => IS_BNE
    case Beq => IS_BEQ
    case Jsr => IS_JSR
    case Rti => IS_RTI
    case Rts => IS_RTS
    case Php => IS_PHP
    case Plp => IS_PLP
    case Pha => IS_PHA
    case Pla => IS_PLA
    case Dey => IS_DEY
    case Tay => IS_TAY
    case Inx => IS_INX
    case Iny => IS_INY
    case Clc => IS_CLC
    case Sec => IS_SEC
    case Cli => IS_CLI
    case Sei => IS_SEI
    case Tya => IS_TYA
    case Clv => IS_CLV
    case Cld => IS_CLD
    case Sed => IS_SED
    case Txa => IS_TXA
    case Txs => IS_TXS
    case Tax => IS_TAX
    case Tsx => IS_TSX
    case Dex => IS_DEX
    case Nop => IS_NOP
  }

  /** The standard assembler mnemonic of each action, written independently
      of the core table. */
  function Mnemonic(f: CoreFn): string
  {
    match f
    case CoreDummy => "DUMMY"
    case Ora => "ORA"
    case And => "AND"
    case Eor => "EOR"
    case Adc => "ADC"
    case Sta => "STA"
    case Lda => "LDA"
    case Cmp => "CMP"
    case Sbc => "SBC"
    case Stx => "STX"
    case Ldx => "LDX"
    case Asl => "ASL"
    case Rol => "ROL"
    case Lsr => "LSR"
    case Ror => "ROR"
    case Dec => "DEC"
    case Inc => "INC"
    case Bit => "BIT"
    case Jmp => "JMP"
    case Sty => "STY"
    case Ldy => "LDY"
    case Cpy => "CPY"
    case Cpx => "CPX"
    case Bpl => "BPL"
    case Bmi => "BMI"
    case Bvc => "BVC"
    case Bvs => "BVS"
    case Bcc => "BCC"
    case Bcs => "BCS"
    case Bne => "BNE"
    case Beq => "BEQ"
    case Jsr => "JSR"
    case Rti => "RTI"
    case Rts => "RTS"
    case Php => "PHP"
    case Plp => "PLP"
    case Pha => "PHA"
    case Pla => "PLA"
    case Dey => "DEY"
    case Tay => "TAY"
    case Inx => "INX"
    case Iny => "INY"
    case Clc => "CLC"
    case Sec => "SEC"
    case Cli => "CLI"
    case Sei => "SEI"
    case Tya => "TYA"
    case Clv => "CLV"
    case Cld => "CLD"
    case Sed => "SED"
    case Txa => "TXA"
    case Txs => "TXS"
    case Tax => "TAX"
    case Tsx => "TSX"
    case Dex => "DEX"
    case Nop => "NOP"
  }

  /** Each core constant holds the action it is named after. */
  lemma CoreOfHoldsAction(f: CoreFn)
    ensures CoreOf(f).fnCore == f
  {
  }

  /** Exactly the STA, STX and INC cores write their result to memory; every
      other core, STY and DEC included, has the register destination. */
  lemma MemoryDestinations(f: CoreFn)
    ensures CoreOf(f).dst == Memory <==> f == Sta || f == Stx || f == Inc
  {
  }

  /** Every core is named by its mnemonic except the LSR core, which is
      named "ISR". */
  lemma CoreNames(f: CoreFn)
    ensures CoreOf(f).name == Mnemonic(f) <==> f != Lsr
    ensures CoreOf(Lsr).name == "ISR"
  {
  }

  /** The eight branch cores and the dummy core have the register
      destination; the dummy core is named "DUMMY". */
  lemma BranchAndDummyCores(f: CoreFn)
    requires f in {Bpl, Bmi, Bvc, Bvs, Bcc, Bcs, Bne, Beq, CoreDummy}
    ensures CoreOf(f).dst == Register
    ensures IS_DUMMY == Core("DUMMY", CoreDummy, Register)
  {
  }
}
