// The plain data of the instruction executer (src/nes/cpu/executer.rs:11-39):
// which per-cycle routine drives an instruction, which per-opcode action it
// calls, and where the action's result goes.  Function pointers of the source
// become tags here; the modules that hold the routines dispatch on them.
module ExecuterTypes {

  /** Where an instruction's final result goes. */
  datatype Destination = Register | Memory

  /** The per-cycle routines (`FnExec`).  The first twelve are written out in
      src/nes/cpu/executer.rs; the rest are named by the templates but their
      bodies are not modelled. */
  datatype ExecFn =
    | FnDummy
    | FnImmediate
    | FnZeroPage
    | FnIndexedZeroPageX
    | FnIndexedZeroPageY
    | FnAbsolute
    | FnAccumulator
    | FnImplied
    | FnIndexedAbsoluteX
    | FnIndexedAbsoluteY
    | FnIndexedIndirectX
    | FnIndirectIndexedY
    | FnZeroPageRmw
    | FnAbsoluteRmw
    | FnIndexedZeroPageXRmw
    | FnIndexedAbsoluteXRmw
    | FnIndirectJmp
    | FnAbsoluteJmp
    | FnRelative
    | FnJsr
    | FnRti
    | FnRts
    | FnPushStack
    | FnPullStack

  /** The routines whose bodies are modelled. */
  predicate IsModelledExec(e: ExecFn)
  {
    e.FnDummy? || e.FnImmediate? || e.FnZeroPage? || e.FnIndexedZeroPageX? ||
    e.FnIndexedZeroPageY? || e.FnAbsolute? || e.FnAccumulator? || e.FnImplied? ||
    e.FnIndexedAbsoluteX? || e.FnIndexedAbsoluteY? || e.FnIndexedIndirectX? ||
    e.FnIndirectIndexedY?
  }

  /** The per-opcode actions (`FnCore`), one per core record of
      src/nes/cpu/is_core.rs. */
  datatype CoreFn =
    | CoreDummy
    | Ora | And | Eor | Adc | Sta | Lda | Cmp | Sbc
    | Stx | Ldx | Asl | Rol | Lsr | Ror | Dec | Inc
    | Bit | Jmp | Sty | Ldy | Cpy | Cpx
    | Bpl | Bmi | Bvc | Bvs | Bcc | Bcs | Bne | Beq
    | Jsr | Rti | Rts | Php | Plp | Pha | Pla
    | Dey | Tay | Inx | Iny | Clc | Sec | Cli | Sei
    | Tya | Clv | Cld | Sed | Txa | Txs | Tax | Tsx | Dex | Nop

  /** The actions whose bodies are modelled: the dummy action and
      the group 1 and group 3 actions.  The group 2 actions (shifts, rotates,
      INC/DEC, BIT, JMP, STX/STY, LDY, CPX/CPY and the branches) are not. */
  predicate IsModelledCore(c: CoreFn)
  {
    !(c.Stx? || c.Asl? || c.Rol? || c.Lsr? || c.Ror? || c.Dec? || c.Inc? ||
      c.Bit? || c.Jmp? || c.Sty? || c.Ldy? || c.Cpy? || c.Cpx? ||
      c.Bpl? || c.Bmi? || c.Bvc? || c.Bvs? || c.Bcc? || c.Bcs? || c.Bne? || c.Beq?)
  }

  /** The routine, the action and the destination of the instruction in flight. */
  datatype Executer = Executer(fnExec: ExecFn, fnCore: CoreFn, dst: Destination)

  /** `Executer::default()`: the dummy routine and action, register destination. */
  const DEFAULT_EXECUTER: Executer := Executer(FnDummy, CoreDummy, Register)
}
