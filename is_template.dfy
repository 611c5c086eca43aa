// Instruction templates (src/nes/cpu/is_template.rs): the part of an
// instruction shared by every opcode that uses the same addressing mode —
// its cycle routine, its addressing-mode tag and its cycle budget.
module IsTemplate {
  import opened ExecuterTypes

  /** The addressing modes an instruction descriptor is tagged with
      (src/nes/cpu/instruction.rs:9-47). */
  datatype AddrMode =
    | Accumulator
    | Immediate
    | Absolute
    | ZeroPage
    | IndexedAbsoluteX
    | IndexedAbsoluteY
    | IndexedZeroPageX
    | IndexedIndirectX
    | IndirectIndexedY
    | Indirect
    | Relative
    | Implied

  /** `IsTemplate`.  `totalClock` is the largest number of cycles the
      instruction needs (a `u8`); `name` is the identifier of the constant,
      which is what the descriptor's `template_name` refers to. */
  datatype Template = Template(name: string, totalClock: nat, fnExec: ExecFn, addrMode: AddrMode)

  // src/nes/cpu/is_template.rs:14-18
  const IS_TEMP_DUMMY: Template := Template("IS_TEMP_DUMMY", 255, FnDummy, Absolute)

  // src/nes/cpu/is_template.rs:20-24
  const IS_TEMP_INDEXED_INDIRECT_X: Template := Template("IS_TEMP_INDEXED_INDIRECT_X", 6, FnIndexedIndirectX, IndexedIndirectX)

  // src/nes/cpu/is_template.rs:26-30
  const IS_TEMP_ZEROPAGE: Template := Template("IS_TEMP_ZEROPAGE", 3, FnZeroPage, ZeroPage)

  // src/nes/cpu/is_template.rs:32-36
  const IS_TEMP_IMMEDIATE: Template := Template("IS_TEMP_IMMEDIATE", 2, FnImmediate, Immediate)

  // src/nes/cpu/is_template.rs:38-42
  const IS_TEMP_ABSOLUTE: Template := Template("IS_TEMP_ABSOLUTE", 4, FnAbsolute, Absolute)

  // src/nes/cpu/is_template.rs:44-48
  const IS_TEMP_INDIRECT_INDEXED_Y: Template := Template("IS_TEMP_INDIRECT_INDEXED_Y", 6, FnIndirectIndexedY, IndirectIndexedY)

  // src/nes/cpu/is_template.rs:50-54
  const IS_TEMP_INDEXED_ZEROPAGE_Y: Template := Template("IS_TEMP_INDEXED_ZEROPAGE_Y", 4, FnIndexedZeroPageY, IndexedZeroPageX)

  // src/nes/cpu/is_template.rs:56-60
  const IS_TEMP_INDEXED_ZEROPAGE_X: Template := Template("IS_TEMP_INDEXED_ZEROPAGE_X", 4, FnIndexedZeroPageX, IndexedZeroPageX)

  // src/nes/cpu/is_template.rs:62-66
  const IS_TEMP_INDEXED_ABSOLUTE_Y: Template := Template("IS_TEMP_INDEXED_ABSOLUTE_Y", 5, FnIndexedAbsoluteY, IndexedAbsoluteY)

  // src/nes/cpu/is_template.rs:68-72
  const IS_TEMP_INDEXED_ABSOLUTE_X: Template := Template("IS_TEMP_INDEXED_ABSOLUTE_X", 5, FnIndexedAbsoluteX, IndexedAbsoluteX)

  // src/nes/cpu/is_template.rs:74-78
  const IS_TEMP_ZEROPAGE_RMW: Template := Template("IS_TEMP_ZEROPAGE_RMW", 5, FnZeroPageRmw, ZeroPage)

  // src/nes/cpu/is_template.rs:80-84
  const IS_TEMP_ACCUMULATOR_RMW: Template := Template("IS_TEMP_ACCUMULATOR_RMW", 2, FnAccumulator, Accumulator)

  // src/nes/cpu/is_template.rs:86-90
  const IS_TEMP_ABSOLUTE_RMW: Template := Template("IS_TEMP_ABSOLUTE_RMW", 6, FnAbsoluteRmw, Absolute)

  // src/nes/cpu/is_template.rs:92-96
  const IS_TEMP_INDEXED_ZEROPAGE_X_RMW: Template := Template("IS_TEMP_INDEXED_ZEROPAGE_X_RMW", 6, FnIndexedZeroPageXRmw, IndexedZeroPageX)

  // src/nes/cpu/is_template.rs:98-102
  const IS_TEMP_INDEXED_ABSOLUTE_X_RMW: Template := Template("IS_TEMP_INDEXED_ABSOLUTE_X_RMW", 7, FnIndexedAbsoluteXRmw, IndexedAbsoluteX)

  // src/nes/cpu/is_template.rs:104-108
  const IS_TEMP_INDIRECT_JMP: Template := Template("IS_TEMP_INDIRECT_JMP", 5, FnIndirectJmp, Indirect)

  // src/nes/cpu/is_template.rs:110-114
  const IS_TEMP_ABSOLUTE_JMP: Template := Template("IS_TEMP_ABSOLUTE_JMP", 3, FnAbsoluteJmp, Absolute)

  // src/nes/cpu/is_template.rs:116-120
  const IS_TEMP_RELATIVE: Template := Template("IS_TEMP_RELATIVE", 4, FnRelative, Relative)

  // src/nes/cpu/is_template.rs:123-127
  const IS_TEMP_JSR: Template := Template("IS_TEMP_JSR", 6, FnJsr, Absolute)

  // src/nes/cpu/is_template.rs:130-134
  const IS_TEMP_RTI: Template := Template("IS_TEMP_RTI", 6, FnRti, Implied)

  // src/nes/cpu/is_template.rs:137-141
  const IS_TEMP_RTS: Template := Template("IS_TEMP_RTS", 6, FnRts, Implied)

  // src/nes/cpu/is_template.rs:143-147
  const IS_TEMP_PUSH_STACK: Template := Template("IS_TEMP_PUSH_STACK", 3, FnPushStack, Implied)

  // src/nes/cpu/is_template.rs:149-153
  const IS_TEMP_PULL_STACK: Template := Template("IS_TEMP_PULL_STACK", 4, FnPullStack, Implied)

  // src/nes/cpu/is_template.rs:155-159
  const IS_TEMP_IMPLIED: Template := Template("IS_TEMP_IMPLIED", 2, FnImplied, Implied)

  /** The templates whose routine only reads its operand (or none) and then
      calls the action once. */
  predicate IsReadTemplate(t: Template)
  {
    t == IS_TEMP_IMMEDIATE || t == IS_TEMP_ZEROPAGE || t == IS_TEMP_ABSOLUTE ||
    t == IS_TEMP_INDEXED_ZEROPAGE_X || t == IS_TEMP_INDEXED_ZEROPAGE_Y ||
    t == IS_TEMP_INDEXED_ABSOLUTE_X || t == IS_TEMP_INDEXED_ABSOLUTE_Y ||
    t == IS_TEMP_INDEXED_INDIRECT_X || t == IS_TEMP_INDIRECT_INDEXED_Y
  }

  /** The read-modify-write templates. */
  predicate IsRmwTemplate(t: Template)
  {
    t == IS_TEMP_ACCUMULATOR_RMW || t == IS_TEMP_ZEROPAGE_RMW || t == IS_TEMP_ABSOLUTE_RMW ||
    t == IS_TEMP_INDEXED_ZEROPAGE_X_RMW || t == IS_TEMP_INDEXED_ABSOLUTE_X_RMW
  }

  /** The cycle budget of a read template: two cycles for an immediate
      operand, one more per operand byte fetched and per pointer byte read,
      and one extra for a possible page crossing. */
  lemma ReadTemplateClocks(t: Template)
    requires IsReadTemplate(t)
    ensures t.totalClock == match t.addrMode
      case Immediate => 2
      case ZeroPage => 3
      case Absolute | IndexedZeroPageX => 4
      case IndexedAbsoluteX | IndexedAbsoluteY => 5
      case _ => 6
  {
  }

  /** A read-modify-write template costs two cycles more than the read
      template with the same addressing mode (one to modify, one to write
      back); the accumulator form needs no memory access and costs 2. */
  lemma RmwTemplateClocks()
    ensures IS_TEMP_ACCUMULATOR_RMW.totalClock == 2
    ensures IS_TEMP_ZEROPAGE_RMW.totalClock == IS_TEMP_ZEROPAGE.totalClock + 2 == 5
    ensures IS_TEMP_ABSOLUTE_RMW.totalClock == IS_TEMP_ABSOLUTE.totalClock + 2 == 6
    ensures IS_TEMP_INDEXED_ZEROPAGE_X_RMW.totalClock == IS_TEMP_INDEXED_ZEROPAGE_X.totalClock + 2 == 6
    ensures IS_TEMP_INDEXED_ABSOLUTE_X_RMW.totalClock == IS_TEMP_INDEXED_ABSOLUTE_X.totalClock + 2 == 7
    ensures forall t :: IsRmwTemplate(t) ==> t.addrMode != Immediate && t.addrMode != Relative
  {
  }

  /** Cycle budgets of the jump, subroutine, stack and implied templates. */
  lemma ControlTemplateClocks()
    ensures IS_TEMP_ABSOLUTE_JMP.totalClock == 3 && IS_TEMP_INDIRECT_JMP.totalClock == 5
    ensures IS_TEMP_JSR.totalClock == 6 && IS_TEMP_RTI.totalClock == 6 && IS_TEMP_RTS.totalClock == 6
    ensures IS_TEMP_PUSH_STACK.totalClock == 3 && IS_TEMP_PULL_STACK.totalClock == 4
    ensures IS_TEMP_IMPLIED.totalClock == 2 && IS_TEMP_RELATIVE.totalClock == 4
  {
  }

  /** The zero-page,Y template runs the Y-indexed routine but carries the
      X-indexed mode tag, so its tag does not tell it apart from zero-page,X. */
  lemma ZeroPageYTaggedAsX()
    ensures IS_TEMP_INDEXED_ZEROPAGE_Y.fnExec == FnIndexedZeroPageY
    ensures IS_TEMP_INDEXED_ZEROPAGE_Y.addrMode == IS_TEMP_INDEXED_ZEROPAGE_X.addrMode == IndexedZeroPageX
    ensures IS_TEMP_INDEXED_ZEROPAGE_Y.fnExec != IS_TEMP_INDEXED_ZEROPAGE_X.fnExec
  {
  }

  /** The dummy template has the largest `u8` cycle budget, the dummy routine
      and the absolute tag; every other template needs between 2 and 7 cycles. */
  lemma DummyTemplate(t: Template)
    requires IsReadTemplate(t) || IsRmwTemplate(t)
    ensures IS_TEMP_DUMMY.totalClock == 255 && IS_TEMP_DUMMY.fnExec == FnDummy
    ensures IS_TEMP_DUMMY.addrMode == Absolute
    ensures 2 <= t.totalClock <= 7 && t.fnExec != FnDummy
  {
  }
}
