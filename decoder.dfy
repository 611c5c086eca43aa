// The instruction decoder (src/nes/cpu/decoder.rs).  It fetches the opcode,
// then tries three tiers in turn: the "aaabbbcc" layout, the conditional
// branches "xxy10000", and a list of one-byte instructions.  The tiers only
// classify the opcode so far: none of them yields a cycle count, so every
// opcode ends in the invalid-opcode panic.
module Decoder {
  import opened Cpu
  import IsTemplate
  import Instruction

  /** The decoder's own addressing-mode enumeration, with `Invalid` for a
      field value that names no mode. */
  datatype AddrMode =
    | Invalid
    | Accumulator
    | Immediate
    | Absolute
    | ZeroPage
    | IndexedAbsoluteX
    | IndexedAbsoluteY
    | IndexedZeroPageX
    | IndexedIndirectX
    | IndirectIndexedY

  /** What one tier does with an opcode: yield a cycle count (`Some`), pass
      it on (`None`), or panic because the opcode is invalid. */
  datatype TierResult = Wait(cycles: bv8) | Pass | InvalidOp

  /** What `decode` does: return a cycle count, or panic naming the opcode. */
  datatype Decoded = Cycles(n: bv8) | Panic(opcode: bv8)

  /** The "aaa" field as the source computes it: the three top bits shifted
      right by four, not five. */
  function Aaa(op: bv8): bv8 { (op & 0xE0) >> 4 }

  /** The "bbb" field: bits 2 to 4. */
  function Bbb(op: bv8): bv8 { (op & 0x1C) >> 2 }

  /** The "cc" field: the two low bits. */
  function Cc(op: bv8): bv8 { op & 0x03 }

  /** `aaa` is twice the three top bits, so it is even and at most 14; `bbb`
      and `cc` are the middle and low fields, and the three fields give the
      opcode back. */
  lemma OpcodeFields(op: bv8)
    ensures Aaa(op) == (op >> 5) << 1 && Aaa(op) <= 14 && Aaa(op) & 1 == 0
    ensures Bbb(op) == (op >> 2) & 7 && Cc(op) <= 3
    ensures ((Aaa(op) >> 1) << 5) | (Bbb(op) << 2) | Cc(op) == op
  {
  }

  /** `decode_addr_tier1_01`: every value 0 to 7 names a mode. */
  function DecodeAddrTier1_01(bbb: bv8): (m: AddrMode)
    ensures m == Invalid <==> bbb > 7
  {
    match bbb
    case 0 => IndexedIndirectX
    case 1 => ZeroPage
    case 2 => Immediate
    case 3 => Absolute
    case 4 => IndirectIndexedY
    case 5 => IndexedZeroPageX
    case 6 => IndexedAbsoluteY
    case 7 => IndexedAbsoluteX
    case _ => Invalid
  }

  /** `decode_addr_tier1_10`: only 0, 1, 2, 3, 5 and 7 name a mode. */
  function DecodeAddrTier1_10(bbb: bv8): (m: AddrMode)
    ensures m != Invalid <==> bbb == 0 || bbb == 1 || bbb == 2 || bbb == 3 || bbb == 5 || bbb == 7
  {
    match bbb
    case 0 => Immediate
    case 1 => ZeroPage
    case 2 => Accumulator
    case 3 => Absolute
    case 5 => IndexedIndirectX
    case 7 => IndexedAbsoluteX
    case _ => Invalid
  }

  /** `decode_addr_tier1_00`: only 0, 1, 3, 5 and 7 name a mode. */
  function DecodeAddrTier1_00(bbb: bv8): (m: AddrMode)
    ensures m != Invalid <==> bbb == 0 || bbb == 1 || bbb == 3 || bbb == 5 || bbb == 7
  {
    match bbb
    case 0 => Immediate
    case 1 => ZeroPage
    case 3 => Absolute
    case 5 => IndexedIndirectX
    case 7 => IndexedAbsoluteX
    case _ => Invalid
  }

  /** `decode_tier1`.  For cc = 01 the mode comes from `bbb`; for cc = 10 and
      cc = 00 the whole opcode is handed to the mode decoder.  An invalid
      mode panics, and so does an `aaa` outside the listed arms (0 to 7 for
      cc = 01 and cc = 10, 1 to 7 for cc = 00) and every cc = 11 opcode.
      Otherwise the opcode is passed on. */
  function DecodeTier1(op: bv8): TierResult
  {
    var aaa := Aaa(op);
    var cc := Cc(op);
    if cc == 0x01 then
      if DecodeAddrTier1_01(Bbb(op)) == Invalid then InvalidOp
      else if aaa <= 7 then Pass else InvalidOp
    else if cc == 0x02 then
      if DecodeAddrTier1_10(op) == Invalid then InvalidOp
      else if aaa <= 7 then Pass else InvalidOp
    else if cc == 0x00 then
      if DecodeAddrTier1_00(op) == Invalid then InvalidOp
      else if 1 <= aaa <= 7 then Pass else InvalidOp
    else
      InvalidOp
  }

  /** `decode_tier2`: an opcode xxy10000 whose computed selector (the two top
      bits shifted right by five, so 0, 2, 4 or 6) is above 3 panics; every
      other opcode is passed on. */
  function DecodeTier2(op: bv8): TierResult
  {
    var sel := (op & 0xC0) >> 5;
    if op & 0x1F == 0x10 && sel > 3 then InvalidOp else Pass
  }

  /** The one-byte instructions `decode_tier3` recognises. */
  const ONE_BYTE_OPCODES: set<bv8> :=
    {0x00, 0x20, 0x40, 0x60, 0x08, 0x28, 0x48, 0x68, 0x88, 0xA8, 0xC8, 0xE8, 0x18,
     0x38, 0x58, 0x78, 0x98, 0xB8, 0xD8, 0xF8, 0x8A, 0x9A, 0xAA, 0xBA, 0xCA, 0xEA}

  /** `decode_tier3`: a listed opcode is passed on, any other panics. */
  function DecodeTier3(op: bv8): TierResult
  {
    if op in ONE_BYTE_OPCODES then Pass else InvalidOp
  }

  /** `decode` after the fetch: the first tier that yields a cycle count
      decides; a tier that panics, or running out of tiers, panics with the
      opcode. */
  function DecodeOpcode(op: bv8): Decoded
  {
    match DecodeTier1(op)
    case Wait(n) => Cycles(n)
    case InvalidOp => Panic(op)
    case Pass =>
      match DecodeTier2(op)
      case Wait(n) => Cycles(n)
      case InvalidOp => Panic(op)
      case Pass =>
        match DecodeTier3(op)
        case Wait(n) => Cycles(n)
        case _ => Panic(op)
  }

  /** `decode`: fetches the opcode (advancing PC) and runs the tiers. */
  method Decode(cpu: Cpu) returns (r: Decoded)
    modifies cpu.regs
    ensures cpu.Snapshot() == FetchNext(old(cpu.Snapshot())).0
    ensures r == DecodeOpcode(FetchNext(old(cpu.Snapshot())).1)
  {
    var opcode := cpu.Fetch();
    var tier := DecodeTier1(opcode);
    if tier.Wait? {
      return Cycles(tier.cycles);
    } else if tier.InvalidOp? {
      return Panic(opcode);
    }
    tier := DecodeTier2(opcode);
    if tier.Wait? {
      return Cycles(tier.cycles);
    } else if tier.InvalidOp? {
      return Panic(opcode);
    }
    tier := DecodeTier3(opcode);
    if tier.Wait? {
      return Cycles(tier.cycles);
    }
    return Panic(opcode);
  }

  /** The first tier passes on exactly the cc = 01 opcodes below 0x80 and
      opcode 0x02, and panics on every other opcode. */
  lemma Tier1Outcome(op: bv8)
    ensures DecodeTier1(op) == if (Cc(op) == 1 && op < 0x80) || op == 0x02 then Pass else InvalidOp
  {
    OpcodeFields(op);
  }

  /** Because the whole opcode reaches the mode decoders on the cc = 10 and
      cc = 00 paths, every such opcode from 8 up panics even when its `bbb`
      names a mode: LDX zero page (0xA6) has `bbb` = 1, a zero-page mode,
      and still panics. */
  lemma WholeOpcodeReachesModeDecoder(op: bv8)
    requires (Cc(op) == 0x02 || Cc(op) == 0x00) && op >= 8
    ensures DecodeTier1(op) == InvalidOp
    ensures DecodeAddrTier1_10(Bbb(0xA6)) == ZeroPage && DecodeTier1(0xA6) == InvalidOp
  {
  }

  /** The second tier panics exactly on the branch opcodes from 0x90 up
      (BCC, BCS, BNE, BEQ) and passes every other opcode on. */
  lemma Tier2Outcome(op: bv8)
    ensures DecodeTier2(op) == InvalidOp <==> op & 0x1F == 0x10 && op >= 0x80
  {
  }

  /** No tier ever yields a cycle count, so decoding any opcode panics with
      that opcode. */
  lemma DecodeAlwaysPanics(op: bv8)
    ensures DecodeOpcode(op) == Panic(op)
  {
  }

  /** The descriptor-table mode tag of each mode the decoder can name. */
  function ModeTag(m: AddrMode): (t: IsTemplate.AddrMode)
    requires m != Invalid
  {
    match m
    case Accumulator => IsTemplate.Accumulator
    case Immediate => IsTemplate.Immediate
    case Absolute => IsTemplate.Absolute
    case ZeroPage => IsTemplate.ZeroPage
    case IndexedAbsoluteX => IsTemplate.IndexedAbsoluteX
    case IndexedAbsoluteY => IsTemplate.IndexedAbsoluteY
    case IndexedZeroPageX => IsTemplate.IndexedZeroPageX
    case IndexedIndirectX => IsTemplate.IndexedIndirectX
    case IndirectIndexedY => IsTemplate.IndirectIndexedY
  }

  /** For the cc = 01 opcodes, the mode `decode_addr_tier1_01` reads from
      `bbb` is the mode tag of the opcode's descriptor in the table. */
  lemma Tier1ModesMatchTable(op: bv8)
    requires Cc(op) == 0x01 && Instruction.InstructionSet(op).Some?
    ensures ModeTag(DecodeAddrTier1_01(Bbb(op))) == Instruction.InstructionSet(op).value.addrMode
  {
    Instruction.GroupOneModes(op);
  }

  /** Of the one-byte instructions the third tier lists, all but BRK have a
      descriptor in the table. */
  lemma OneByteOpcodesInTable(op: bv8)
    requires op in ONE_BYTE_OPCODES
    ensures Instruction.InstructionSet(op).Some? <==> op != 0x00
  {
  }
}
