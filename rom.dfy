// The cartridge image parser (src/nes/rom.rs): reads the 16-byte iNES /
// NES 2.0 header (format as described on the nesdev wiki pages "INES" and
// "NES 2.0"), then copies the trainer, PRG-ROM and CHR-ROM blocks that follow.
// Sizes are `usize`/`u32` in the source; they stay well inside those widths
// except in `calculate_rom_size`, whose 32-bit wrap-around is written out.
module Rom {
  import Util

  const PRG_ROM_UNIT_SIZE: nat := 0x4000
  const CHR_ROM_UNIT_SIZE: nat := 0x2000
  const HEADER_LEN: nat := 16
  const TRAINER_LEN: nat := 512

  /** 2^32: `u32` arithmetic wraps modulo this. */
  const U32_MOD: nat := 0x1_0000_0000

  /** Nametable mirroring. */
  datatype MirroringType = None | Horizontal | Vertical

  datatype ConsoleType = Nes | VsSystem | Playchoice10 | Extended

  datatype TvFormat = NTSC | PAL

  datatype CpuTiming = NTSC | PAL | MultiRegion | Dendy

  /** `NesRom`: the blocks and header fields of a parsed image. */
  datatype NesRom = NesRom(
    prgRom: seq<bv8>,
    chrRom: seq<bv8>,
    trainer: Util.Option<seq<bv8>>,
    mirroringType: MirroringType,
    batteryBacked: bool,
    consoleType: ConsoleType,
    mapperNo: bv16,
    prgRamSize: nat,
    eepromSize: nat,
    tvFormat: TvFormat,
    chrRamSize: nat,
    chrNvramSize: nat,
    cpuTiming: CpuTiming,
    vssystemType: bv8,
    vshardwareType: bv8)

  /** What `parse` does with an image: a ROM, an error message, or a panic
      because a block reaches past the end of the input. */
  datatype Parsed = Ok(rom: NesRom) | Err(msg: string) | OutOfRange

  function Pow2(e: nat): (r: nat)
    ensures r >= 1
  {
    if e == 0 then 1 else 2 * Pow2(e - 1)
  }

  /** Powers of two grow with the exponent. */
  lemma {:induction false} Pow2Monotone(a: nat, b: nat)
    requires a <= b
    ensures Pow2(a) <= Pow2(b)
  {
    if a < b {
      Pow2Monotone(a, b - 1);
    }
  }

  /** Exponents add: 2^(a+b) = 2^a * 2^b. */
  lemma {:induction false} Pow2Add(a: nat, b: nat)
    ensures Pow2(a + b) == Pow2(a) * Pow2(b)
  {
    if b > 0 {
      Pow2Add(a, b - 1);
      assert Pow2(a + b) == 2 * Pow2(a + b - 1);
    }
  }

  /** The powers the size computations meet. */
  lemma Pow2Values()
    ensures Pow2(15) == 0x8000 && Pow2(29) == 0x2000_0000 && Pow2(32) == U32_MOD
  {
    assert Pow2(8) == 256;
    assert Pow2(15) == 0x8000;
    assert Pow2(24) == 0x100_0000;
  }

  // ---------------------------------------------------------------------
  // Header bytes 6 and 7

  /** `parse_flag6`: (mirroring, battery, trainer, mapper bits 0-3). */
  function ParseFlag6(flags: bv8): (r: (MirroringType, bool, bool, bv8))
  {
    var mirroring :=
      if flags & 0x08 != 0 then MirroringType.None
      else if flags & 0x01 != 0 then Vertical
      else Horizontal;
    (mirroring, flags & 0x02 != 0, flags & 0x04 != 0, (flags & 0xF0) >> 4)
  }

  /** The byte 6 that describes the given fields: the inverse of
      `ParseFlag6`. */
  function EncodeFlag6(mirroring: MirroringType, battery: bool, trainer: bool, mapperLower: bv8): bv8
  {
    (mapperLower << 4)
    | (if mirroring.None? then 0x08 else 0)
    | (if trainer then 0x04 else 0)
    | (if battery then 0x02 else 0)
    | (if mirroring.Vertical? then 0x01 else 0)
  }

  /** Byte 6 round trip: encoding then parsing gives the fields back, and
      parsing then encoding gives the byte back unless bits 3 and 0 are both
      set (bit 0 is ignored once bit 3 selects no mirroring). */
  lemma Flag6RoundTrip(mirroring: MirroringType, battery: bool, trainer: bool, mapperLower: bv8, flags: bv8)
    requires mapperLower <= 0x0F
    ensures ParseFlag6(EncodeFlag6(mirroring, battery, trainer, mapperLower)) ==
      (mirroring, battery, trainer, mapperLower)
    ensures var (m, b, t, l) := ParseFlag6(flags);
      (EncodeFlag6(m, b, t, l) == flags <==> flags & 0x09 != 0x09)
  {
  }

  /** `parse_flag7`: (console type, NES 2.0 identifier, mapper bits 4-7). */
  function ParseFlag7(flags: bv8): (r: (ConsoleType, bool, bv8))
  {
    var console :=
      match flags & 0x03
      case 0 => Nes
      case 1 => VsSystem
      case 2 => Playchoice10
      case _ => Extended;
    (console, (flags & 0x0C) >> 2 == 2, (flags & 0xF0) >> 4)
  }

  /** The low two bits that select each console type. */
  function ConsoleBits(c: ConsoleType): bv8
  {
    match c
    case Nes => 0
    case VsSystem => 1
    case Playchoice10 => 2
    case Extended => 3
  }

  /** The byte 7 that describes the given fields (bits 2-3 are 10 for
      NES 2.0 and 00 for iNES): the inverse of `ParseFlag7`. */
  function EncodeFlag7(console: ConsoleType, isNes20: bool, mapperMiddle: bv8): bv8
  {
    (mapperMiddle << 4) | (if isNes20 then 0x08 else 0) | ConsoleBits(console)
  }

  /** Byte 7 round trip: encoding then parsing gives the fields back; NES 2.0
      is recognised exactly when bits 2-3 are 10, and parsing then encoding
      gives the byte back exactly when bits 2-3 are 00 or 10. */
  lemma Flag7RoundTrip(console: ConsoleType, isNes20: bool, mapperMiddle: bv8, flags: bv8)
    requires mapperMiddle <= 0x0F
    ensures ParseFlag7(EncodeFlag7(console, isNes20, mapperMiddle)) == (console, isNes20, mapperMiddle)
    ensures ParseFlag7(flags).1 <==> flags & 0x0C == 0x08
    ensures var (c, n, m) := ParseFlag7(flags);
      (EncodeFlag7(c, n, m) == flags <==> flags & 0x04 == 0)
  {
  }

  // ---------------------------------------------------------------------
  // Header bytes 8 to 15

  /** `parse_flag8` (iNES): PRG-RAM size in 8 KiB units, 0 counting as 1. */
  function ParseFlag8(flags: bv8): (size: nat)
    ensures size == 0x2000 * (if flags == 0 then 1 else flags as int)
    ensures size >= 0x2000
  {
    if flags == 0 then 0x2000 else 0x2000 * (flags as int)
  }

  /** `parse_flag8_v2` (NES 2.0): (mapper bits 8-11, submapper).  Both are
      taken from the low nibble. */
  function ParseFlag8V2(flags: bv8): (r: (bv8, bv8))
    ensures r.0 <= 0x0F && r.0 == r.1
  {
    (flags & 0x0F, flags & 0x0F)
  }

  /** `parse_flag9` (iNES): bit 0 selects PAL. */
  function ParseFlag9(flags: bv8): (tv: TvFormat)
    ensures tv == TvFormat.PAL <==> flags & 1 == 1
  {
    if flags & 0x01 == 0 then TvFormat.NTSC else TvFormat.PAL
  }

  /** `parse_flag9_v2` (NES 2.0): (PRG-ROM size MSB, CHR-ROM size MSB).  The
      CHR part is masked but not shifted down. */
  function ParseFlag9V2(flags: bv8): (r: (bv8, bv8))
  {
    (flags & 0x0F, flags & 0xF0)
  }

  /** The two parts of byte 9 split it: the PRG part is the low nibble, the
      CHR part keeps the high nibble in place, and together they give the
      byte back. */
  lemma Flag9V2Split(flags: bv8)
    ensures ParseFlag9V2(flags).0 <= 0x0F && ParseFlag9V2(flags).1 & 0x0F == 0
    ensures ParseFlag9V2(flags).0 | ParseFlag9V2(flags).1 == flags
  {
  }

  /** `64 << shift` for a 4-bit shift count: no `u32` overflow is possible. */
  function ShiftSize(shift: nat): (size: nat)
    requires shift <= 15
    ensures 64 <= size <= 0x20_0000
  {
    Pow2Monotone(shift, 15);
    Pow2Values();
    64 * Pow2(shift)
  }

  /** `parse_flag10_v2` (NES 2.0): (PRG-RAM size, EEPROM size) as
      `64 << shift`, the PRG-RAM shift count read from the high nibble and
      the EEPROM one from the low nibble. */
  function ParseFlag10V2(flags: bv8): (r: (nat, nat))
  {
    (ShiftSize(((flags >> 4) & 0x0F) as int), ShiftSize((flags & 0x0F) as int))
  }

  /** `parse_flag11_v2` (NES 2.0): (CHR-RAM size, CHR-NVRAM size), shift
      counts from the high and low nibble. */
  function ParseFlag11V2(flags: bv8): (r: (nat, nat))
  {
    (ShiftSize(((flags >> 4) & 0x0F) as int), ShiftSize((flags & 0x0F) as int))
  }

  /** A zero shift count still gives 64 bytes: the RAM sizes of bytes 10 and
      11 are never zero, and each is 64 times a power of two. */
  lemma ShiftSizesNeverZero(flags: bv8)
    ensures ParseFlag10V2(flags) == ParseFlag11V2(flags)
    ensures ParseFlag10V2(0) == (64, 64)
    ensures ParseFlag10V2(flags).0 == 64 * Pow2((flags >> 4) as int)
    ensures ParseFlag10V2(flags).1 == 64 * Pow2((flags & 0x0F) as int)
    ensures 64 <= ParseFlag10V2(flags).0 && 64 <= ParseFlag10V2(flags).1
  {
  }

  /** `parse_flag12_v2` (NES 2.0): the timing mode, selected on
      `flags | 0b11`. */
  function ParseFlag12V2(flags: bv8): (t: CpuTiming)
  {
    match flags | 0x03
    case 0 => CpuTiming.NTSC
    case 1 => CpuTiming.PAL
    case 2 => MultiRegion
    case 3 => Dendy
    case _ => CpuTiming.NTSC
  }

  /** Because the selector has both low bits set, byte 12 only ever yields
      Dendy (when bits 2-7 are clear) or NTSC (otherwise). */
  lemma Flag12V2Outcomes(flags: bv8)
    ensures ParseFlag12V2(flags) == Dendy <==> flags <= 3
    ensures ParseFlag12V2(flags) != Dendy ==> ParseFlag12V2(flags) == CpuTiming.NTSC
  {
  }

  /** `parse_flag13_v2` (NES 2.0): (Vs. PPU type, Vs. hardware type). */
  function ParseFlag13V2(flags: bv8): (r: (bv8, bv8))
  {
    (flags & 0x0F, (flags >> 4) & 0x0F)
  }

  /** Byte 13 splits into two nibbles that give the byte back. */
  lemma Flag13V2RoundTrip(flags: bv8)
    ensures ParseFlag13V2(flags).0 <= 0x0F && ParseFlag13V2(flags).1 <= 0x0F
    ensures (ParseFlag13V2(flags).1 << 4) | ParseFlag13V2(flags).0 == flags
  {
  }

  /** `parse_flag14_v2`: the number of miscellaneous ROMs (2 bits). */
  function ParseFlag14V2(flags: bv8): (n: bv8)
    ensures n <= 3 && n | (flags & 0xFC) == flags
  {
    flags & 0x03
  }

  /** `parse_flag15_v2`: the default expansion device (6 bits). */
  function ParseFlag15V2(flags: bv8): (d: bv8)
    ensures d <= 0x3F && d | (flags & 0xC0) == flags
  {
    flags & 0x3F
  }

  /** `calculate_rom_size` (NES 2.0): with MSB nibble 0xF, the exponent-
      multiplier form 2^E * (2 * MM + 1) in wrapping `u32` arithmetic, with
      E = lower >> 2 and MM = lower & 3; otherwise `upper << 8 | lower`. */
  function CalculateRomSize(upper: bv8, lower: bv8): (size: nat)
  {
    if upper == 0x0F then
      var mm := (lower & 0x03) as int;
      var exponent := (lower >> 2) as int;
      (Pow2(exponent) % U32_MOD) * (mm * 2 + 1) % U32_MOD
    else
      (((upper as bv16) << 8) | (lower as bv16)) as int
  }

  /** Outside the exponent form the size is `upper * 256 + lower`, so upper
      and lower can be read back from it. */
  lemma RomSizePlainForm(upper: bv8, lower: bv8)
    requires upper != 0x0F
    ensures CalculateRomSize(upper, lower) == upper as int * 256 + lower as int
    ensures CalculateRomSize(upper, lower) / 256 == upper as int
    ensures CalculateRomSize(upper, lower) % 256 == lower as int
  {
    var v := ((upper as bv16) << 8) | (lower as bv16);
    assert v == (upper as bv16) * 256 + (lower as bv16);
  }

  /** In the exponent form, exponents up to 29 give exactly
      2^E * (2 * MM + 1); exponents from 32 up wrap to 0. */
  lemma RomSizeExponentForm(lower: bv8)
    ensures var e := (lower >> 2) as int;
      var mm := (lower & 3) as int;
      (e <= 29 ==> CalculateRomSize(0x0F, lower) == Pow2(e) * (2 * mm + 1)) &&
      (e >= 32 ==> CalculateRomSize(0x0F, lower) == 0)
  {
    var e := (lower >> 2) as int;
    var mm := (lower & 3) as int;
    if e <= 29 {
      SmallExponent(e, mm);
    } else if e >= 32 {
      LargeExponent(e, mm);
    }
  }

  /** Below exponent 30 neither `u32` product wraps. */
  lemma SmallExponent(e: nat, mm: nat)
    requires e <= 29 && mm <= 3
    ensures (Pow2(e) % U32_MOD) * (mm * 2 + 1) % U32_MOD == Pow2(e) * (2 * mm + 1)
  {
    var p := Pow2(e);
    assert p <= 0x2000_0000 by {
      Pow2Values();
      Pow2Monotone(e, 29);
    }
    BelowModulus(p);
    var k := mm * 2 + 1;
    var q := p * k;
    assert q <= 7 * 0x2000_0000 by {
      if mm == 0 {
        assert q == p;
      } else if mm == 1 {
        assert q == 3 * p;
      } else if mm == 2 {
        assert q == 5 * p;
      } else {
        assert q == 7 * p;
      }
    }
    BelowModulus(q);
    assert (p % U32_MOD) * k == q;
  }

  /** A value below 2^32 is its own `u32` residue. */
  lemma BelowModulus(x: nat)
    requires x < U32_MOD
    ensures x % U32_MOD == x
  {
  }

  /** From exponent 32 up, 2^E is a multiple of 2^32 and wraps to 0. */
  lemma LargeExponent(e: nat, mm: nat)
    requires e >= 32
    ensures (Pow2(e) % U32_MOD) * (mm * 2 + 1) % U32_MOD == 0
  {
    Pow2Values();
    Pow2Add(32, e - 32);
    MultipleOfU32(Pow2(e - 32));
  }

  /** A multiple of 2^32 wraps to 0. */
  lemma MultipleOfU32(x: nat)
    ensures (U32_MOD * x) % U32_MOD == 0
  {
  }

  // ---------------------------------------------------------------------
  // parse

  /** The magic number "NES" followed by 0x1A. */
  predicate HasMagic(bin: seq<bv8>)
    requires |bin| >= HEADER_LEN
  {
    bin[0] == 0x4E && bin[1] == 0x45 && bin[2] == 0x53 && bin[3] == 0x1A
  }

  /** Whether the header marks the image as NES 2.0. */
  predicate IsNes20(h: seq<bv8>)
    requires |h| >= HEADER_LEN
  {
    ParseFlag7(h[7]).1
  }

  /** The mapper number: bits 8-11 from byte 8 under NES 2.0 (0 under iNES),
      bits 4-7 from byte 7 and bits 0-3 from byte 6. */
  function MapperNo(h: seq<bv8>): (n: bv16)
    requires |h| >= HEADER_LEN
  {
    var upper := if IsNes20(h) then ParseFlag8V2(h[8]).0 else 0;
    ((upper as bv16) << 8) | ((ParseFlag7(h[7]).2 as bv16) << 4) | (ParseFlag6(h[6]).3 as bv16)
  }

  /** The mapper number gathers its three nibbles: it is below 0x1000 and
      the nibbles can be read back from it. */
  lemma MapperNoNibbles(h: seq<bv8>)
    requires |h| >= HEADER_LEN
    ensures MapperNo(h) < 0x1000
    ensures MapperNo(h) & 0x0F == (h[6] >> 4) as bv16
    ensures (MapperNo(h) >> 4) & 0x0F == (h[7] >> 4) as bv16
    ensures MapperNo(h) >> 8 == if IsNes20(h) then (h[8] & 0x0F) as bv16 else 0
  {
  }

  /** PRG-ROM size in bytes. */
  function PrgRomSize(h: seq<bv8>): nat
    requires |h| >= HEADER_LEN
  {
    if IsNes20(h) then CalculateRomSize(ParseFlag9V2(h[9]).0, h[4])
    else h[4] as int * PRG_ROM_UNIT_SIZE
  }

  /** CHR-ROM size in bytes. */
  function ChrRomSize(h: seq<bv8>): nat
    requires |h| >= HEADER_LEN
  {
    if IsNes20(h) then CalculateRomSize(ParseFlag9V2(h[9]).1, h[5])
    else h[5] as int * CHR_ROM_UNIT_SIZE
  }

  /** iNES sizes are whole units; under NES 2.0 the size is the 12-bit count
      itself (not multiplied by the unit), and the CHR count takes byte 9's
      high nibble as `nibble * 0x1000`, never the exponent form. */
  lemma RomSizes(h: seq<bv8>)
    requires |h| >= HEADER_LEN
    ensures !IsNes20(h) ==> PrgRomSize(h) == h[4] as int * 0x4000 && ChrRomSize(h) == h[5] as int * 0x2000
    ensures IsNes20(h) && h[9] & 0x0F != 0x0F ==> PrgRomSize(h) == (h[9] & 0x0F) as int * 256 + h[4] as int
    ensures IsNes20(h) ==> ChrRomSize(h) == (h[9] >> 4) as int * 0x1000 + h[5] as int
  {
    if IsNes20(h) {
      var chrUpper := ParseFlag9V2(h[9]).1;
      assert chrUpper != 0x0F;
      RomSizePlainForm(chrUpper, h[5]);
      assert chrUpper as int == (h[9] >> 4) as int * 16;
      if h[9] & 0x0F != 0x0F {
        RomSizePlainForm(ParseFlag9V2(h[9]).0, h[4]);
      }
    }
  }

  /** Length of the trainer block. */
  function TrainerLen(h: seq<bv8>): nat
    requires |h| >= HEADER_LEN
  {
    if ParseFlag6(h[6]).2 then TRAINER_LEN else 0
  }

  /** Offset of the PRG-ROM block: right after the header and the trainer. */
  function PrgStart(h: seq<bv8>): nat
    requires |h| >= HEADER_LEN
  {
    HEADER_LEN + TrainerLen(h)
  }

  /** Offset just past the CHR-ROM block, which follows the PRG-ROM block. */
  function RomEnd(h: seq<bv8>): nat
    requires |h| >= HEADER_LEN
  {
    PrgStart(h) + PrgRomSize(h) + ChrRomSize(h)
  }

  /** The header fields of a ROM whose blocks are `prg`, `chr` and `trainer`. */
  function HeaderFields(h: seq<bv8>, prg: seq<bv8>, chr: seq<bv8>, trainer: Util.Option<seq<bv8>>): NesRom
    requires |h| >= HEADER_LEN
  {
    var nes20 := IsNes20(h);
    var (mirroring, battery, _, _) := ParseFlag6(h[6]);
    var (prgRam, eeprom) := if nes20 then ParseFlag10V2(h[10]) else (ParseFlag8(h[8]), 0);
    var (chrRam, chrNvram) := if nes20 then ParseFlag11V2(h[11]) else (0, 0);
    var (vsSystem, vsHardware) := if nes20 then ParseFlag13V2(h[13]) else (0, 0);
    NesRom(
      prg, chr, trainer, mirroring, battery, ParseFlag7(h[7]).0, MapperNo(h),
      prgRam, eeprom,
      if nes20 then TvFormat.NTSC else ParseFlag9(h[9]),
      chrRam, chrNvram,
      if nes20 then ParseFlag12V2(h[12]) else CpuTiming.NTSC,
      vsSystem, vsHardware)
  }

  /** `parse`.  The header must be 16 bytes and start with the magic number;
      the trainer (if flagged), PRG-ROM and CHR-ROM blocks are then copied in
      that order, and slicing past the end of the input panics. */
  function Parse(bin: seq<bv8>): Parsed
  {
    if |bin| < HEADER_LEN then Err("Header size is too short.")
    else if !HasMagic(bin) then Err("Invalid format.")
    else if |bin| < RomEnd(bin) then OutOfRange
    else
      var prgStart := PrgStart(bin);
      var chrStart := prgStart + PrgRomSize(bin);
      var trainer :=
        if ParseFlag6(bin[6]).2 then Util.Some(bin[HEADER_LEN..HEADER_LEN + TRAINER_LEN]) else Util.None;
      Ok(HeaderFields(bin, bin[prgStart..chrStart], bin[chrStart..RomEnd(bin)], trainer))
  }

  /** Every outcome of `parse`: too short a header, a wrong magic number, a
      block past the end of the input, or a ROM whose blocks are the slices
      of the input that follow the header (and the trainer, when flagged). */
  lemma ParseOutcome(bin: seq<bv8>)
    ensures |bin| < HEADER_LEN <==> Parse(bin) == Err("Header size is too short.")
    ensures |bin| >= HEADER_LEN && !HasMagic(bin) <==> Parse(bin) == Err("Invalid format.")
    ensures Parse(bin).OutOfRange? <==> |bin| >= HEADER_LEN && HasMagic(bin) && |bin| < RomEnd(bin)
    ensures Parse(bin).Ok? ==>
      var rom := Parse(bin).rom;
      |bin| >= RomEnd(bin) &&
      rom.prgRom == bin[PrgStart(bin)..PrgStart(bin) + PrgRomSize(bin)] &&
      rom.chrRom == bin[PrgStart(bin) + PrgRomSize(bin)..RomEnd(bin)] &&
      (rom.trainer.Some? <==> bin[6] & 0x04 != 0) &&
      (rom.trainer.Some? ==> rom.trainer.value == bin[16..528] && PrgStart(bin) == 528) &&
      (rom.trainer.None? ==> PrgStart(bin) == 16) &&
      rom.mapperNo == MapperNo(bin)
  {
    assert "Header size is too short." != "Invalid format.";
  }

  /** The iNES header built from the given unit counts and byte 6 (byte 7
      zero: plain NES, iNES, mapper bits 4-7 clear). */
  function INesHeader(prgUnits: bv8, chrUnits: bv8, flags6: bv8): (h: seq<bv8>)
    ensures |h| == HEADER_LEN
  {
    [0x4E, 0x45, 0x53, 0x1A, prgUnits, chrUnits, flags6, 0, 0, 0, 0, 0, 0, 0, 0, 0]
  }

  /** Round trip: an iNES image made of a header and PRG/CHR blocks of the
      sizes the header announces parses back to exactly those blocks, with
      the header's mirroring, battery flag and mapper number. */
  lemma ParseINesImage(prgUnits: bv8, chrUnits: bv8, flags6: bv8, prg: seq<bv8>, chr: seq<bv8>)
    requires flags6 & 0x04 == 0
    requires |prg| == prgUnits as int * PRG_ROM_UNIT_SIZE
    requires |chr| == chrUnits as int * CHR_ROM_UNIT_SIZE
    ensures var r := Parse(INesHeader(prgUnits, chrUnits, flags6) + prg + chr);
      r.Ok? && r.rom.prgRom == prg && r.rom.chrRom == chr && r.rom.trainer.None? &&
      r.rom.mirroringType == ParseFlag6(flags6).0 && r.rom.batteryBacked == (flags6 & 0x02 != 0) &&
      r.rom.mapperNo == (flags6 >> 4) as bv16 && r.rom.prgRamSize == 0x2000
  {
    var h := INesHeader(prgUnits, chrUnits, flags6);
    var bin := h + prg + chr;
    INesHeaderBytes(h, bin, prgUnits, chrUnits, flags6);
    ParseOutcome(bin);
    assert bin[HEADER_LEN..HEADER_LEN + |prg|] == prg;
    assert bin[HEADER_LEN + |prg|..|bin|] == chr;
    var rom := Parse(bin).rom;
    assert rom == HeaderFields(bin, rom.prgRom, rom.chrRom, rom.trainer);
  }

  /** The bytes of an image that starts with an iNES header, as `parse`
      reads them. */
  lemma INesHeaderBytes(h: seq<bv8>, bin: seq<bv8>, prgUnits: bv8, chrUnits: bv8, flags6: bv8)
    requires h == INesHeader(prgUnits, chrUnits, flags6) && h <= bin
    requires flags6 & 0x04 == 0
    ensures |bin| >= HEADER_LEN && HasMagic(bin) && !IsNes20(bin)
    ensures bin[4] == prgUnits && bin[5] == chrUnits && bin[6] == flags6 && bin[8] == 0
    ensures PrgStart(bin) == HEADER_LEN
    ensures PrgRomSize(bin) == prgUnits as int * PRG_ROM_UNIT_SIZE
    ensures ChrRomSize(bin) == chrUnits as int * CHR_ROM_UNIT_SIZE
    ensures MapperNo(bin) == (flags6 >> 4) as bv16
  {
    assert bin[0] == h[0] && bin[1] == h[1] && bin[2] == h[2] && bin[3] == h[3];
    assert bin[4] == h[4] && bin[5] == h[5] && bin[6] == h[6] && bin[7] == h[7] && bin[8] == h[8];
  }
}
