// The older VRAM memory controller (src/nes/vram.rs): a 0xFFFF-byte buffer
// next to a shared handle on the PPU registers, with the same raw write as
// the CPU-side controller.
module Vram {
  import opened Mem

  /** Physical VRAM of the console, in bytes. */
  const REAL_VRAM_SIZE: nat := 0x800

  /** Size of the buffer. */
  const VRAM_SPACE: nat := 0xFFFF

  /** `MemCon` of src/nes/vram.rs.  `PpuRegs` stands for the shared PPU
      register block, which is not modelled. */
  class MemCon<PpuRegs> {
    const ppuRegs: PpuRegs
    const ram: array<bv8>

    /** `MemCon::new`: keeps the register handle and allocates a zeroed
        buffer of `VRAM_SPACE` bytes. */
    constructor (ppuRegs: PpuRegs)
      ensures this.ppuRegs == ppuRegs
      ensures fresh(ram) && ram.Length == VRAM_SPACE
      ensures forall i :: 0 <= i < ram.Length ==> ram[i] == 0
    {
      this.ppuRegs := ppuRegs;
      ram := new bv8[VRAM_SPACE](_ => 0);
    }

    /** `raw_write`: copies `data` into the buffer from `addr` on; the source
        panics when the block does not fit. */
    method RawWrite(addr: nat, data: seq<bv8>)
      requires addr + |data| <= ram.Length
      modifies ram
      ensures ram[..] == Overwrite(old(ram[..]), addr, data)
    {
      forall i | 0 <= i < |data| {
        ram[addr + i] := data[i];
      }
      assert ram[..] == Overwrite(old(ram[..]), addr, data) by {
        OverwriteContents(old(ram[..]), addr, data);
      }
    }
  }
}
