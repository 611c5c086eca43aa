// The PPU's VRAM memory controller (src/nes/ppu/vram.rs): a 16 KiB buffer
// covering the PPU's 14-bit address space, with the same raw write as the
// CPU-side controller.
module PpuVram {
  import opened Mem

  /** Physical VRAM of the console, in bytes. */
  const REAL_VRAM_SIZE: nat := 0x800

  /** Size of the buffer: the 14-bit PPU address space. */
  const VRAM_SPACE: nat := 0x4000

  /** `MemCon` of src/nes/ppu/vram.rs. */
  class MemCon {
    const ram: array<bv8>

    /** `MemCon::new`: a zeroed buffer of `VRAM_SPACE` bytes. */
    constructor ()
      ensures fresh(ram) && ram.Length == VRAM_SPACE
      ensures forall i :: 0 <= i < ram.Length ==> ram[i] == 0
    {
      ram := new bv8[VRAM_SPACE](_ => 0);
    }

    /** `raw_write`: copies `data` into the buffer from `addr` on; the source
        panics when the block does not fit. */
    method RawWrite(addr: nat, data: seq<bv8>)
      requires addr + |data| <= ram.Length
      modifies ram
      ensures ram[..] == Overwrite(old(ram[..]), addr, data)
    {
      forall i | 0 <= i < |data| {
        ram[addr + i] := data[i];
      }
      assert ram[..] == Overwrite(old(ram[..]), addr, data) by {
        OverwriteContents(old(ram[..]), addr, data);
      }
    }
  }
}
