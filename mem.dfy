// The CPU-side memory controller (src/nes/mem.rs): a flat byte buffer the
// size of the address space, and a raw write that copies a block into it
// with no mirroring.
module Mem {
  import Cpu
  import Rom

  /** Physical RAM of the console, in bytes. */
  const REAL_RAM_SIZE: nat := 0x0800

  /** Size of the buffer: 0xFFFF bytes, one short of the 64 KiB address space. */
  const RAM_SPACE: nat := 0xFFFF

  /** `buf` with `data` copied in from index `addr` on. */
  function Overwrite(buf: seq<bv8>, addr: nat, data: seq<bv8>): (r: seq<bv8>)
    requires addr + |data| <= |buf|
  {
    buf[..addr] + data + buf[addr + |data|..]
  }

  /** A raw write keeps the buffer length, puts `data[i]` at `addr + i` and
      leaves every byte outside `[addr, addr + |data|)` as it was. */
  lemma OverwriteContents(buf: seq<bv8>, addr: nat, data: seq<bv8>)
    requires addr + |data| <= |buf|
    ensures |Overwrite(buf, addr, data)| == |buf|
    ensures forall i :: 0 <= i < |data| ==> Overwrite(buf, addr, data)[addr + i] == data[i]
    ensures forall j :: 0 <= j < |buf| && !(addr <= j < addr + |data|) ==>
      Overwrite(buf, addr, data)[j] == buf[j]
  {
  }

  /** Writing back the bytes already there changes nothing. */
  lemma OverwriteSame(buf: seq<bv8>, addr: nat, len: nat)
    requires addr + len <= |buf|
    ensures Overwrite(buf, addr, buf[addr..addr + len]) == buf
  {
    var r := Overwrite(buf, addr, buf[addr..addr + len]);
    OverwriteContents(buf, addr, buf[addr..addr + len]);
    forall j | 0 <= j < |buf|
      ensures r[j] == buf[j]
    {
      if addr <= j < addr + len {
        assert r[addr + (j - addr)] == buf[addr..addr + len][j - addr];
      }
    }
  }

  /** Writing the same block twice is the same as writing it once. */
  lemma OverwriteTwice(buf: seq<bv8>, addr: nat, data: seq<bv8>)
    requires addr + |data| <= |buf|
    ensures Overwrite(Overwrite(buf, addr, data), addr, data) == Overwrite(buf, addr, data)
  {
    var w := Overwrite(buf, addr, data);
    var ww := Overwrite(w, addr, data);
    OverwriteContents(buf, addr, data);
    OverwriteContents(w, addr, data);
    forall j | 0 <= j < |buf|
      ensures ww[j] == w[j]
    {
      if addr <= j < addr + |data| {
        assert ww[addr + (j - addr)] == data[j - addr] == w[addr + (j - addr)];
      }
    }
  }

  /** The second raw write of `Cpu::new` copies one PRG-ROM bank to 0xC000:
      the second bank when there are two, the first one again otherwise.
      Whichever branch runs, the block either cannot be sliced out of the
      PRG-ROM or ends past the `RAM_SPACE`-byte buffer, so the range check
      of `raw_write` fails for every ROM and `Cpu::new` does not return. */
  lemma UpperBankCopyOverruns(prg: seq<bv8>, buf: seq<bv8>)
    requires |buf| == RAM_SPACE
    ensures var len := Rom.PRG_ROM_UNIT_SIZE;
            if |prg| >= 2 * len then 0xC000 + |prg[len..2 * len]| > |buf|
            else |prg| < len || 0xC000 + |prg[0..len]| > |buf|
  {
  }

  /** `MemCon` (CPU side).  `PpuRegs` stands for the PPU register block,
      which is not modelled. */
  class MemCon<PpuRegs> {
    const ram: array<bv8>
    const cpuRegs: Cpu.Registers
    const ppuRegs: PpuRegs

    /** `MemCon::new`: keeps both register handles and allocates a zeroed
        buffer of `RAM_SPACE` bytes. */
    constructor (cpuRegs: Cpu.Registers, ppuRegs: PpuRegs)
      ensures this.cpuRegs == cpuRegs && this.ppuRegs == ppuRegs
      ensures fresh(ram) && ram.Length == RAM_SPACE
      ensures forall i :: 0 <= i < ram.Length ==> ram[i] == 0
    {
      this.cpuRegs := cpuRegs;
      this.ppuRegs := ppuRegs;
      ram := new bv8[RAM_SPACE](_ => 0);
    }

    /** `raw_write`: copies `data` into the buffer from `addr` on; the source
        panics when the block does not fit. */
    method RawWrite(addr: nat, data: seq<bv8>)
      requires addr + |data| <= ram.Length
      modifies ram
      ensures ram[..] == Overwrite(old(ram[..]), addr, data)
    {
      forall i | 0 <= i < |data| {
        ram[addr + i] := data[i];
      }
      assert ram[..] == Overwrite(old(ram[..]), addr, data) by {
        OverwriteContents(old(ram[..]), addr, data);
      }
    }
  }
}
