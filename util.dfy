// Small helpers shared by the whole emulator (src/nes/util.rs).
module Util {

  /** An optional value, as Rust's `Option`. */
  datatype Option<T> = None | Some(value: T)

  /** The error type of the emulator: a single message variant. */
  datatype Error = Msg(msg: string)

  /** `Display` for `Error`: the message is written out as it is. */
  function Display(e: Error): (s: string)
    ensures e.Msg? ==> s == e.msg
  {
    match e
    case Msg(m) => m
  }

  /** The upper byte of a 16-bit address. */
  function HighByte(addr: bv16): bv8 { (addr >> 8) as bv8 }

  /** The lower byte of a 16-bit address. */
  function LowByte(addr: bv16): bv8 { (addr & 0xFF) as bv8 }

  /** `make_addr`: joins two bytes into a 16-bit address, `high` on top. */
  function MakeAddr(high: bv8, low: bv8): (r: bv16)
    ensures r >> 8 == high as bv16
    ensures r & 0xFF == low as bv16
    ensures HighByte(r) == high && LowByte(r) == low
  {
    ((high as bv16) << 8) | (low as bv16)
  }

  /** Every address is the join of its own two bytes, so `MakeAddr` is onto. */
  lemma MakeAddrOnto(addr: bv16)
    ensures MakeAddr(HighByte(addr), LowByte(addr)) == addr
  {
  }

  /** Two byte pairs give the same address only when they are the same pair,
      so `MakeAddr` is one-to-one. */
  lemma MakeAddrInjective(h1: bv8, l1: bv8, h2: bv8, l2: bv8)
    requires MakeAddr(h1, l1) == MakeAddr(h2, l2)
    ensures h1 == h2 && l1 == l2
  {
    assert HighByte(MakeAddr(h1, l1)) == h1;
    assert HighByte(MakeAddr(h2, l2)) == h2;
  }

  /** A zero-page address (high byte 0) is below 0x100. */
  lemma MakeAddrZeroPage(low: bv8)
    ensures MakeAddr(0, low) == low as bv16 && MakeAddr(0, low) < 0x100
  {
  }
}
