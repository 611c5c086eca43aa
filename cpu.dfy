// The 6502 (Ricoh 2A03) core of src/nes/cpu.rs: the register file with its
// flag arithmetic, and the CPU object with its memory, interrupt lines and
// per-cycle state.
//
// Every operation that the source performs in place is a method of a class
// (`Registers`, `Cpu`); each method is proved against a function on plain
// values (`Regs`, `Machine`) and the properties the source promises are
// proved about those functions.
module Cpu {
  import opened Util
  import opened ExecuterTypes

  // ---------------------------------------------------------------------
  // Status flags (src/nes/cpu.rs:26-49)
  // ---------------------------------------------------------------------

  const CARRY: bv8 := 0x01
  const ZERO: bv8 := 0x02
  const INT_DISABLE: bv8 := 0x04
  const DECIMAL: bv8 := 0x08
  const BREAK: bv8 := 0x10
  const RESERVED: bv8 := 0x20
  const OVERFLOW: bv8 := 0x40
  const NEGATIVE: bv8 := 0x80

  /** Page that holds the stack (`ADDR_STACK_UPPER`). */
  const ADDR_STACK_UPPER: bv16 := 0x0100

  /** Bit 7 of a byte, its sign as a two's-complement number. */
  predicate Sign(v: bv8) { v & 0x80 != 0 }

  /** `flags_on` on the status byte: the given bits become 1. */
  function SetFlags(p: bv8, flags: bv8): bv8
  {
    p | flags
  }

  /** `flags_off` on the status byte: the given bits become 0. */
  function ClearFlags(p: bv8, flags: bv8): bv8
  {
    p & !flags
  }

  /** `flags_on` turns the given bits on and keeps every other bit. */
  lemma SetFlagsSpec(p: bv8, flags: bv8)
    ensures SetFlags(p, flags) & flags == flags
    ensures SetFlags(p, flags) & !flags == p & !flags
  {
  }

  /** `flags_off` turns the given bits off and keeps every other bit. */
  lemma ClearFlagsSpec(p: bv8, flags: bv8)
    ensures ClearFlags(p, flags) & flags == 0
    ensures ClearFlags(p, flags) & !flags == p & !flags
  {
  }

  /** `change_negative_by_value` on the status byte: N becomes bit 7 of `val`. */
  function NegativeFrom(p: bv8, val: bv8): (r: bv8)
    ensures (r & NEGATIVE != 0) <==> Sign(val)
    ensures r & !NEGATIVE == p & !NEGATIVE
  {
    (p & !NEGATIVE) | (val & NEGATIVE)
  }

  /** `change_zero_by_value` on the status byte: Z becomes `val == 0`. */
  function ZeroFrom(p: bv8, val: bv8): (r: bv8)
    ensures (r & ZERO != 0) <==> val == 0
    ensures r & !ZERO == p & !ZERO
  {
    (p & !ZERO) | (if val == 0 then ZERO else 0)
  }

  /** N and Z both taken from `val`, as every load and transfer does. */
  function NZFrom(p: bv8, val: bv8): (r: bv8)
    ensures (r & NEGATIVE != 0) <==> Sign(val)
    ensures (r & ZERO != 0) <==> val == 0
    ensures r & !(NEGATIVE | ZERO) == p & !(NEGATIVE | ZERO)
  {
    ZeroFrom(NegativeFrom(p, val), val)
  }

  // ---------------------------------------------------------------------
  // Register values and the arithmetic unit (src/nes/cpu.rs:80-190)
  // ---------------------------------------------------------------------

  /** The contents of the register file at one instant. */
  datatype Regs = Regs(a: bv8, x: bv8, y: bv8, s: bv8, p: bv8, pc: bv16)

  /** `Registers::default()`. */
  const DEFAULT_REGS: Regs := Regs(0, 0, 0, 0, 0, 0)

  /** The carry as a byte, the amount it adds to the low byte of a sum. */
  function CarryByte(c: bool): bv8 { if c then 1 else 0 }

  /** Whether `val1 + val2 + carry` exceeds 0xFF, i.e. the sum has a ninth
      bit; written as `val2 + carry > 0xFF - val1` so that no term leaves
      the byte range. */
  predicate CarriesOut(val1: bv8, val2: bv8, carry: bool)
  {
    val2 > 0xFF - val1 || (carry && val2 == 0xFF - val1)
  }

  /** `add_with_carry`: the sum of two bytes and a carry, as its low byte and
      the carry out of bit 7.  The source forms the sum in 16 bits and takes
      bits 0-7 and bit 8 of it; the model states the same two results in
      byte arithmetic. */
  function AddWithCarry(val1: bv8, val2: bv8, carry: bool): (r: (bv8, bool))
    ensures r.1 <==> r.0 < val1 || (carry && r.0 == val1)
  {
    (val1 + val2 + CarryByte(carry), CarriesOut(val1, val2, carry))
  }

  /** `AddWithCarry` agrees with the source's 16-bit computation: the sum
      formed in 16 bits is the low byte plus 0x100 when the carry is set
      (the sum is at most 0x1FF, so that is its bit 8). */
  lemma AddWithCarrySum(val1: bv8, val2: bv8, carry: bool)
    ensures var (low, c) := AddWithCarry(val1, val2, carry);
      var sum := (val1 as bv16) + (val2 as bv16) + (if carry then 1 else 0);
      sum == (low as bv16) + (if c then 0x100 else 0)
  {
  }

  /** C set to `c`, every other bit of P kept. */
  function WithCarry(p: bv8, c: bool): (r: bv8)
    ensures (r & CARRY != 0) <==> c
    ensures r & !CARRY == p & !CARRY
  {
    (p & !CARRY) | (if c then 1 else 0)
  }

  /** V set to `v`, every other bit of P kept. */
  function WithOverflow(p: bv8, v: bool): (r: bv8)
    ensures (r & OVERFLOW != 0) <==> v
    ensures r & !OVERFLOW == p & !OVERFLOW
  {
    (p & !OVERFLOW) | (if v then OVERFLOW else 0)
  }

  /** The overflow test of `a_add`: it holds exactly when both operands have
      the same sign and the result's sign differs from it. */
  predicate Overflowed(a: bv8, val: bv8, result: bv8)
    ensures Overflowed(a, val, result) <==> (Sign(a) == Sign(val) && Sign(result) != Sign(a))
  {
    ((a ^ result) & (val ^ result) & 0x80) != 0
  }

  /** The flags `a_add` and `a_sub` leave alone: I, D, B and the reserved bit. */
  const KEPT_BY_ADD: bv8 := INT_DISABLE | DECIMAL | BREAK | RESERVED

  /** The state after `a_add(val)` (ADC): A becomes A + val + C; the other
      registers keep their values. */
  function AddResult(r: Regs, val: bv8): (r': Regs)
    ensures r'.a == r.a + val + CarryByte(r.p & CARRY != 0)
    ensures r'.x == r.x && r'.y == r.y && r'.s == r.s && r'.pc == r.pc
  {
    var sum := AddWithCarry(r.a, val, r.p & CARRY != 0);
    var p1 := WithOverflow(WithCarry(r.p, sum.1), Overflowed(r.a, val, sum.0));
    r.(a := sum.0, p := NZFrom(p1, sum.0))
  }

  /** ADC sets C exactly when A + val + C exceeds 0xFF, and V exactly when
      the operands have the same sign and the result's sign differs. */
  lemma AdcCarryOverflow(r: Regs, val: bv8)
    ensures var r' := AddResult(r, val);
      && ((r'.p & CARRY != 0) <==> CarriesOut(r.a, val, r.p & CARRY != 0))
      && ((r'.p & OVERFLOW != 0) <==> (Sign(r.a) == Sign(val) && Sign(r'.a) != Sign(r.a)))
  {
  }

  /** ADC sets N and Z from the new A and keeps I, D, B and the reserved bit. */
  lemma AdcFlags(r: Regs, val: bv8)
    ensures var r' := AddResult(r, val);
      && ((r'.p & NEGATIVE != 0) <==> Sign(r'.a))
      && ((r'.p & ZERO != 0) <==> r'.a == 0)
      && r'.p & KEPT_BY_ADD == r.p & KEPT_BY_ADD
  {
  }

  /** The flags a comparison leaves alone: I, D, B, the reserved bit and V. */
  const KEPT_BY_CMP: bv8 := INT_DISABLE | DECIMAL | BREAK | RESERVED | OVERFLOW

  /** The borrow of a subtraction: 1 exactly when C is clear. */
  function BorrowByte(c: bool): bv8 { if c then 0 else 1 }

  /** Whether `val1 - val2 - borrow` stays at or above zero. */
  predicate NoBorrow(val1: bv8, val2: bv8, carry: bool)
  {
    if carry then val1 >= val2 else val1 > val2
  }

  /** Adding the complement of `val` subtracts `val` and the borrow, and
      carries out exactly when no borrow is needed. */
  lemma AddComplement(a: bv8, val: bv8, carry: bool)
    ensures a + !val + CarryByte(carry) == a - val - BorrowByte(carry)
    ensures CarriesOut(a, !val, carry) <==> NoBorrow(a, val, carry)
    ensures Sign(!val) <==> !Sign(val)
  {
  }

  /** The state after `a_sub(val)` (SBC), which is `a_add(!val)`: with C set
      it subtracts exactly, with C clear it subtracts one more (the borrow). */
  function SubResult(r: Regs, val: bv8): (r': Regs)
    ensures r'.a == r.a - val - BorrowByte(r.p & CARRY != 0)
    ensures r'.x == r.x && r'.y == r.y && r'.s == r.s && r'.pc == r.pc
  {
    AddComplement(r.a, val, r.p & CARRY != 0);
    AddResult(r, !val)
  }

  /** SBC sets C exactly when no borrow was needed, and V exactly when the
      operands have different signs and the result's sign differs from A's. */
  lemma SbcCarryOverflow(r: Regs, val: bv8)
    ensures var r' := SubResult(r, val);
      && ((r'.p & CARRY != 0) <==> NoBorrow(r.a, val, r.p & CARRY != 0))
      && ((r'.p & OVERFLOW != 0) <==> (Sign(r.a) != Sign(val) && Sign(r'.a) != Sign(r.a)))
  {
    AddComplement(r.a, val, r.p & CARRY != 0);
    AdcCarryOverflow(r, !val);
  }

  /** SBC sets N and Z from the new A and keeps I, D, B and the reserved bit. */
  lemma SbcFlags(r: Regs, val: bv8)
    ensures var r' := SubResult(r, val);
      && ((r'.p & NEGATIVE != 0) <==> Sign(r'.a))
      && ((r'.p & ZERO != 0) <==> r'.a == 0)
      && r'.p & KEPT_BY_ADD == r.p & KEPT_BY_ADD
  {
    AdcFlags(r, !val);
  }

  /** Adding the two's complement of `val` with no carry in: the low byte is
      `a - val`, and the sum carries out exactly when `val` is not 0 and
      `a >= val`. */
  lemma AddNegation(a: bv8, val: bv8)
    ensures a + -val + CarryByte(false) == a - val
    ensures CarriesOut(a, -val, false) <==> (val != 0 && a >= val)
    ensures a - val == 0 <==> a == val
  {
  }

  /** The state after `a_cmp(val)` (CMP): only the status byte changes. */
  function CmpResult(r: Regs, val: bv8): (r': Regs)
    ensures r'.a == r.a && r'.x == r.x && r'.y == r.y && r'.s == r.s && r'.pc == r.pc
  {
    var sum := AddWithCarry(r.a, -val, false);
    r.(p := NZFrom(WithCarry(r.p, sum.1), sum.0))
  }

  /** CMP sets Z exactly when A equals the operand. */
  lemma CmpZero(r: Regs, val: bv8)
    ensures (CmpResult(r, val).p & ZERO != 0) <==> r.a == val
  {
    AddNegation(r.a, val);
  }

  /** CMP sets N to bit 7 of `A - val`. */
  lemma CmpNegative(r: Regs, val: bv8)
    ensures (CmpResult(r, val).p & NEGATIVE != 0) <==> Sign(r.a - val)
  {
    AddNegation(r.a, val);
  }

  /** CMP sets C exactly when the operand is not 0 and A >= operand: for
      operand 0 its two's complement is 0, the sum cannot carry and C is
      clear although A >= 0. */
  lemma CmpCarry(r: Regs, val: bv8)
    ensures (CmpResult(r, val).p & CARRY != 0) <==> (val != 0 && r.a >= val)
  {
    AddNegation(r.a, val);
  }

  /** CMP leaves I, D, B, the reserved bit and V alone. */
  lemma CmpKeepsFlags(r: Regs, val: bv8)
    ensures CmpResult(r, val).p & KEPT_BY_CMP == r.p & KEPT_BY_CMP
  {
  }

  /** The comparison flags disagree with "C iff A >= operand" exactly when
      the operand is 0. */
  lemma CmpCarryQuirk(r: Regs, val: bv8)
    ensures ((CmpResult(r, val).p & CARRY != 0) <==> r.a >= val) <==> val != 0
  {
    CmpCarry(r, val);
  }

  /** `a_set` (defined outside the modelled files): the value is loaded
      into A and N and Z follow it, as the flag tables of the actions say. */
  function WithA(r: Regs, val: bv8): (r': Regs)
    ensures r'.a == val
    ensures (r'.p & NEGATIVE != 0) <==> Sign(val)
    ensures (r'.p & ZERO != 0) <==> val == 0
    ensures r'.p & !(NEGATIVE | ZERO) == r.p & !(NEGATIVE | ZERO)
    ensures r'.x == r.x && r'.y == r.y && r'.s == r.s && r'.pc == r.pc
  {
    r.(a := val, p := NZFrom(r.p, val))
  }

  /** `x_set`, the same for X. */
  function WithX(r: Regs, val: bv8): (r': Regs)
    ensures r'.x == val
    ensures (r'.p & NEGATIVE != 0) <==> Sign(val)
    ensures (r'.p & ZERO != 0) <==> val == 0
    ensures r'.p & !(NEGATIVE | ZERO) == r.p & !(NEGATIVE | ZERO)
    ensures r'.a == r.a && r'.y == r.y && r'.s == r.s && r'.pc == r.pc
  {
    r.(x := val, p := NZFrom(r.p, val))
  }

  /** `Registers`: the register file, updated in place. */
  class Registers {
    var a: bv8
    var x: bv8
    var y: bv8
    var s: bv8
    var p: bv8
    var pc: bv16

    function View(): Regs
      reads this
    {
      Regs(a, x, y, s, p, pc)
    }

    /** `Registers::default()`. */
    constructor ()
      ensures View() == DEFAULT_REGS
    {
      a, x, y, s, p, pc := 0, 0, 0, 0, 0, 0;
    }

    /** `int_disabled`: whether IRQs are masked. */
    function IntDisabled(): (b: bool)
      reads this
      ensures b <==> SetFlags(p, INT_DISABLE) == p
    {
      p & INT_DISABLE != 0
    }

    method FlagsOn(flags: bv8)
      modifies this
      ensures View() == old(View()).(p := SetFlags(old(p), flags))
    {
      p := p | flags;
    }

    method FlagsOff(flags: bv8)
      modifies this
      ensures View() == old(View()).(p := ClearFlags(old(p), flags))
    {
      p := p & !flags;
    }

    method ChangeNegativeByValue(val: bv8)
      modifies this
      ensures View() == old(View()).(p := NegativeFrom(old(p), val))
    {
      var nFlag := val & NEGATIVE;
      p := (p & !NEGATIVE) | nFlag;
    }

    method ChangeZeroByValue(val: bv8)
      modifies this
      ensures View() == old(View()).(p := ZeroFrom(old(p), val))
    {
      var zFlag: bv8 := if val == 0 then ZERO else 0;
      p := (p & !ZERO) | zFlag;
    }

    method AAdd(val: bv8)
      modifies this
      ensures View() == AddResult(old(View()), val)
    {
      var sum := AddWithCarry(a, val, p & CARRY != 0);
      var result := sum.0;
      p := WithOverflow(WithCarry(p, sum.1), Overflowed(a, val, result));
      ChangeNegativeByValue(result);
      ChangeZeroByValue(result);
      a := result;
    }

    method ASub(val: bv8)
      modifies this
      ensures View() == SubResult(old(View()), val)
    {
      AAdd(!val);
    }

    method ACmp(val: bv8)
      modifies this
      ensures View() == CmpResult(old(View()), val)
    {
      var sum := AddWithCarry(a, -val, false);
      p := WithCarry(p, sum.1);
      ChangeNegativeByValue(sum.0);
      ChangeZeroByValue(sum.0);
    }

    method ASet(val: bv8)
      modifies this
      ensures View() == WithA(old(View()), val)
    {
      a := val;
      ChangeNegativeByValue(a);
      ChangeZeroByValue(a);
    }

    method XSet(val: bv8)
      modifies this
      ensures View() == WithX(old(View()), val)
    {
      x := val;
      ChangeNegativeByValue(x);
      ChangeZeroByValue(x);
    }

    /** Overwrites the whole register file (used where an action that is not
        part of this model hands back its registers). */
    method Assign(r: Regs)
      modifies this
      ensures View() == r
    {
      a, x, y, s, p, pc := r.a, r.x, r.y, r.s, r.p, r.pc;
    }
  }

  // ---------------------------------------------------------------------
  // CPU state (src/nes/cpu.rs:51-78, src/nes/cpu/cpu_state.rs:11-30)
  // ---------------------------------------------------------------------

  /** The 64 KiB CPU address space, one byte per address.  Reads and writes
      go straight to it: the memory controller's mirroring and I/O registers
      are not modelled. */
  type Memory = bv16 -> bv8

  function Store(mem: Memory, addr: bv16, val: bv8): (m: Memory)
    ensures m(addr) == val
    ensures forall b :: b != addr ==> m(b) == mem(b)
  {
    b => if b == addr then val else mem(b)
  }

  /** Kind of interrupt being serviced. */
  datatype IntType = IntNone | Reset | Nmi | Irq | Brk

  /** Which per-cycle routine `fn_step` holds. */
  datatype StepFn = IntStep | ExecStep

  /** The `u8` cycle counter of the scratch state. */
  type CycleCount = c: nat | c < 0x100

  /** `TmpState`: the scratch state of the instruction or interrupt in flight.
      `counter` is the cycle number within it. */
  datatype TmpState = TmpState(counter: CycleCount, op1: bv8, op2: bv8, intType: IntType, executer: Executer)

  const DEFAULT_STATE: TmpState := TmpState(0, 0, 0, IntNone, DEFAULT_EXECUTER)

  /** Everything a `Cpu` holds, as one value. */
  datatype Machine = Machine(
    mem: Memory,
    clockCounter: nat,
    regs: Regs,
    resetTrigger: bool,
    nmiTrigger: bool,
    irqTrigger: bool,
    irqIsBrake: bool,
    polling: bool,
    fnStep: StepFn,
    state: TmpState)

  // ---------------------------------------------------------------------
  // Operations on the CPU state, as functions
  // ---------------------------------------------------------------------

  /** `fetch`: the byte at PC, and PC advanced by one (wrapping). */
  function FetchNext(m: Machine): (r: (Machine, bv8))
    ensures r.1 == m.mem(m.regs.pc)
    ensures r.0 == m.(regs := m.regs.(pc := m.regs.pc + 1))
  {
    (m.(regs := m.regs.(pc := m.regs.pc + 1)), m.mem(m.regs.pc))
  }

  /** The address of stack slot `s`: always on page 1. */
  function StackAddr(s: bv8): (addr: bv16)
    ensures 0x0100 <= addr <= 0x01FF
    ensures HighByte(addr) == 0x01 && LowByte(addr) == s
  {
    ADDR_STACK_UPPER | (s as bv16)
  }

  /** `set_to_stack`: stores at the slot S points to; S is kept. */
  function StackWrite(m: Machine, data: bv8): Machine
  {
    m.(mem := Store(m.mem, StackAddr(m.regs.s), data))
  }

  /** `dec_stack`: S moves down one slot, wrapping from 0x00 to 0xFF. */
  function StackDown(m: Machine): Machine
  {
    m.(regs := m.regs.(s := m.regs.s - 1))
  }

  /** `inc_stack`: S moves up one slot, wrapping from 0xFF to 0x00. */
  function StackUp(m: Machine): Machine
  {
    m.(regs := m.regs.(s := m.regs.s + 1))
  }

  /** `peek_stack`: the byte in the slot S points to. */
  function StackTop(m: Machine): bv8
  {
    m.mem(StackAddr(m.regs.s))
  }

  /** `push_stack`: store at 0x0100|S, then S := S - 1. */
  function StackPush(m: Machine, data: bv8): (r: Machine)
    ensures r.mem(StackAddr(m.regs.s)) == data
    ensures forall b :: b != StackAddr(m.regs.s) ==> r.mem(b) == m.mem(b)
    ensures r.regs == m.regs.(s := m.regs.s - 1)
    ensures r == m.(mem := r.mem, regs := r.regs)
  {
    StackDown(StackWrite(m, data))
  }

  /** `pull_stack`: S := S + 1, then read 0x0100|S. */
  function StackPull(m: Machine): (r: (Machine, bv8))
    ensures r.0 == m.(regs := m.regs.(s := m.regs.s + 1))
    ensures r.1 == m.mem(StackAddr(m.regs.s + 1))
  {
    var m1 := StackUp(m);
    (m1, StackTop(m1))
  }

  /** Pulling right after a push gives back the pushed byte and the old S;
      the only trace left is the byte in the stack slot. */
  lemma PushPullRoundTrip(m: Machine, data: bv8)
    ensures StackPull(StackPush(m, data)).1 == data
    ensures StackPull(StackPush(m, data)).0 == m.(mem := Store(m.mem, StackAddr(m.regs.s), data))
  {
    var m1 := StackPush(m, data);
    assert m1 == m.(mem := Store(m.mem, StackAddr(m.regs.s), data), regs := m.regs.(s := m.regs.s - 1));
    assert m1.regs.s + 1 == m.regs.s;
    assert m1.regs.(s := m1.regs.s + 1) == m.regs;
  }

  /** Two pushes land in adjacent slots, the second one below the first,
      and two pulls return them in reverse order. */
  lemma PushTwicePullTwice(m: Machine, d1: bv8, d2: bv8)
    ensures var m2 := StackPush(StackPush(m, d1), d2);
            var (m3, v2) := StackPull(m2);
            var (m4, v1) := StackPull(m3);
            v2 == d2 && v1 == d1 && m4.regs == m.regs
  {
    var m1 := StackPush(m, d1);
    var m2 := StackPush(m1, d2);
    assert StackAddr(m.regs.s - 1) != StackAddr(m.regs.s) by {
      assert LowByte(StackAddr(m.regs.s - 1)) != LowByte(StackAddr(m.regs.s));
    }
    assert m.regs.s - 1 - 1 + 1 == m.regs.s - 1;
    assert m.regs.s - 1 - 1 + 1 + 1 == m.regs.s;
  }

  /** The part of `step` before the per-cycle routine runs: the clock and
      the cycle counter of the instruction or interrupt in flight advance.
      The counter is a `u8`, so past 255 it wraps to 0 (release build). */
  function Ticked(m: Machine): (r: Machine)
    ensures r.state.counter == (m.state.counter + 1) % 0x100 && r.clockCounter == m.clockCounter + 1
    ensures m.state.counter < 0xFF ==> r.state.counter == m.state.counter + 1
  {
    m.(clockCounter := m.clockCounter + 1, state := m.state.(counter := (m.state.counter + 1) % 0x100))
  }

  /** `clear_all_int_trigger`. */
  function TriggersCleared(m: Machine): Machine
  {
    m.(resetTrigger := false, nmiTrigger := false, irqTrigger := false, irqIsBrake := false)
  }

  /** `switch_state_int`: fresh scratch state, next cycles run the interrupt sequence. */
  function IntStateEntered(m: Machine): Machine
  {
    m.(state := DEFAULT_STATE, fnStep := IntStep)
  }

  /** `switch_state_exec`: fresh scratch state, next cycles execute instructions. */
  function ExecStateEntered(m: Machine): Machine
  {
    m.(state := DEFAULT_STATE, fnStep := ExecStep)
  }

  /** `exec_finished`: fresh scratch state, interrupt polling back on. */
  function Finished(m: Machine): Machine
  {
    m.(state := DEFAULT_STATE, polling := true)
  }

  /** An interrupt is asked for: reset or NMI, or an IRQ while I is clear. */
  predicate InterruptRequested(m: Machine)
  {
    m.resetTrigger || m.nmiTrigger || (m.regs.p & INT_DISABLE == 0 && m.irqTrigger)
  }

  /** `check_int`: with polling on and an interrupt asked for, the CPU
      switches to the interrupt sequence; otherwise nothing changes. */
  function IntChecked(m: Machine): (r: Machine)
    ensures m.polling && InterruptRequested(m) ==> r.fnStep == IntStep && r.state == DEFAULT_STATE
    ensures r == m.(fnStep := r.fnStep, state := r.state)
    ensures r != m ==> m.polling && InterruptRequested(m)
  {
    if !m.polling then m
    else if InterruptRequested(m) then IntStateEntered(m)
    else m
  }

  /** A pending IRQ is ignored while I is set, unless reset or NMI is also pending. */
  lemma IrqMaskedWhileDisabled(m: Machine)
    requires m.irqTrigger && !m.resetTrigger && !m.nmiTrigger
    requires m.regs.p & INT_DISABLE != 0
    ensures IntChecked(m) == m
  {
  }

  predicate InRange(b: bv16, lo: bv16, hi: bv16) { lo <= b <= hi }

  /** Addresses `power_on` clears: the APU registers 0x4000-0x4013, 0x4015
      and 0x4017, and the 2 KiB of work RAM 0x0000-0x07FF. */
  predicate ClearedAtPowerOn(b: bv16)
  {
    InRange(b, 0x4000, 0x400F) || InRange(b, 0x4010, 0x4013) || b == 0x4015 || b == 0x4017 ||
    InRange(b, 0x0000, 0x07FF)
  }

  /** `raw_fill` / `write` with 0 over the addresses `power_on` clears. */
  function PowerOnMemory(mem: Memory): (r: Memory)
    ensures forall b :: r(b) == if ClearedAtPowerOn(b) then 0 else mem(b)
  {
    b => if ClearedAtPowerOn(b) then 0 else mem(b)
  }

  /** `power_on`: registers to their power-up values, APU registers and work
      RAM zeroed, every trigger but reset cleared, and the CPU handed to the
      interrupt sequence so that it starts with a reset. */
  function PoweredOn(m: Machine): (r: Machine)
    ensures r.regs.a == 0 && r.regs.x == 0 && r.regs.y == 0 && r.regs.s == 0xFD
    ensures r.regs.p == SetFlags(m.regs.p, INT_DISABLE | BREAK | RESERVED) && r.regs.pc == m.regs.pc
    ensures forall b :: 0x0000 <= b <= 0x07FF ==> r.mem(b) == 0
    ensures forall b :: 0x4000 <= b <= 0x4013 ==> r.mem(b) == 0
    ensures r.mem(0x4015) == 0 && r.mem(0x4017) == 0
    ensures forall b :: !ClearedAtPowerOn(b) ==> r.mem(b) == m.mem(b)
    ensures r.resetTrigger && !r.nmiTrigger && !r.irqTrigger && !r.irqIsBrake
    ensures r.fnStep == IntStep && r.state == DEFAULT_STATE
    ensures r.polling == m.polling && r.clockCounter == m.clockCounter
  {
    var regs := m.regs.(a := 0, x := 0, y := 0, s := 0xFD,
                        p := SetFlags(m.regs.p, INT_DISABLE | BREAK | RESERVED));
    var m1 := TriggersCleared(m.(regs := regs, mem := PowerOnMemory(m.mem)));
    IntStateEntered(m1.(resetTrigger := true))
  }

  /** `reset`: S drops by 3 (wrapping here; the source's unchecked `-=`
      panics in debug builds when S < 3) and I is set; memory is kept. */
  function ResetRegs(r: Regs): (r': Regs)
    ensures r'.s + 3 == r.s
    ensures r'.p & INT_DISABLE != 0 && r'.p & !INT_DISABLE == r.p & !INT_DISABLE
    ensures r'.a == r.a && r'.x == r.x && r'.y == r.y && r'.pc == r.pc
  {
    r.(s := r.s - 3, p := SetFlags(r.p, INT_DISABLE))
  }

  // ---------------------------------------------------------------------
  // The CPU object
  // ---------------------------------------------------------------------

  /** `Cpu`: memory, clock counter, registers, interrupt lines and the state
      of the instruction or interrupt in flight, all updated in place. */
  class Cpu {
    var mem: Memory
    var clockCounter: nat
    const regs: Registers
    var resetTrigger: bool
    var nmiTrigger: bool
    var irqTrigger: bool
    var irqIsBrake: bool
    var intPollingEnabled: bool
    var fnStep: StepFn
    var state: TmpState

    function Snapshot(): Machine
      reads this, regs
    {
      Machine(mem, clockCounter, regs.View(), resetTrigger, nmiTrigger, irqTrigger,
              irqIsBrake, intPollingEnabled, fnStep, state)
    }

    /** `Cpu::new` without the PRG-ROM copy: all lines low, polling off,
        default registers and scratch state, interrupt sequence next. */
    constructor (ram: Memory)
      ensures Snapshot() == Machine(ram, 0, DEFAULT_REGS, false, false, false, false, false,
                                    IntStep, DEFAULT_STATE)
      ensures fresh(regs)
    {
      mem := ram;
      clockCounter := 0;
      resetTrigger, nmiTrigger, irqTrigger, irqIsBrake := false, false, false, false;
      intPollingEnabled := false;
      regs := new Registers();
      fnStep := IntStep;
      state := DEFAULT_STATE;
    }

    /** Overwrites the whole CPU state (used where a routine that is not part
        of this model hands back its result). */
    method Load(m: Machine)
      modifies this, regs
      ensures Snapshot() == m
    {
      mem, clockCounter := m.mem, m.clockCounter;
      regs.Assign(m.regs);
      resetTrigger, nmiTrigger, irqTrigger, irqIsBrake := m.resetTrigger, m.nmiTrigger, m.irqTrigger, m.irqIsBrake;
      intPollingEnabled, fnStep, state := m.polling, m.fnStep, m.state;
    }

    /** The memory controller's `write`, on the flat address space. */
    method Write(addr: bv16, val: bv8)
      modifies this
      ensures Snapshot() == old(Snapshot()).(mem := Store(old(mem), addr, val))
    {
      mem := Store(mem, addr, val);
    }

    method Fetch() returns (data: bv8)
      modifies regs
      ensures (Snapshot(), data) == FetchNext(old(Snapshot()))
    {
      data := mem(regs.pc);
      regs.pc := regs.pc + 1;
    }

    method PowerOn()
      modifies this, regs
      ensures Snapshot() == PoweredOn(old(Snapshot()))
    {
      regs.a := 0;
      regs.x := 0;
      regs.y := 0;
      regs.s := 0xFD;
      regs.FlagsOn(INT_DISABLE | BREAK | RESERVED);
      mem := PowerOnMemory(mem);
      ClearAllIntTrigger();
      resetTrigger := true;
      SwitchStateInt();
    }

    method Reset()
      modifies regs
      ensures Snapshot() == old(Snapshot()).(regs := ResetRegs(old(regs.View())))
    {
      regs.s := regs.s - 3;
      regs.FlagsOn(INT_DISABLE);
    }

    method CheckInt()
      modifies this
      ensures Snapshot() == IntChecked(old(Snapshot()))
    {
      if !intPollingEnabled {
        return;
      }
      if resetTrigger || nmiTrigger || (!regs.IntDisabled() && irqTrigger) {
        SwitchStateInt();
      }
    }

    method ClearAllIntTrigger()
      modifies this
      ensures Snapshot() == TriggersCleared(old(Snapshot()))
    {
      resetTrigger := false;
      nmiTrigger := false;
      irqTrigger := false;
      irqIsBrake := false;
    }

    method SwitchStateInt()
      modifies this
      ensures Snapshot() == IntStateEntered(old(Snapshot()))
    {
      state := DEFAULT_STATE;
      fnStep := IntStep;
    }

    method SwitchStateExec()
      modifies this
      ensures Snapshot() == ExecStateEntered(old(Snapshot()))
    {
      state := DEFAULT_STATE;
      fnStep := ExecStep;
    }

    method ExecFinished()
      modifies this
      ensures Snapshot() == Finished(old(Snapshot()))
    {
      state := DEFAULT_STATE;
      intPollingEnabled := true;
    }

    method PushStack(data: bv8)
      modifies this, regs
      ensures Snapshot() == StackPush(old(Snapshot()), data)
    {
      SetToStack(data);
      DecStack();
    }

    method DecStack()
      modifies regs
      ensures Snapshot() == StackDown(old(Snapshot()))
    {
      regs.s := regs.s - 1;
    }

    method SetToStack(data: bv8)
      modifies this
      ensures Snapshot() == StackWrite(old(Snapshot()), data)
    {
      var addr := ADDR_STACK_UPPER | (regs.s as bv16);
      Write(addr, data);
    }

    method PullStack() returns (data: bv8)
      modifies regs
      ensures (Snapshot(), data) == StackPull(old(Snapshot()))
    {
      IncStack();
      data := PeekStack();
    }

    method IncStack()
      modifies regs
      ensures Snapshot() == StackUp(old(Snapshot()))
    {
      regs.s := regs.s + 1;
    }

    method PeekStack() returns (data: bv8)
      ensures data == StackTop(Snapshot())
    {
      var addr := ADDR_STACK_UPPER | (regs.s as bv16);
      data := mem(addr);
    }
  }
}
