// The addressing-mode routines of src/nes/cpu/executer.rs.  Each routine is
// one cycle of a small state machine keyed on `state.counter`: it fetches
// operand bytes into `op1`/`op2`, forms the effective address and, on its
// access cycle, either reads memory and hands the byte to the instruction's
// action (Register destination) or asks the action for a byte and writes it
// to memory (Memory destination).
module ExecuterRoutines {
  import opened Util
  import opened ExecuterTypes
  import opened Cpu
  import ExecCoreG1
  import ExecCoreG3

  /** The code the routines call that is not modelled here, as
      parameters: the group 2 actions (which are taken to change registers
      only), the routines for the remaining addressing modes, and the
      decoder's `fetch_and_decode`. */
  datatype Externals = Externals(
    groupTwo: (CoreFn, Regs, bv8) -> (Regs, bv8),
    routine: (ExecFn, Machine) -> Machine,
    fetchAndDecode: Machine -> (Machine, Executer))

  // ---------------------------------------------------------------------
  // Calling the action (`(self.state.executer.fn_core)(self, val)`)
  // ---------------------------------------------------------------------

  /** The effect of calling action `core` with operand `val`: the new CPU
      state and the byte it returns.  Actions change at most the registers
      and memory; STA returns A and changes nothing; every other action
      whose body is modelled returns 0. */
  function CoreEffect(core: CoreFn, m: Machine, val: bv8, u: Externals): (r: (Machine, bv8))
    ensures r.0 == m.(regs := r.0.regs, mem := r.0.mem)
    ensures !(core.Php? || core.Pha?) ==> r.0.mem == m.mem
    ensures IsModelledCore(core) && !core.Sta? ==> r.1 == 0
    ensures core.Sta? ==> r == (m, m.regs.a)
  {
    if core.CoreDummy? then (m, 0)
    else if ExecCoreG1.IsGroupOne(core) then
      ExecCoreG1.GroupOneCall(core, m, val)
    else if ExecCoreG3.IsGroupThree(core) then
      ExecCoreG3.GroupThreeFrame(core, m);
      (ExecCoreG3.GroupThreeEffect(core, m), 0)
    else
      var res := u.groupTwo(core, m.regs, val);
      (m.(regs := res.0), res.1)
  }

  /** Calls the action named by `core` (`fn_core_cummy` for the dummy). */
  method CallCore(cpu: Cpu, core: CoreFn, val: bv8, u: Externals) returns (r: bv8)
    modifies cpu, cpu.regs
    ensures (cpu.Snapshot(), r) == CoreEffect(core, old(cpu.Snapshot()), val, u)
  {
    if core.CoreDummy? {
      r := 0;
    } else if ExecCoreG1.IsGroupOne(core) {
      r := ExecCoreG1.CallGroupOne(cpu, core, val);
    } else if ExecCoreG3.IsGroupThree(core) {
      r := ExecCoreG3.CallGroupThree(cpu, core, val);
    } else {
      var res := u.groupTwo(core, cpu.regs.View(), val);
      cpu.regs.Assign(res.0);
      r := res.1;
    }
  }

  /** What an action does when called, as a value: the routines are
      written against this, as the source's routines call whatever
      `fn_core` points to. */
  type Action = (CoreFn, Machine, bv8) -> (Machine, bv8)

  /** The actions of this model, with `u.groupTwo` for the rest. */
  function CoreAct(u: Externals): Action
  {
    (core, m, val) => CoreEffect(core, m, val, u)
  }

  /** An action that changes at most the registers and memory. */
  ghost predicate KeepsScratch(act: Action)
  {
    forall core, m, val {:trigger act(core, m, val)} :: act(core, m, val).0 == m.(regs := act(core, m, val).0.regs, mem := act(core, m, val).0.mem)
  }

  /** The actions of this model change at most the registers and memory. */
  lemma CoreActKeepsScratch(u: Externals)
    ensures KeepsScratch(CoreAct(u))
  {
  }

  // ---------------------------------------------------------------------
  // Pieces shared by the routines
  // ---------------------------------------------------------------------

  /** A zero-page address: the byte widened to 16 bits (`as u16`), so it
      always lies on page 0. */
  function ZeroPage(b: bv8): (addr: bv16)
    ensures addr < 0x100
    ensures HighByte(addr) == 0 && LowByte(addr) == b
  {
    b as bv16
  }

  /** `op_1 := fetch()`. */
  function FetchOp1(m: Machine): (r: Machine)
    ensures r == m.(regs := m.regs.(pc := m.regs.pc + 1), state := m.state.(op1 := m.mem(m.regs.pc)))
  {
    var (m1, b) := FetchNext(m);
    m1.(state := m1.state.(op1 := b))
  }

  /** `op_2 := fetch()`. */
  function FetchOp2(m: Machine): (r: Machine)
    ensures r == m.(regs := m.regs.(pc := m.regs.pc + 1), state := m.state.(op2 := m.mem(m.regs.pc)))
  {
    var (m1, b) := FetchNext(m);
    m1.(state := m1.state.(op2 := b))
  }

  /** `op_1 := op_1.wrapping_add(index)`. */
  function IndexOp1(m: Machine, index: bv8): Machine
  {
    m.(state := m.state.(op1 := m.state.op1 + index))
  }

  method AddToOp1(cpu: Cpu, index: bv8)
    modifies cpu
    ensures cpu.Snapshot() == IndexOp1(old(cpu.Snapshot()), index)
  {
    cpu.state := cpu.state.(op1 := cpu.state.op1 + index);
  }

  /** `op_1 := mem.read(addr)`. */
  function LoadOp1(m: Machine, addr: bv16): Machine
  {
    m.(state := m.state.(op1 := m.mem(addr)))
  }

  /** `op_2 := mem.read(addr)`. */
  function LoadOp2(m: Machine, addr: bv16): Machine
  {
    m.(state := m.state.(op2 := m.mem(addr)))
  }

  method ReadIntoOp1(cpu: Cpu, addr: bv16)
    modifies cpu
    ensures cpu.Snapshot() == LoadOp1(old(cpu.Snapshot()), addr)
  {
    cpu.state := cpu.state.(op1 := cpu.mem(addr));
  }

  method ReadIntoOp2(cpu: Cpu, addr: bv16)
    modifies cpu
    ensures cpu.Snapshot() == LoadOp2(old(cpu.Snapshot()), addr)
  {
    cpu.state := cpu.state.(op2 := cpu.mem(addr));
  }

  /** `exec_finished` when `done` holds, nothing otherwise. */
  function FinishedIf(m: Machine, done: bool): Machine
  {
    if done then Finished(m) else m
  }

  method FinishIf(cpu: Cpu, done: bool)
    modifies cpu
    ensures cpu.Snapshot() == FinishedIf(old(cpu.Snapshot()), done)
  {
    if done {
      cpu.ExecFinished();
    }
  }

  /** Whether `low.checked_add(index)` is `Some`: the sum stays within a byte. */
  predicate NoPageCross(low: bv8, index: bv8)
  {
    index <= 0xFF - low
  }

  /** `NoPageCross` is the byte-level statement of `low + index <= 255`. */
  lemma NoPageCrossMeaning(low: bv8, index: bv8)
    ensures NoPageCross(low, index) <==> low as int + index as int <= 255
  {
  }

  /** The access cycle every addressing mode ends with.  With Register
      destination the byte at `addr` is handed to the action; with Memory
      destination the action is called with 0 and what it returns is
      written to `addr`. */
  function Access(m: Machine, addr: bv16, act: Action): Machine
  {
    var core := m.state.executer.fnCore;
    if m.state.executer.dst == Register then
      act(core, m, m.mem(addr)).0
    else
      var (m1, val) := act(core, m, 0);
      m1.(mem := Store(m1.mem, addr, val))
  }

  /** With an action that changes at most the registers and memory, the
      access cycle changes nothing else either. */
  lemma AccessKeepsScratch(m: Machine, addr: bv16, act: Action)
    requires KeepsScratch(act)
    ensures Access(m, addr, act) == m.(regs := Access(m, addr, act).regs, mem := Access(m, addr, act).mem)
  {
    var core := m.state.executer.fnCore;
    if m.state.executer.dst == Register {
      var val := m.mem(addr);
      var r := act(core, m, val);
      assert r.0 == m.(regs := r.0.regs, mem := r.0.mem);
    } else {
      var r := act(core, m, 0);
      assert r.0 == m.(regs := r.0.regs, mem := r.0.mem);
    }
  }

  /** STA with Memory destination stores A at the effective address and
      changes nothing else. */
  lemma StoreAccumulator(m: Machine, addr: bv16, u: Externals)
    requires m.state.executer.fnCore == Sta && m.state.executer.dst == Memory
    ensures Access(m, addr, CoreAct(u)) == m.(mem := Store(m.mem, addr, m.regs.a))
  {
  }

  /** A group 1 read with Register destination hands the byte at the
      effective address to its action and leaves memory alone. */
  lemma LoadOperand(m: Machine, addr: bv16, u: Externals)
    requires ExecCoreG1.IsGroupOne(m.state.executer.fnCore) && m.state.executer.dst == Register
    ensures Access(m, addr, CoreAct(u)) ==
            m.(regs := ExecCoreG1.GroupOneEffect(m.state.executer.fnCore, m.regs, m.mem(addr)).0)
  {
  }

  /** A group 1 action other than LDX leaves X and Y alone, so the index
      register the indexed modes read again after the access still holds
      the value that formed the address. */
  lemma GroupOneKeepsIndex(m: Machine, addr: bv16, u: Externals)
    requires ExecCoreG1.IsGroupOne(m.state.executer.fnCore) && !m.state.executer.fnCore.Ldx?
    ensures Access(m, addr, CoreAct(u)).regs.x == m.regs.x
    ensures Access(m, addr, CoreAct(u)).regs.y == m.regs.y
  {
    var core := m.state.executer.fnCore;
    var val := if m.state.executer.dst == Register then m.mem(addr) else 0;
    var r := ExecCoreG1.GroupOneEffect(core, m.regs, val);
    assert Access(m, addr, CoreAct(u)).regs == r.0;
  }

  /** Runs the access cycle on the CPU object. */
  method AccessOperand(cpu: Cpu, addr: bv16, u: Externals)
    modifies cpu, cpu.regs
    ensures cpu.Snapshot() == Access(old(cpu.Snapshot()), addr, CoreAct(u))
  {
    if cpu.state.executer.dst == Register {
      var val := cpu.mem(addr);
      var _ := CallCore(cpu, cpu.state.executer.fnCore, val, u);
    } else {
      var val := CallCore(cpu, cpu.state.executer.fnCore, 0, u);
      cpu.Write(addr, val);
    }
  }

  /** The access cycle followed by `exec_finished`. */
  method AccessAndFinish(cpu: Cpu, addr: bv16, u: Externals)
    modifies cpu, cpu.regs
    ensures cpu.Snapshot() == Finished(Access(old(cpu.Snapshot()), addr, CoreAct(u)))
  {
    AccessOperand(cpu, addr, u);
    cpu.ExecFinished();
  }

  /** The access cycle of the modes indexed by X: the access at `high:low`
      plus X (wrapping at 16 bits), finished unless `low` plus X, read again
      after the action, leaves the byte. */
  function IndexedAccessX(m: Machine, high: bv8, low: bv8, act: Action): Machine
  {
    var m1 := Access(m, MakeAddr(high, low) + (m.regs.x as bv16), act);
    FinishedIf(m1, NoPageCross(low, m1.regs.x))
  }

  /** The same with Y. */
  function IndexedAccessY(m: Machine, high: bv8, low: bv8, act: Action): Machine
  {
    var m1 := Access(m, MakeAddr(high, low) + (m.regs.y as bv16), act);
    FinishedIf(m1, NoPageCross(low, m1.regs.y))
  }

  method IndexedAccessOperandX(cpu: Cpu, high: bv8, low: bv8, u: Externals)
    modifies cpu, cpu.regs
    ensures cpu.Snapshot() == IndexedAccessX(old(cpu.Snapshot()), high, low, CoreAct(u))
  {
    AccessOperand(cpu, MakeAddr(high, low) + (cpu.regs.x as bv16), u);
    FinishIf(cpu, NoPageCross(low, cpu.regs.x));
  }

  method IndexedAccessOperandY(cpu: Cpu, high: bv8, low: bv8, u: Externals)
    modifies cpu, cpu.regs
    ensures cpu.Snapshot() == IndexedAccessY(old(cpu.Snapshot()), high, low, CoreAct(u))
  {
    AccessOperand(cpu, MakeAddr(high, low) + (cpu.regs.y as bv16), u);
    FinishIf(cpu, NoPageCross(low, cpu.regs.y));
  }

  // ---------------------------------------------------------------------
  // The routines, one cycle at a time (src/nes/cpu/executer.rs:46-270)
  // ---------------------------------------------------------------------

  /** `exec_immediate`: one cycle; the operand byte is fetched and handed to
      the action.  The source has no Memory-destination case (it is
      `unreachable!`). */
  function ImmediateCycle(m: Machine, act: Action): Machine
    requires m.state.counter == 2 && m.state.executer.dst == Register
  {
    var (m1, operand) := FetchNext(m);
    Finished(act(m.state.executer.fnCore, m1, operand).0)
  }

  /** `exec_zeropage`: operand at cycle 2, access at cycle 3. */
  function ZeroPageCycle(m: Machine, act: Action): Machine
    requires 2 <= m.state.counter <= 3
  {
    if m.state.counter == 2 then FetchOp1(m)
    else Finished(Access(m, ZeroPage(m.state.op1), act))
  }

  /** `exec_indexed_zeropage_x`: operand, then X added within the byte,
      then the access. */
  function ZeroPageXCycle(m: Machine, act: Action): Machine
    requires 2 <= m.state.counter <= 4
  {
    if m.state.counter == 2 then FetchOp1(m)
    else if m.state.counter == 3 then IndexOp1(m, m.regs.x)
    else Finished(Access(m, ZeroPage(m.state.op1), act))
  }

  /** `exec_indexed_zeropage_y`: the same with Y. */
  function ZeroPageYCycle(m: Machine, act: Action): Machine
    requires 2 <= m.state.counter <= 4
  {
    if m.state.counter == 2 then FetchOp1(m)
    else if m.state.counter == 3 then IndexOp1(m, m.regs.y)
    else Finished(Access(m, ZeroPage(m.state.op1), act))
  }

  /** `exec_absolute`: low byte, high byte, then the access. */
  function AbsoluteCycle(m: Machine, act: Action): Machine
    requires 2 <= m.state.counter <= 4
  {
    if m.state.counter == 2 then FetchOp1(m)
    else if m.state.counter == 3 then FetchOp2(m)
    else Finished(Access(m, MakeAddr(m.state.op2, m.state.op1), act))
  }

  /** `exec_accumulator` and `exec_implied`: the action alone, called with 0. */
  function NoOperandCycle(m: Machine, act: Action): Machine
    requires m.state.counter == 2
  {
    Finished(act(m.state.executer.fnCore, m, 0).0)
  }

  /** `exec_indexed_absolute_x`: low byte, high byte, the access at the
      base plus X (wrapping at 16 bits); it finishes there unless the low
      byte plus X (X as the action left it) leaves the byte, and then one
      cycle later. */
  function AbsoluteXCycle(m: Machine, act: Action): Machine
    requires 2 <= m.state.counter <= 5
  {
    if m.state.counter == 2 then FetchOp1(m)
    else if m.state.counter == 3 then FetchOp2(m)
    else if m.state.counter == 4 then
      IndexedAccessX(m, m.state.op2, m.state.op1, act)
    else Finished(m)
  }

  /** `exec_indexed_absolute_y`: the same with Y. */
  function AbsoluteYCycle(m: Machine, act: Action): Machine
    requires 2 <= m.state.counter <= 5
  {
    if m.state.counter == 2 then FetchOp1(m)
    else if m.state.counter == 3 then FetchOp2(m)
    else if m.state.counter == 4 then
      IndexedAccessY(m, m.state.op2, m.state.op1, act)
    else Finished(m)
  }

  /** `exec_indexed_indirect_x` as written: the operand plus X (within the
      byte) names a zero-page cell; the byte read there is used as a
      second zero-page pointer, whose cell and the next one hold the low
      and high bytes of the address. */
  function IndirectXCycle(m: Machine, act: Action): Machine
    requires 2 <= m.state.counter <= 6
  {
    var st := m.state;
    if st.counter == 2 then FetchOp1(m)
    else if st.counter == 3 then LoadOp1(m, ZeroPage(st.op1 + m.regs.x))
    else if st.counter == 4 then LoadOp1(m, ZeroPage(st.op1))
    else if st.counter == 5 then LoadOp2(m, ZeroPage(st.op1 + 1))
    else Finished(Access(m, MakeAddr(st.op2, st.op1), act))
  }

  /** `exec_indirect_indexed_y`: the operand names a zero-page pointer; its
      cell and the next (within page 0) give the base address, Y is added
      (wrapping at 16 bits); it finishes at the access unless the low byte
      plus Y leaves the byte, and then one cycle later. */
  function IndirectYCycle(m: Machine, act: Action): Machine
    requires 2 <= m.state.counter <= 6
  {
    var st := m.state;
    if st.counter == 2 then FetchOp1(m)
    else if st.counter == 3 then LoadOp2(m, ZeroPage(st.op1))
    else if st.counter == 4 then LoadOp1(m, ZeroPage(st.op1 + 1))
    else if st.counter == 5 then
      IndexedAccessY(m, st.op1, st.op2, act)
    else Finished(m)
  }

  // ---------------------------------------------------------------------
  // The routines on the CPU object
  // ---------------------------------------------------------------------

  /** `op_1 := fetch()` on the CPU object. */
  method FetchIntoOp1(cpu: Cpu)
    modifies cpu, cpu.regs
    ensures cpu.Snapshot() == FetchOp1(old(cpu.Snapshot()))
  {
    var b := cpu.Fetch();
    cpu.state := cpu.state.(op1 := b);
  }

  /** `op_2 := fetch()` on the CPU object. */
  method FetchIntoOp2(cpu: Cpu)
    modifies cpu, cpu.regs
    ensures cpu.Snapshot() == FetchOp2(old(cpu.Snapshot()))
  {
    var b := cpu.Fetch();
    cpu.state := cpu.state.(op2 := b);
  }

  method ExecImmediate(cpu: Cpu, u: Externals)
    requires cpu.state.counter == 2 && cpu.state.executer.dst == Register
    modifies cpu, cpu.regs
    ensures cpu.Snapshot() == ImmediateCycle(old(cpu.Snapshot()), CoreAct(u))
  {
    var operand := cpu.Fetch();
    var _ := CallCore(cpu, cpu.state.executer.fnCore, operand, u);
    cpu.ExecFinished();
  }

  method ExecZeroPage(cpu: Cpu, u: Externals)
    requires 2 <= cpu.state.counter <= 3
    modifies cpu, cpu.regs
    ensures cpu.Snapshot() == ZeroPageCycle(old(cpu.Snapshot()), CoreAct(u))
  {
    if cpu.state.counter == 2 {
      FetchIntoOp1(cpu);
    } else {
      AccessAndFinish(cpu, cpu.state.op1 as bv16, u);
    }
  }

  method ExecZeroPageX(cpu: Cpu, u: Externals)
    requires 2 <= cpu.state.counter <= 4
    modifies cpu, cpu.regs
    ensures cpu.Snapshot() == ZeroPageXCycle(old(cpu.Snapshot()), CoreAct(u))
  {
    if cpu.state.counter == 2 {
      FetchIntoOp1(cpu);
    } else if cpu.state.counter == 3 {
      AddToOp1(cpu, cpu.regs.x);
    } else {
      AccessAndFinish(cpu, cpu.state.op1 as bv16, u);
    }
  }

  method ExecZeroPageY(cpu: Cpu, u: Externals)
    requires 2 <= cpu.state.counter <= 4
    modifies cpu, cpu.regs
    ensures cpu.Snapshot() == ZeroPageYCycle(old(cpu.Snapshot()), CoreAct(u))
  {
    if cpu.state.counter == 2 {
      FetchIntoOp1(cpu);
    } else if cpu.state.counter == 3 {
      AddToOp1(cpu, cpu.regs.y);
    } else {
      AccessAndFinish(cpu, cpu.state.op1 as bv16, u);
    }
  }

  method ExecAbsolute(cpu: Cpu, u: Externals)
    requires 2 <= cpu.state.counter <= 4
    modifies cpu, cpu.regs
    ensures cpu.Snapshot() == AbsoluteCycle(old(cpu.Snapshot()), CoreAct(u))
  {
    if cpu.state.counter == 2 {
      FetchIntoOp1(cpu);
    } else if cpu.state.counter == 3 {
      FetchIntoOp2(cpu);
    } else {
      AccessAndFinish(cpu, MakeAddr(cpu.state.op2, cpu.state.op1), u);
    }
  }

  /** `exec_accumulator` and `exec_implied` (the two bodies are the same). */
  method ExecNoOperand(cpu: Cpu, u: Externals)
    requires cpu.state.counter == 2
    modifies cpu, cpu.regs
    ensures cpu.Snapshot() == NoOperandCycle(old(cpu.Snapshot()), CoreAct(u))
  {
    var _ := CallCore(cpu, cpu.state.executer.fnCore, 0, u);
    cpu.ExecFinished();
  }

  method ExecAbsoluteX(cpu: Cpu, u: Externals)
    requires 2 <= cpu.state.counter <= 5
    modifies cpu, cpu.regs
    ensures cpu.Snapshot() == AbsoluteXCycle(old(cpu.Snapshot()), CoreAct(u))
  {
    if cpu.state.counter == 2 {
      FetchIntoOp1(cpu);
    } else if cpu.state.counter == 3 {
      FetchIntoOp2(cpu);
    } else if cpu.state.counter == 4 {
      IndexedAccessOperandX(cpu, cpu.state.op2, cpu.state.op1, u);
    } else {
      cpu.ExecFinished();
    }
  }

  method ExecAbsoluteY(cpu: Cpu, u: Externals)
    requires 2 <= cpu.state.counter <= 5
    modifies cpu, cpu.regs
    ensures cpu.Snapshot() == AbsoluteYCycle(old(cpu.Snapshot()), CoreAct(u))
  {
    if cpu.state.counter == 2 {
      FetchIntoOp1(cpu);
    } else if cpu.state.counter == 3 {
      FetchIntoOp2(cpu);
    } else if cpu.state.counter == 4 {
      IndexedAccessOperandY(cpu, cpu.state.op2, cpu.state.op1, u);
    } else {
      cpu.ExecFinished();
    }
  }

  method ExecIndirectX(cpu: Cpu, u: Externals)
    requires 2 <= cpu.state.counter <= 6
    modifies cpu, cpu.regs
    ensures cpu.Snapshot() == IndirectXCycle(old(cpu.Snapshot()), CoreAct(u))
  {
    if cpu.state.counter == 2 {
      FetchIntoOp1(cpu);
    } else if cpu.state.counter == 3 {
      IndirectXPointer(cpu, u);
    } else if cpu.state.counter == 4 {
      IndirectXLow(cpu, u);
    } else if cpu.state.counter == 5 {
      IndirectXHigh(cpu, u);
    } else {
      AccessAndFinish(cpu, MakeAddr(cpu.state.op2, cpu.state.op1), u);
    }
  }

  method ExecIndirectY(cpu: Cpu, u: Externals)
    requires 2 <= cpu.state.counter <= 6
    modifies cpu, cpu.regs
    ensures cpu.Snapshot() == IndirectYCycle(old(cpu.Snapshot()), CoreAct(u))
  {
    if cpu.state.counter == 2 {
      FetchIntoOp1(cpu);
    } else if cpu.state.counter == 3 {
      ReadIntoOp2(cpu, ZeroPage(cpu.state.op1));
    } else if cpu.state.counter == 4 {
      ReadIntoOp1(cpu, ZeroPage(cpu.state.op1 + 1));
    } else if cpu.state.counter == 5 {
      IndexedAccessOperandY(cpu, cpu.state.op1, cpu.state.op2, u);
    } else {
      cpu.ExecFinished();
    }
  }

  /** Cycle 3 of `exec_indexed_indirect_x`: the byte at the operand plus X
      (within page 0) becomes `op_1`. */
  method IndirectXPointer(cpu: Cpu, u: Externals)
    requires cpu.state.counter == 3
    modifies cpu
    ensures cpu.Snapshot() == IndirectXCycle(old(cpu.Snapshot()), CoreAct(u))
  {
    ReadIntoOp1(cpu, ZeroPage(cpu.state.op1 + cpu.regs.x));
  }

  /** Cycle 4: the byte at zero-page `op_1` becomes `op_1`. */
  method IndirectXLow(cpu: Cpu, u: Externals)
    requires cpu.state.counter == 4
    modifies cpu
    ensures cpu.Snapshot() == IndirectXCycle(old(cpu.Snapshot()), CoreAct(u))
  {
    ReadIntoOp1(cpu, ZeroPage(cpu.state.op1));
  }

  /** Cycle 5: the byte at zero-page `op_1 + 1` becomes `op_2`. */
  method IndirectXHigh(cpu: Cpu, u: Externals)
    requires cpu.state.counter == 5
    modifies cpu
    ensures cpu.Snapshot() == IndirectXCycle(old(cpu.Snapshot()), CoreAct(u))
  {
    ReadIntoOp2(cpu, ZeroPage(cpu.state.op1 + 1));
  }

  // ---------------------------------------------------------------------
  // Dispatch on `fn_exec`
  // ---------------------------------------------------------------------

  /** The cycles each routine accepts; any other counter reaches an
      `unreachable!` arm of the source, and so does an immediate-mode
      instruction with Memory destination. */
  predicate RoutineReady(m: Machine)
  {
    var c := m.state.counter;
    match m.state.executer.fnExec
    case FnImmediate => c == 2 && m.state.executer.dst == Register
    case FnZeroPage => 2 <= c <= 3
    case FnIndexedZeroPageX => 2 <= c <= 4
    case FnIndexedZeroPageY => 2 <= c <= 4
    case FnAbsolute => 2 <= c <= 4
    case FnAccumulator => c == 2
    case FnImplied => c == 2
    case FnIndexedAbsoluteX => 2 <= c <= 5
    case FnIndexedAbsoluteY => 2 <= c <= 5
    case FnIndexedIndirectX => 2 <= c <= 6
    case FnIndirectIndexedY => 2 <= c <= 6
    case _ => true
  }

  /** One call of `(self.state.executer.fn_exec)(self)`: the dummy routine
      does nothing, the routines of this module run their cycle, and the
      others are left to `u.routine`. */
  function RoutineCycle(m: Machine, u: Externals): Machine
    requires RoutineReady(m)
  {
    match m.state.executer.fnExec
    case FnDummy => m
    case FnImmediate => ImmediateCycle(m, CoreAct(u))
    case FnZeroPage => ZeroPageCycle(m, CoreAct(u))
    case FnIndexedZeroPageX => ZeroPageXCycle(m, CoreAct(u))
    case FnIndexedZeroPageY => ZeroPageYCycle(m, CoreAct(u))
    case FnAbsolute => AbsoluteCycle(m, CoreAct(u))
    case FnAccumulator => NoOperandCycle(m, CoreAct(u))
    case FnImplied => NoOperandCycle(m, CoreAct(u))
    case FnIndexedAbsoluteX => AbsoluteXCycle(m, CoreAct(u))
    case FnIndexedAbsoluteY => AbsoluteYCycle(m, CoreAct(u))
    case FnIndexedIndirectX => IndirectXCycle(m, CoreAct(u))
    case FnIndirectIndexedY => IndirectYCycle(m, CoreAct(u))
    case _ => u.routine(m.state.executer.fnExec, m)
  }

  /** Calls the routine named by `fn_exec` on the CPU object. */
  method CallExec(cpu: Cpu, u: Externals)
    requires RoutineReady(cpu.Snapshot())
    modifies cpu, cpu.regs
    ensures cpu.Snapshot() == RoutineCycle(old(cpu.Snapshot()), u)
  {
    match cpu.state.executer.fnExec
    case FnDummy =>
    case FnImmediate => ExecImmediate(cpu, u);
    case FnZeroPage => ExecZeroPage(cpu, u);
    case FnIndexedZeroPageX => ExecZeroPageX(cpu, u);
    case FnIndexedZeroPageY => ExecZeroPageY(cpu, u);
    case FnAbsolute => ExecAbsolute(cpu, u);
    case FnAccumulator => ExecNoOperand(cpu, u);
    case FnImplied => ExecNoOperand(cpu, u);
    case FnIndexedAbsoluteX => ExecAbsoluteX(cpu, u);
    case FnIndexedAbsoluteY => ExecAbsoluteY(cpu, u);
    case FnIndexedIndirectX => ExecIndirectX(cpu, u);
    case FnIndirectIndexedY => ExecIndirectY(cpu, u);
    case _ => cpu.Load(u.routine(cpu.state.executer.fnExec, cpu.Snapshot()));
  }

  // ---------------------------------------------------------------------
  // Whole instructions: addresses and finishing cycles
  // ---------------------------------------------------------------------
  // The lemmas start right after the opcode cycle (counter 1, PC at the
  // first operand byte) and follow a routine cycle by cycle, `Ticked`
  // standing for the counter increment `step` performs before each call.
  // They hold for any action that changes at most the registers and
  // memory.  A finished instruction is one whose scratch state is back to
  // the default (counter 0) with polling on.

  /** One operand cycle: `op_1` holds the byte after the opcode and PC has
      moved past it. */
  lemma OneOperandByte(m: Machine)
    ensures var m2 := FetchOp1(Ticked(m));
            m2.regs == m.regs.(pc := m.regs.pc + 1) && m2.mem == m.mem &&
            m2.state == m.state.(counter := (m.state.counter + 1) % 0x100, op1 := m.mem(m.regs.pc))
  {
  }

  /** Two operand cycles: `op_1` and `op_2` hold the two bytes after the
      opcode, low byte first, and PC has moved past both. */
  lemma TwoOperandBytes(m: Machine)
    ensures var m3 := FetchOp2(Ticked(FetchOp1(Ticked(m))));
            m3.regs == m.regs.(pc := m.regs.pc + 2) && m3.mem == m.mem &&
            m3.state == m.state.(counter := (m.state.counter + 2) % 0x100, op1 := m.mem(m.regs.pc), op2 := m.mem(m.regs.pc + 1))
  {
    var m3 := FetchOp2(Ticked(FetchOp1(Ticked(m))));
    assert m3.regs == m.regs.(pc := m.regs.pc + 2);
    assert m3.state.op2 == m.mem(m.regs.pc + 1);
  }

  /** Zero page: one operand byte, then the access at that byte on page 0,
      which ends the instruction on cycle 3. */
  lemma ZeroPageRun(m: Machine, act: Action)
    requires m.state.counter == 1
    ensures var m2 := ZeroPageCycle(Ticked(m), act);
            m2.state.counter == 2 &&
            ZeroPageCycle(Ticked(m2), act) == Finished(Access(Ticked(m2), ZeroPage(m.mem(m.regs.pc)), act))
  {
    OneOperandByte(m);
  }

  /** Zero page,X: the access at (operand + X) mod 256 on page 0, which
      ends the instruction on cycle 4. */
  lemma ZeroPageXRun(m: Machine, act: Action)
    requires m.state.counter == 1
    ensures var m3 := ZeroPageXCycle(Ticked(ZeroPageXCycle(Ticked(m), act)), act);
            m3.state.counter == 3 && m3.regs == m.regs.(pc := m.regs.pc + 1) && m3.mem == m.mem &&
            ZeroPageXCycle(Ticked(m3), act) == Finished(Access(Ticked(m3), ZeroPage(m.mem(m.regs.pc) + m.regs.x), act))
  {
    OneOperandByte(m);
  }

  /** Zero page,Y: the access at (operand + Y) mod 256 on page 0, which
      ends the instruction on cycle 4. */
  lemma ZeroPageYRun(m: Machine, act: Action)
    requires m.state.counter == 1
    ensures var m3 := ZeroPageYCycle(Ticked(ZeroPageYCycle(Ticked(m), act)), act);
            m3.state.counter == 3 && m3.regs == m.regs.(pc := m.regs.pc + 1) && m3.mem == m.mem &&
            ZeroPageYCycle(Ticked(m3), act) == Finished(Access(Ticked(m3), ZeroPage(m.mem(m.regs.pc) + m.regs.y), act))
  {
    OneOperandByte(m);
  }

  /** Absolute: low byte then high byte, then the access at high:low, which
      ends the instruction on cycle 4. */
  lemma AbsoluteRun(m: Machine, act: Action)
    requires m.state.counter == 1
    ensures var m3 := AbsoluteCycle(Ticked(AbsoluteCycle(Ticked(m), act)), act);
            m3.state.counter == 3 && m3.regs == m.regs.(pc := m.regs.pc + 2) && m3.mem == m.mem &&
            AbsoluteCycle(Ticked(m3), act) ==
              Finished(Access(Ticked(m3), MakeAddr(m.mem(m.regs.pc + 1), m.mem(m.regs.pc)), act))
  {
    assert AbsoluteCycle(Ticked(AbsoluteCycle(Ticked(m), act)), act) == FetchOp2(Ticked(FetchOp1(Ticked(m))));
    TwoOperandBytes(m);
  }

  /** The operand cycles of absolute,X and absolute,Y are those of absolute. */
  lemma AbsoluteIndexedOperands(m: Machine, act: Action)
    requires m.state.counter == 1
    ensures AbsoluteXCycle(Ticked(AbsoluteXCycle(Ticked(m), act)), act) == FetchOp2(Ticked(FetchOp1(Ticked(m))))
    ensures AbsoluteYCycle(Ticked(AbsoluteYCycle(Ticked(m), act)), act) == FetchOp2(Ticked(FetchOp1(Ticked(m))))
  {
  }

  /** Absolute,X, cycle 4: the access at (op_2:op_1 + X) mod 65536; the
      instruction ends here when op_1 plus X (X as the action left it)
      stays within a byte, and otherwise only after the next cycle. */
  lemma AbsoluteXAccessCycle(m: Machine, act: Action)
    requires m.state.counter == 3 && KeepsScratch(act)
    ensures var accessed := Access(Ticked(m), MakeAddr(m.state.op2, m.state.op1) + (m.regs.x as bv16), act);
            var m4 := AbsoluteXCycle(Ticked(m), act);
            (NoPageCross(m.state.op1, accessed.regs.x) ==> m4 == Finished(accessed)) &&
            (!NoPageCross(m.state.op1, accessed.regs.x) ==>
               m4 == accessed && m4.state.counter == 4 && AbsoluteXCycle(Ticked(m4), act) == Finished(Ticked(m4)))
  {
    var accessed := Access(Ticked(m), MakeAddr(m.state.op2, m.state.op1) + (m.regs.x as bv16), act);
    AccessKeepsScratch(Ticked(m), MakeAddr(m.state.op2, m.state.op1) + (m.regs.x as bv16), act);
    assert accessed.state == Ticked(m).state;
    assert AbsoluteXCycle(Ticked(m), act) == IndexedAccessX(Ticked(m), m.state.op2, m.state.op1, act);
  }

  /** Absolute,Y, cycle 4: the same with Y. */
  lemma AbsoluteYAccessCycle(m: Machine, act: Action)
    requires m.state.counter == 3 && KeepsScratch(act)
    ensures var accessed := Access(Ticked(m), MakeAddr(m.state.op2, m.state.op1) + (m.regs.y as bv16), act);
            var m4 := AbsoluteYCycle(Ticked(m), act);
            (NoPageCross(m.state.op1, accessed.regs.y) ==> m4 == Finished(accessed)) &&
            (!NoPageCross(m.state.op1, accessed.regs.y) ==>
               m4 == accessed && m4.state.counter == 4 && AbsoluteYCycle(Ticked(m4), act) == Finished(Ticked(m4)))
  {
    var accessed := Access(Ticked(m), MakeAddr(m.state.op2, m.state.op1) + (m.regs.y as bv16), act);
    AccessKeepsScratch(Ticked(m), MakeAddr(m.state.op2, m.state.op1) + (m.regs.y as bv16), act);
    assert accessed.state == Ticked(m).state;
    assert AbsoluteYCycle(Ticked(m), act) == IndexedAccessY(Ticked(m), m.state.op2, m.state.op1, act);
  }

  /** (Indirect),Y, cycles 2-4: `op_2` and `op_1` hold the low and high
      bytes of the indirect address stored at the operand's cell and at the next
      cell of page 0. */
  lemma IndirectYOperands(m: Machine, act: Action)
    requires m.state.counter == 1
    ensures var ptr := m.mem(m.regs.pc);
            var m4 := IndirectYCycle(Ticked(IndirectYCycle(Ticked(IndirectYCycle(Ticked(m), act)), act)), act);
            m4.state.counter == 4 && m4.regs == m.regs.(pc := m.regs.pc + 1) && m4.mem == m.mem &&
            m4.state.op2 == m.mem(ZeroPage(ptr)) && m4.state.op1 == m.mem(ZeroPage(ptr + 1))
  {
    OneOperandByte(m);
  }

  /** (Indirect),Y, cycle 5: the access at (op_1:op_2 + Y) mod 65536; the
      instruction ends here unless op_2 plus Y (Y as the action left it)
      leaves the byte, and otherwise only after the next cycle. */
  lemma IndirectYAccessCycle(m: Machine, act: Action)
    requires m.state.counter == 4 && KeepsScratch(act)
    ensures var accessed := Access(Ticked(m), MakeAddr(m.state.op1, m.state.op2) + (m.regs.y as bv16), act);
            var m5 := IndirectYCycle(Ticked(m), act);
            (NoPageCross(m.state.op2, accessed.regs.y) ==> m5 == Finished(accessed)) &&
            (!NoPageCross(m.state.op2, accessed.regs.y) ==>
               m5 == accessed && m5.state.counter == 5 && IndirectYCycle(Ticked(m5), act) == Finished(Ticked(m5)))
  {
    var accessed := Access(Ticked(m), MakeAddr(m.state.op1, m.state.op2) + (m.regs.y as bv16), act);
    AccessKeepsScratch(Ticked(m), MakeAddr(m.state.op1, m.state.op2) + (m.regs.y as bv16), act);
    assert accessed.state == Ticked(m).state;
    assert IndirectYCycle(Ticked(m), act) == IndexedAccessY(Ticked(m), m.state.op1, m.state.op2, act);
  }

  /** (Indirect,X) as written, cycles 2-5: the byte at (operand + X) mod
      256 is itself used as a zero-page pointer; `op_1` and `op_2` end up
      holding the bytes at that pointer and at the next cell of page 0.
      Every read is below 0x100. */
  lemma IndirectXOperands(m: Machine, act: Action)
    requires m.state.counter == 1
    ensures var ptr := m.mem(ZeroPage(m.mem(m.regs.pc) + m.regs.x));
            var low := m.mem(ZeroPage(ptr));
            var m5 := IndirectXCycle(Ticked(IndirectXCycle(Ticked(IndirectXCycle(Ticked(
                        IndirectXCycle(Ticked(m), act)), act)), act)), act);
            m5.state.counter == 5 && m5.regs == m.regs.(pc := m.regs.pc + 1) && m5.mem == m.mem &&
            m5.state.op1 == low && m5.state.op2 == m.mem(ZeroPage(low + 1))
  {
    OneOperandByte(m);
    var m2 := IndirectXCycle(Ticked(m), act);
    var m3 := IndirectXCycle(Ticked(m2), act);
    var m4 := IndirectXCycle(Ticked(m3), act);
    var m5 := IndirectXCycle(Ticked(m4), act);
    assert m5.regs == m.regs.(pc := m.regs.pc + 1);
  }

  /** (Indirect,X), cycle 6: the access at op_2:op_1, which ends the
      instruction. */
  lemma IndirectXAccessCycle(m: Machine, act: Action)
    requires m.state.counter == 5
    ensures IndirectXCycle(Ticked(m), act) == Finished(Access(Ticked(m), MakeAddr(m.state.op2, m.state.op1), act))
  {
  }
}
