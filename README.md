# fami-rust CPU core and ROM loader, in Dafny

This project models the core of `fami-rust`, an NES (Famicom) emulator written in Rust:

- **The 6502 CPU, cycle by cycle.**
  - The register file and its flag arithmetic: `flags_on`/`flags_off`, the N/Z updates, `add_with_carry`, ADC, SBC and CMP.
  - The `Cpu` object: power-on, reset, fetch, the stack helpers, interrupt polling and `step`.
  - The seven-cycle interrupt sequence (`int_step`) and the instruction step (`exec_step`).
  - The addressing-mode routines of `executer.rs`. Each one is a small state machine keyed on the cycle counter. It fetches operand bytes, forms the effective address and either hands the byte there to the instruction's action or stores the action's result there.
  - The actions of group 1 (ORA … LDX) and group 3 (stack, transfers, increments, flag instructions, JSR/RTI/RTS/NOP).
  - The older copies of the actions that are still in `executer.rs`.
- **The instruction descriptor table.** It has 256 entries, each built from a template (routine, cycle budget, mode tag) and a core (mnemonic, action, destination).
- **The three-tier opcode decoder.**
- **`make_addr` and the error type of `util.rs`.**
- **The three memory controllers.** Each is a flat buffer with a raw block write.
- **The iNES / NES 2.0 header parser of `rom.rs`.** It turns a file image into a `NesRom`, or into an error.

Modules follow the source files:

| module | source file |
|---|---|
| `Util` | `src/nes/util.rs` |
| `Cpu` | `src/nes/cpu.rs` |
| `CpuState` | `src/nes/cpu/cpu_state.rs` |
| `ExecuterTypes`, `ExecuterRoutines`, `ExecuterActions` | `src/nes/cpu/executer.rs` |
| `ExecCoreG1` | `src/nes/cpu/exec_core_g1.rs` |
| `ExecCoreG3` | `src/nes/cpu/exec_core_g3.rs` |
| `IsTemplate` | `src/nes/cpu/is_template.rs` |
| `IsCore` | `src/nes/cpu/is_core.rs` |
| `Instruction` | `src/nes/cpu/instruction.rs` |
| `Decoder` | `src/nes/cpu/decoder.rs` |
| `Mem` | `src/nes/mem.rs` |
| `Vram` | `src/nes/vram.rs` |
| `PpuVram` | `src/nes/ppu/vram.rs` |
| `Rom` | `src/nes/rom.rs` |

**The two forms of the code.**
- The source updates the `Registers` and `Cpu` objects in place. These are Dafny classes whose methods carry `modifies` clauses.
- Each method is proved against a function on the whole state (`Regs`, `Machine`). For example, `AAdd` ensures `View() == AddResult(old(View()), val)`.
- The lemmas then state the source's promises about those functions: carry and overflow, the stack round trip, interrupt priority, page-cross timing.
- The decoder, the descriptor tables and the ROM parser are pure. They are datatypes and functions.

**What the CPU model assumes.**
- Memory is one flat 64 KiB function from address to byte.
- Code the model does not include arrives as a parameter, `ExecuterRoutines.Externals`. This covers the decoder entry `fetch_and_decode`, the group 2 actions, and the routines of the jump, branch, stack and read-modify-write templates.
- Arithmetic follows the release build: `u8`/`u16` arithmetic wraps, as Rust's release profile does.

## Model

| member | source | states |
|---|---|---|
| Util.Display | src/nes/util.rs:10-16 | An error displays as exactly its message. |
| Util.MakeAddr | src/nes/util.rs:27-29 | The high byte of the result is `high` and the low byte is `low`. |
| Util.MakeAddrOnto | src/nes/util.rs:27-29 | Every 16-bit address is `make_addr` of its own high and low bytes. |
| Util.MakeAddrInjective | src/nes/util.rs:27-29 | Two byte pairs give the same address only if they are the same pair. |
| Util.MakeAddrZeroPage | src/nes/util.rs:27-29 | With high byte 0 the address is the low byte, below 0x100. |
| Cpu.SetFlagsSpec | src/nes/cpu.rs:101-103 | `flags_on` sets exactly the given bits of P and keeps every other bit. |
| Cpu.ClearFlagsSpec | src/nes/cpu.rs:105-107 | `flags_off` clears exactly the given bits of P and keeps every other bit. |
| Cpu.SetFlags | src/nes/cpu.rs:101-103 | `flags_on` on the status byte; `Cpu.SetFlagsSpec` proves exactly the given bits become 1 and every other bit is kept. |
| Cpu.ClearFlags | src/nes/cpu.rs:105-107 | `flags_off` on the status byte; `Cpu.ClearFlagsSpec` proves exactly the given bits become 0 and every other bit is kept. |
| Cpu.NegativeFrom | src/nes/cpu.rs:110-113 | N becomes bit 7 of the value; the other seven bits of P are kept. |
| Cpu.ZeroFrom | src/nes/cpu.rs:116-119 | Z is set iff the value is 0; the other seven bits of P are kept. |
| Cpu.NZFrom | src/nes/cpu.rs:110-119 | N from bit 7 and Z from zero, both at once; the other six bits are kept. |
| Cpu.AddWithCarry | src/nes/cpu.rs:121-135 | The carry out is set iff the 8-bit sum wrapped: below `val1`, or equal to it with a carry in. |
| Cpu.AddWithCarrySum | src/nes/cpu.rs:121-135 | The 16-bit sum `val1 + val2 + carry` equals the low byte plus 0x100 exactly when the carry is returned. |
| Cpu.WithCarry | src/nes/cpu.rs:137-158 | C takes the given value; every other bit of P is kept. |
| Cpu.WithOverflow | src/nes/cpu.rs:137-158 | V takes the given value; every other bit of P is kept. |
| Cpu.Overflowed | src/nes/cpu.rs:147-151 | The `(A^r)&(val^r)&0x80` test holds iff both operands have the same sign and the result's sign differs. |
| Cpu.AddResult | src/nes/cpu.rs:137-158 | ADC: A becomes A + val + C (mod 256); X, Y, S and PC are kept. |
| Cpu.AdcCarryOverflow | src/nes/cpu.rs:137-158 | ADC sets C iff the true sum exceeds 0xFF, and V iff signed overflow occurred. |
| Cpu.AdcFlags | src/nes/cpu.rs:137-158 | ADC sets N and Z from the new A and keeps I, D, B and the reserved bit. |
| Cpu.AddComplement | src/nes/cpu.rs:160-176 | Adding `!val` with carry c is subtracting val and the borrow; its carry out is "no borrow". |
| Cpu.SubResult | src/nes/cpu.rs:160-176 | SBC (`a_add(!val)`): A becomes A − val − (1 − C) mod 256; other registers are kept. |
| Cpu.SbcCarryOverflow | src/nes/cpu.rs:160-176 | SBC sets C iff no borrow was needed, and V iff the signed subtraction overflowed. |
| Cpu.SbcFlags | src/nes/cpu.rs:160-176 | SBC sets N/Z from the new A and keeps I, D, B and the reserved bit. |
| Cpu.AddNegation | src/nes/cpu.rs:178-189 | Adding `wrapping_neg(val)` gives A − val; it carries out iff val ≠ 0 and A ≥ val. |
| Cpu.CmpResult | src/nes/cpu.rs:178-189 | CMP changes only P: A, X, Y, S and PC are kept. |
| Cpu.CmpZero | src/nes/cpu.rs:178-189 | CMP sets Z iff A equals the operand. |
| Cpu.CmpNegative | src/nes/cpu.rs:178-189 | CMP sets N to bit 7 of A − val (mod 256). |
| Cpu.CmpCarry | src/nes/cpu.rs:178-189 | CMP sets C iff val ≠ 0 and A ≥ val. |
| Cpu.CmpKeepsFlags | src/nes/cpu.rs:178-189 | CMP keeps I, D, B, the reserved bit and V. |
| Cpu.CmpCarryQuirk | src/nes/cpu.rs:181 | CMP's carry agrees with "A ≥ operand" exactly when the operand is not 0. |
| Cpu.WithA | src/nes/cpu/exec_core_g1.rs:17-18 | `a_set`: A := val, N/Z from val, every other register and bit kept. |
| Cpu.WithX | src/nes/cpu/exec_core_g1.rs:120-131 | `x_set`: X := val, N/Z from val, every other register and bit kept. |
| Cpu.Registers.constructor | src/nes/cpu.rs:80-94 | A fresh register file holds the default values. |
| Cpu.Registers.IntDisabled | src/nes/cpu.rs:97-99 | True iff the I bit is set. |
| Cpu.Registers.FlagsOn | src/nes/cpu.rs:101-103 | P gets the given bits set; nothing else changes. |
| Cpu.Registers.FlagsOff | src/nes/cpu.rs:105-107 | P gets the given bits cleared; nothing else changes. |
| Cpu.Registers.ChangeNegativeByValue | src/nes/cpu.rs:110-113 | Only N changes, to bit 7 of the value. |
| Cpu.Registers.ChangeZeroByValue | src/nes/cpu.rs:116-119 | Only Z changes, to "value is zero". |
| Cpu.Registers.AAdd | src/nes/cpu.rs:137-158 | The register file becomes `AddResult` of the old one. |
| Cpu.Registers.ASub | src/nes/cpu.rs:160-176 | The register file becomes `SubResult` of the old one. |
| Cpu.Registers.ACmp | src/nes/cpu.rs:178-189 | The register file becomes `CmpResult` of the old one. |
| Cpu.Registers.ASet | src/nes/cpu/exec_core_g1.rs:17-18 | The register file becomes `WithA` of the old one. |
| Cpu.Registers.XSet | src/nes/cpu/exec_core_g1.rs:120-131 | The register file becomes `WithX` of the old one. |
| Cpu.Store | src/nes/cpu.rs:52-78 | A memory write changes the byte at its address and no other. |
| Cpu.FetchNext | src/nes/cpu.rs:302-307 | `fetch` returns the byte at PC and advances PC by one (wrapping); nothing else changes. |
| Cpu.StackAddr | src/nes/cpu.rs:23 | Every stack slot `0x0100 \| S` lies in 0x0100–0x01FF, with low byte S. |
| Cpu.StackPush | src/nes/cpu.rs:357-375 | `push_stack` writes the byte at `0x0100 \| S`, leaves every other address alone, and decrements S. |
| Cpu.StackPull | src/nes/cpu.rs:378-389 | `pull_stack` increments S first, then reads `0x0100 \| S`. |
| Cpu.PushPullRoundTrip | src/nes/cpu.rs:357-396 | A pull right after a push returns the pushed byte and restores S. |
| Cpu.PushTwicePullTwice | src/nes/cpu.rs:357-396 | Two pushes use adjacent slots, and two pulls return the bytes in reverse order. |
| Cpu.StackTop | src/nes/cpu.rs:392-396 | `peek_stack`: the byte at `0x0100 \| S`; `Cpu.Cpu.PeekStack` returns it, and PLP/PLA read it (`ExecCoreG3.CallStackOp`). |
| Cpu.Ticked | src/nes/cpu.rs:274-281 | Each `step` advances the clock and the cycle counter by one. |
| Cpu.IntChecked | src/nes/cpu.rs:283-292 | `check_int` enters the interrupt state iff polling is on and a reset/NMI, or an IRQ with I clear, is pending; otherwise nothing changes. |
| Cpu.IrqMaskedWhileDisabled | src/nes/cpu.rs:283-292 | A lone IRQ is ignored while I is set. |
| Cpu.TriggersCleared | src/nes/cpu.rs:294-299 | `clear_all_int_trigger`: all four lines low; `Cpu.Cpu.ClearAllIntTrigger` is proved against it, and `CpuState.InterruptEntry` shows cycle 1 of an interrupt ends with every line low. |
| Cpu.IntStateEntered | src/nes/cpu.rs:309-312 | `switch_state_int`: fresh scratch state, `int_step` next; `Cpu.IntChecked` states when `check_int` enters it. |
| Cpu.ExecStateEntered | src/nes/cpu.rs:314-317 | `switch_state_exec`: fresh scratch state, `exec_step` next; `CpuState.InterruptVector` shows the interrupt sequence ends in it. |
| Cpu.Finished | src/nes/cpu.rs:319-322 | `exec_finished`: fresh scratch state (counter 0) and polling on; the run lemmas of the addressing routines (`ExecuterRoutines.ZeroPageRun` … `IndirectXAccessCycle`) show at which counter each routine reaches it. |
| Cpu.PowerOnMemory | src/nes/cpu.rs:240-265 | Power-on zeroes the APU registers and work RAM and keeps every other byte. |
| Cpu.PoweredOn | src/nes/cpu.rs:240-265 | Power-on: A=X=Y=0, S=0xFD, I/B/reserved on, RAM 0x0000–0x07FF and the APU registers zeroed, only the reset line raised, interrupt state entered. |
| Cpu.ResetRegs | src/nes/cpu.rs:267-271 | `reset` lowers S by 3 (wrapping) and sets I; A, X, Y, PC and the other flags are kept. |
| Cpu.Cpu.constructor | src/nes/cpu.rs:203-237 | `Cpu::new`: the given memory, default registers, all lines low, polling off, interrupt sequence (`int_step`) next. |
| Cpu.Cpu.Write | src/nes/cpu.rs:52-78 | Only the byte at the address changes. |
| Cpu.Cpu.Fetch | src/nes/cpu.rs:302-307 | The CPU state and the byte returned are those of `FetchNext`. |
| Cpu.Cpu.PowerOn | src/nes/cpu.rs:240-265 | The CPU state becomes `PoweredOn` of the old one. |
| Cpu.Cpu.Reset | src/nes/cpu.rs:267-271 | Only the registers change, to `ResetRegs` of the old ones. |
| Cpu.Cpu.CheckInt | src/nes/cpu.rs:283-292 | The CPU state becomes `IntChecked` of the old one. |
| Cpu.Cpu.ClearAllIntTrigger | src/nes/cpu.rs:294-299 | All four interrupt lines are lowered; nothing else changes. |
| Cpu.Cpu.SwitchStateInt | src/nes/cpu.rs:309-312 | Fresh scratch state; the interrupt sequence runs next. |
| Cpu.Cpu.SwitchStateExec | src/nes/cpu.rs:314-317 | Fresh scratch state; instruction execution runs next. |
| Cpu.Cpu.ExecFinished | src/nes/cpu.rs:319-322 | Fresh scratch state, and polling is back on. |
| Cpu.Cpu.PushStack | src/nes/cpu.rs:357-360 | The CPU state becomes `StackPush` of the old one. |
| Cpu.Cpu.DecStack | src/nes/cpu.rs:364-369 | S moves down one slot (wrapping); nothing else changes. |
| Cpu.Cpu.SetToStack | src/nes/cpu.rs:372-375 | Stores at `0x0100 \| S` without moving S. |
| Cpu.Cpu.PullStack | src/nes/cpu.rs:378-381 | The CPU state and the byte returned are those of `StackPull`. |
| Cpu.Cpu.IncStack | src/nes/cpu.rs:384-389 | S moves up one slot (wrapping); nothing else changes. |
| Cpu.Cpu.PeekStack | src/nes/cpu.rs:392-396 | Returns the byte at `0x0100 \| S`, changing nothing. |
| CpuState.ChosenInt | src/nes/cpu/cpu_state.rs:62-74 | The recorded interrupt kind has priority reset > NMI > IRQ/BRK; with no line raised, the old kind stays. |
| CpuState.PushedStatus | src/nes/cpu/cpu_state.rs:95-101 | The pushed status is P with B set for BRK only; all other bits are P's. |
| CpuState.VectorOf | src/nes/cpu/cpu_state.rs:106-111 | Reset uses 0xFFFC, NMI uses 0xFFFA, and IRQ/BRK use 0xFFFE. |
| CpuState.IntSelect | src/nes/cpu/cpu_state.rs:53-79 | Cycle 1 of `int_step`; `CpuState.InterruptEntry` states its effect. |
| CpuState.IntBrkSkip | src/nes/cpu/cpu_state.rs:80-85 | Cycle 2 of `int_step`; `CpuState.BrkSkipsPadding` states that only BRK advances PC. |
| CpuState.IntPush | src/nes/cpu/cpu_state.rs:87-101 | Cycles 3–5 of `int_step`; `CpuState.PushCycle`, `CpuState.InterruptPushes` and `CpuState.ResetSkipsPushes` state what lands where. |
| CpuState.IntJump | src/nes/cpu/cpu_state.rs:103-119 | Cycle 7 of `int_step`; `CpuState.InterruptVector` states the jump through the vector and the return to executing. |
| CpuState.IntCycle | src/nes/cpu/cpu_state.rs:51-122 | `int_step`, one cycle per counter value 1–7; the lemmas of cycles 1–7 above characterise it, and `CpuState.IntStepRun` is proved against it. |
| CpuState.ExecCycle | src/nes/cpu/cpu_state.rs:34-48 | `exec_step`: the decoder on cycle 1, the routine in flight after that; `CpuState.ExecStepRun` is proved against it, and `CpuState.DummyRoutineNeverFinishes` and the routine run lemmas characterise it. |
| CpuState.StepCycle | src/nes/cpu.rs:274-281 | `step`: tick, the routine `fn_step` names, then `check_int`; `CpuState.Step` is proved against it, and `CpuState.QuietStep` and `CpuState.DummyRoutineWraps` characterise it. |
| CpuState.InterruptEntry | src/nes/cpu/cpu_state.rs:53-79 | Cycle 1: polling stops, I is set, the kind is recorded by priority, and every line is cleared. |
| CpuState.BrkSkipsPadding | src/nes/cpu/cpu_state.rs:80-85 | Cycle 2: PC advances by one for BRK only. |
| CpuState.QuietStep | src/nes/cpu.rs:274-281 | With polling off, a `step` in the interrupt state is exactly one `int_step` cycle. |
| CpuState.PushCycle | src/nes/cpu/cpu_state.rs:87-101 | Cycles 3–5 of a non-reset interrupt each push one byte and move S down. |
| CpuState.StackSlotsDistinct | src/nes/cpu/cpu_state.rs:87-101 | Three consecutive stack slots are three different addresses. |
| CpuState.InterruptPushes | src/nes/cpu/cpu_state.rs:87-101 | After cycles 3–5 of NMI/IRQ/BRK, PC high, PC low and the status sit in slots S, S−1, S−2, and S has dropped by 3. |
| CpuState.ResetSkipsPushes | src/nes/cpu/cpu_state.rs:86-101 | During a reset, cycles 3–5 touch neither memory nor S. |
| CpuState.InterruptVector | src/nes/cpu/cpu_state.rs:102-119 | After cycles 6–7, PC holds the address stored at the kind's vector (low byte first) and the CPU is back in the executing state. |
| CpuState.DummyRoutineNeverFinishes | src/nes/cpu/cpu_state.rs:34-48 | Once past the opcode cycle, the default (dummy) executer only advances the `u8` counter (wrapping at 256); its routine never finishes the instruction. |
| CpuState.DummyRoutineWraps | src/nes/cpu.rs:274-278 | At counter 255 the `u8` counter wraps to 0 (release build), and the step after that is cycle 1 again, where `exec_step` calls the decoder. |
| CpuState.IntStepRun | src/nes/cpu/cpu_state.rs:51-122 | The CPU state becomes `IntCycle` of the old one. |
| CpuState.IntSelectRun | src/nes/cpu/cpu_state.rs:53-79 | Cycle 1 on the CPU object, as `IntSelect`. |
| CpuState.IntBrkSkipRun | src/nes/cpu/cpu_state.rs:80-85 | Cycle 2 on the CPU object. |
| CpuState.IntPushHighRun | src/nes/cpu/cpu_state.rs:87-89 | Cycle 3 on the CPU object. |
| CpuState.IntPushLowRun | src/nes/cpu/cpu_state.rs:91-93 | Cycle 4 on the CPU object. |
| CpuState.IntPushStatusRun | src/nes/cpu/cpu_state.rs:95-101 | Cycle 5 on the CPU object. |
| CpuState.IntJumpRun | src/nes/cpu/cpu_state.rs:103-119 | Cycle 7 on the CPU object, as `IntJump`. |
| CpuState.ExecStepRun | src/nes/cpu/cpu_state.rs:34-48 | The CPU state becomes `ExecCycle` of the old one. |
| CpuState.Step | src/nes/cpu.rs:274-281 | The CPU state becomes `StepCycle` of the old one: tick, the routine `fn_step` names, then `check_int`. |
| ExecCoreG1.GroupOneEffect | src/nes/cpu/exec_core_g1.rs:20-131 | Group 1 actions keep Y, S and PC; only LDX changes X; STA returns A and changes nothing; every other action returns 0. |
| ExecCoreG1.CallGroupOne | src/nes/cpu/exec_core_g1.rs:20-131 | Only the registers change, as `GroupOneEffect`. |
| ExecCoreG1.GroupOneCall | src/nes/cpu/exec_core_g1.rs:20-131 | A group 1 action on the whole CPU state; `ExecCoreG1.GroupOneEffect` states its effect and `ExecCoreG1.CallGroupOne` is proved against it. |
| ExecCoreG1.OraAction | src/nes/cpu/exec_core_g1.rs:20-24 | A := A \| val with N/Z from it; returns 0. |
| ExecCoreG1.AndAction | src/nes/cpu/exec_core_g1.rs:33-37 | A := A & val with N/Z from it; returns 0. |
| ExecCoreG1.EorAction | src/nes/cpu/exec_core_g1.rs:46-50 | A := A ^ val with N/Z from it; returns 0. |
| ExecCoreG1.AdcAction | src/nes/cpu/exec_core_g1.rs:59-63 | Exactly `a_add(val)`; returns 0. |
| ExecCoreG1.StaAction | src/nes/cpu/exec_core_g1.rs:72-75 | Returns A and changes no register. |
| ExecCoreG1.LdaAction | src/nes/cpu/exec_core_g1.rs:84-88 | A := val with N/Z from it; returns 0. |
| ExecCoreG1.CmpAction | src/nes/cpu/exec_core_g1.rs:91-105 | Exactly `a_cmp(val)` (A unchanged); returns 0. |
| ExecCoreG1.SbcAction | src/nes/cpu/exec_core_g1.rs:114-118 | Exactly `a_sub(val)`; returns 0. |
| ExecCoreG1.LdxAction | src/nes/cpu/exec_core_g1.rs:127-131 | X := val with N/Z from it; returns 0. |
| ExecCoreG3.FlagEffectSpec | src/nes/cpu/exec_core_g3.rs:176-275 | Each flag instruction gives its own bit the value it names and keeps the other seven bits. |
| ExecCoreG3.TransferEffectFrame | src/nes/cpu/exec_core_g3.rs:228-335 | Transfers keep PC, and only TXS moves S. |
| ExecCoreG3.CountEffectFrame | src/nes/cpu/exec_core_g3.rs:116-167 | Increments and decrements keep S, A and PC. |
| ExecCoreG3.GroupThreeFrame | src/nes/cpu/exec_core_g3.rs:20-362 | Group 3 actions change only registers and memory; only PHP/PHA write memory, one byte on the stack page. |
| ExecCoreG3.CallStackOp | src/nes/cpu/exec_core_g3.rs:60-107 | PHP/PHA push; PLP/PLA read the top slot without moving S; returns 0. |
| ExecCoreG3.StackEffect | src/nes/cpu/exec_core_g3.rs:60-113 | PHP/PLP/PHA/PLA; `ExecCoreG3.CallStackOp` and `ExecCoreG3.GroupThreeFrame` state what they write and read. |
| ExecCoreG3.TransferEffect | src/nes/cpu/exec_core_g3.rs:131-143 | The transfers (TAY, TYA, TXA, TXS, TAX, TSX, lines 131-143 and 228-335); `ExecCoreG3.TransferEffectFrame` and `ExecuterActions.TransferCopiesAgree` characterise it. |
| ExecCoreG3.CountEffect | src/nes/cpu/exec_core_g3.rs:116-172 | DEY, INY, INX (and DEX, lines 344-350); `ExecCoreG3.CountEffectFrame` and `ExecuterActions.CountCopiesAgree` characterise it. |
| ExecCoreG3.FlagEffect | src/nes/cpu/exec_core_g3.rs:176-275 | The flag instructions; `ExecCoreG3.FlagEffectSpec` proves each sets or clears its own bit and keeps the other seven. |
| ExecCoreG3.GroupThreeEffect | src/nes/cpu/exec_core_g3.rs:20-362 | Every group 3 action; `ExecCoreG3.GroupThreeFrame` states its frame and `ExecCoreG3.CallGroupThree` is proved against it. |
| ExecCoreG3.CallTransfer | src/nes/cpu/exec_core_g3.rs:228-335 | The registers become `TransferEffect` of the old ones; returns 0. |
| ExecCoreG3.CallCount | src/nes/cpu/exec_core_g3.rs:116-167 | The registers become `CountEffect` of the old ones; returns 0. |
| ExecCoreG3.CallFlagOp | src/nes/cpu/exec_core_g3.rs:176-275 | Only P changes, as `FlagEffect`; returns 0. |
| ExecCoreG3.CallGroupThree | src/nes/cpu/exec_core_g3.rs:20-362 | The state becomes `GroupThreeEffect`; every group 3 action returns 0. |
| ExecCoreG3.JsrAction | src/nes/cpu/exec_core_g3.rs:20-24 | Changes nothing and returns 0. |
| ExecCoreG3.RtiAction | src/nes/cpu/exec_core_g3.rs:33-37 | Changes nothing and returns 0. |
| ExecCoreG3.RtsAction | src/nes/cpu/exec_core_g3.rs:47-51 | Changes nothing and returns 0. |
| ExecCoreG3.PhpAction | src/nes/cpu/exec_core_g3.rs:60-64 | Pushes P (store at `0x0100 \| S`, S − 1). |
| ExecCoreG3.PlpAction | src/nes/cpu/exec_core_g3.rs:74-78 | P := byte at `0x0100 \| S`; S is not moved. |
| ExecCoreG3.PhaAction | src/nes/cpu/exec_core_g3.rs:87-91 | Pushes A. |
| ExecCoreG3.PlaAction | src/nes/cpu/exec_core_g3.rs:101-107 | A := byte at `0x0100 \| S` with N/Z from it; S is not moved. |
| ExecCoreG3.DeyAction | src/nes/cpu/exec_core_g3.rs:116-122 | Y := Y − 1 (wrapping), with N/Z from the new Y. |
| ExecCoreG3.TayAction | src/nes/cpu/exec_core_g3.rs:131-137 | Y := A, with N/Z from it. |
| ExecCoreG3.InyAction | src/nes/cpu/exec_core_g3.rs:146-152 | As written: X := Y + 1 and Y is unchanged, with N/Z from the old Y. |
| ExecCoreG3.InxAction | src/nes/cpu/exec_core_g3.rs:161-167 | X := X + 1 (wrapping), with N/Z from the new X. |
| ExecCoreG3.ClcAction | src/nes/cpu/exec_core_g3.rs:176-180 | Clears C only. |
| ExecCoreG3.SecAction | src/nes/cpu/exec_core_g3.rs:189-193 | Sets C only. |
| ExecCoreG3.CliAction | src/nes/cpu/exec_core_g3.rs:202-206 | Clears I only. |
| ExecCoreG3.SeiAction | src/nes/cpu/exec_core_g3.rs:215-219 | Sets I only. |
| ExecCoreG3.TyaAction | src/nes/cpu/exec_core_g3.rs:228-236 | A := Y, with N/Z from it. |
| ExecCoreG3.ClvAction | src/nes/cpu/exec_core_g3.rs:245-249 | Clears V only. |
| ExecCoreG3.CldAction | src/nes/cpu/exec_core_g3.rs:258-262 | Clears D only. |
| ExecCoreG3.SedAction | src/nes/cpu/exec_core_g3.rs:271-275 | Sets D only. |
| ExecCoreG3.TxaAction | src/nes/cpu/exec_core_g3.rs:284-292 | A := X, with N/Z from it. |
| ExecCoreG3.TxsAction | src/nes/cpu/exec_core_g3.rs:301-305 | S := X; no flag changes. |
| ExecCoreG3.TaxAction | src/nes/cpu/exec_core_g3.rs:314-320 | X := A, with N/Z from it. |
| ExecCoreG3.TsxAction | src/nes/cpu/exec_core_g3.rs:329-335 | X := S, with N/Z from it. |
| ExecCoreG3.DexAction | src/nes/cpu/exec_core_g3.rs:344-350 | X := X − 1 (wrapping), with N/Z from the new X. |
| ExecCoreG3.NopAction | src/nes/cpu/exec_core_g3.rs:359-362 | Changes nothing and returns 0. |
| ExecuterRoutines.CoreEffect | src/nes/cpu/executer.rs:43-44 | An action changes only registers and memory; only PHP/PHA write memory; STA returns A unchanged; the other dummy, group 1 and group 3 actions return 0. |
| ExecuterRoutines.CallCore | src/nes/cpu/executer.rs:25-29 | Calling `fn_core` has the effect `CoreEffect` names. |
| ExecuterRoutines.CoreActKeepsScratch | src/nes/cpu/executer.rs:25-29 | No action touches the scratch state, the lines or the clock. |
| ExecuterRoutines.ZeroPage | src/nes/cpu/executer.rs:61-77 | A zero-page address is the byte itself, below 0x100. |
| ExecuterRoutines.FetchOp1 | src/nes/cpu/executer.rs:46-59 | `op_1` gets the byte at PC and PC advances; nothing else changes. |
| ExecuterRoutines.FetchOp2 | src/nes/cpu/executer.rs:117-134 | `op_2` gets the byte at PC and PC advances; nothing else changes. |
| ExecuterRoutines.AddToOp1 | src/nes/cpu/executer.rs:79-96 | `op_1` becomes `op_1` + index, wrapping. |
| ExecuterRoutines.ReadIntoOp1 | src/nes/cpu/executer.rs:204-236 | `op_1` becomes the byte at the address. |
| ExecuterRoutines.ReadIntoOp2 | src/nes/cpu/executer.rs:204-236 | `op_2` becomes the byte at the address. |
| ExecuterRoutines.FinishIf | src/nes/cpu/executer.rs:156-178 | `exec_finished` runs iff the flag is set. |
| ExecuterRoutines.NoPageCrossMeaning | src/nes/cpu/executer.rs:171-173 | `checked_add` of the low byte and the index succeeds iff low + index ≤ 255. |
| ExecuterRoutines.Access | src/nes/cpu/executer.rs:61-77 | The access cycle every mode ends with; `ExecuterRoutines.AccessKeepsScratch`, `ExecuterRoutines.StoreAccumulator` and `ExecuterRoutines.LoadOperand` characterise it. |
| ExecuterRoutines.IndexedAccessX | src/nes/cpu/executer.rs:156-178 | The indexed access with X; `ExecuterRoutines.AbsoluteXAccessCycle` states its address and its page-cross timing. |
| ExecuterRoutines.IndexedAccessY | src/nes/cpu/executer.rs:180-202 | The indexed access with Y; `ExecuterRoutines.AbsoluteYAccessCycle` and `ExecuterRoutines.IndirectYAccessCycle` state its address and timing. |
| ExecuterRoutines.ImmediateCycle | src/nes/cpu/executer.rs:46-59 | `exec_immediate`; `ExecuterRoutines.ExecImmediate` is proved against it and `ExecuterRoutines.OneOperandByte` states its operand cycle. |
| ExecuterRoutines.ZeroPageCycle | src/nes/cpu/executer.rs:61-77 | `exec_zeropage`; `ExecuterRoutines.ZeroPageRun` characterises it. |
| ExecuterRoutines.ZeroPageXCycle | src/nes/cpu/executer.rs:79-96 | `exec_indexed_zeropage_x`; `ExecuterRoutines.ZeroPageXRun` characterises it. |
| ExecuterRoutines.ZeroPageYCycle | src/nes/cpu/executer.rs:98-115 | `exec_indexed_zeropage_y`; `ExecuterRoutines.ZeroPageYRun` characterises it. |
| ExecuterRoutines.AbsoluteCycle | src/nes/cpu/executer.rs:117-134 | `exec_absolute`; `ExecuterRoutines.AbsoluteRun` characterises it. |
| ExecuterRoutines.NoOperandCycle | src/nes/cpu/executer.rs:136-154 | `exec_accumulator` and `exec_implied`; `ExecuterRoutines.ExecNoOperand` is proved against it. |
| ExecuterRoutines.AbsoluteXCycle | src/nes/cpu/executer.rs:156-178 | `exec_indexed_absolute_x`; `ExecuterRoutines.AbsoluteIndexedOperands` and `ExecuterRoutines.AbsoluteXAccessCycle` characterise it. |
| ExecuterRoutines.AbsoluteYCycle | src/nes/cpu/executer.rs:180-202 | `exec_indexed_absolute_y`; `ExecuterRoutines.AbsoluteIndexedOperands` and `ExecuterRoutines.AbsoluteYAccessCycle` characterise it. |
| ExecuterRoutines.IndirectXCycle | src/nes/cpu/executer.rs:204-236 | `exec_indexed_indirect_x`; `ExecuterRoutines.IndirectXOperands` and `ExecuterRoutines.IndirectXAccessCycle` characterise it. |
| ExecuterRoutines.IndirectYCycle | src/nes/cpu/executer.rs:238-270 | `exec_indirect_indexed_y`; `ExecuterRoutines.IndirectYOperands` and `ExecuterRoutines.IndirectYAccessCycle` characterise it. |
| ExecuterRoutines.RoutineCycle | src/nes/cpu/cpu_state.rs:46 | The call of `fn_exec`: the dummy routine does nothing, the modelled routines run their cycle, the others go to the parameter; `ExecuterRoutines.CallExec` is proved against it. |
| ExecuterRoutines.AccessKeepsScratch | src/nes/cpu/executer.rs:46-77 | The access cycle changes only registers and memory. |
| ExecuterRoutines.StoreAccumulator | src/nes/cpu/executer.rs:61-77 | STA with Memory destination stores A at the effective address and changes nothing else. |
| ExecuterRoutines.LoadOperand | src/nes/cpu/executer.rs:61-77 | A group 1 read with Register destination passes the byte at the address to the action. |
| ExecuterRoutines.GroupOneKeepsIndex | src/nes/cpu/executer.rs:156-202 | Group 1 actions other than LDX keep X and Y, so the index is stable across the access. |
| ExecuterRoutines.AccessOperand | src/nes/cpu/executer.rs:46-77 | Runs the access cycle, as `Access`. |
| ExecuterRoutines.AccessAndFinish | src/nes/cpu/executer.rs:61-77 | The access cycle, then `exec_finished`. |
| ExecuterRoutines.IndexedAccessOperandX | src/nes/cpu/executer.rs:156-178 | The indexed access cycle with X, as `IndexedAccessX`. |
| ExecuterRoutines.IndexedAccessOperandY | src/nes/cpu/executer.rs:180-202 | The indexed access cycle with Y, as `IndexedAccessY`. |
| ExecuterRoutines.FetchIntoOp1 | src/nes/cpu/executer.rs:46-59 | As `FetchOp1`. |
| ExecuterRoutines.FetchIntoOp2 | src/nes/cpu/executer.rs:117-134 | As `FetchOp2`. |
| ExecuterRoutines.ExecImmediate | src/nes/cpu/executer.rs:46-59 | One cycle of `exec_immediate`, as `ImmediateCycle`; the Memory destination is excluded as unreachable. |
| ExecuterRoutines.ExecZeroPage | src/nes/cpu/executer.rs:61-77 | One cycle of `exec_zeropage`, as `ZeroPageCycle`. |
| ExecuterRoutines.ExecZeroPageX | src/nes/cpu/executer.rs:79-96 | One cycle of `exec_indexed_zeropage_x`. |
| ExecuterRoutines.ExecZeroPageY | src/nes/cpu/executer.rs:98-115 | One cycle of `exec_indexed_zeropage_y`. |
| ExecuterRoutines.ExecAbsolute | src/nes/cpu/executer.rs:117-134 | One cycle of `exec_absolute`. |
| ExecuterRoutines.ExecNoOperand | src/nes/cpu/executer.rs:136-154 | `exec_accumulator` and `exec_implied`: the action called with 0, then finished. |
| ExecuterRoutines.ExecAbsoluteX | src/nes/cpu/executer.rs:156-178 | One cycle of `exec_indexed_absolute_x`. |
| ExecuterRoutines.ExecAbsoluteY | src/nes/cpu/executer.rs:180-202 | One cycle of `exec_indexed_absolute_y`. |
| ExecuterRoutines.ExecIndirectX | src/nes/cpu/executer.rs:204-236 | One cycle of `exec_indexed_indirect_x`, as written. |
| ExecuterRoutines.ExecIndirectY | src/nes/cpu/executer.rs:238-270 | One cycle of `exec_indirect_indexed_y`. |
| ExecuterRoutines.IndirectXPointer | src/nes/cpu/executer.rs:207-210 | Cycle 3 of (ind,X): `op_1` becomes the byte at zero-page (`op_1` + X). |
| ExecuterRoutines.IndirectXLow | src/nes/cpu/executer.rs:211-214 | Cycle 4: `op_1` becomes the byte at zero-page `op_1`. |
| ExecuterRoutines.IndirectXHigh | src/nes/cpu/executer.rs:215-220 | Cycle 5: `op_2` becomes the byte at zero-page `op_1` + 1. |
| ExecuterRoutines.CallExec | src/nes/cpu/cpu_state.rs:46 | Calling `fn_exec` runs one cycle of the named routine, as `RoutineCycle`. |
| ExecuterRoutines.OneOperandByte | src/nes/cpu/executer.rs:46-59 | After the first operand cycle, `op_1` holds the byte after the opcode and PC has moved past it. |
| ExecuterRoutines.TwoOperandBytes | src/nes/cpu/executer.rs:117-134 | After two operand cycles, `op_1` and `op_2` hold the two bytes after the opcode. |
| ExecuterRoutines.ZeroPageRun | src/nes/cpu/executer.rs:61-77 | Zero page reads the operand, accesses page 0 at it, and finishes at counter 3. |
| ExecuterRoutines.ZeroPageXRun | src/nes/cpu/executer.rs:79-96 | Zero page,X uses address (operand + X) mod 256, always below 0x100, and is ready to access at counter 4. |
| ExecuterRoutines.ZeroPageYRun | src/nes/cpu/executer.rs:98-115 | Zero page,Y uses address (operand + Y) mod 256, always below 0x100. |
| ExecuterRoutines.AbsoluteRun | src/nes/cpu/executer.rs:117-134 | Absolute uses address op_2·256 + op_1 and finishes at counter 4. |
| ExecuterRoutines.AbsoluteIndexedOperands | src/nes/cpu/executer.rs:156-202 | The operand cycles of abs,X and abs,Y are those of absolute. |
| ExecuterRoutines.AbsoluteXAccessCycle | src/nes/cpu/executer.rs:156-178 | Abs,X accesses (base + X) mod 65536 and finishes at counter 4 iff low + X ≤ 255, otherwise at counter 5. |
| ExecuterRoutines.AbsoluteYAccessCycle | src/nes/cpu/executer.rs:180-202 | Abs,Y accesses (base + Y) mod 65536 and finishes at counter 4 iff low + Y ≤ 255, otherwise at counter 5. |
| ExecuterRoutines.IndirectYOperands | src/nes/cpu/executer.rs:238-250 | (ind),Y reads the indirect address's low byte at zero-page op and its high byte at (op + 1) mod 256. |
| ExecuterRoutines.IndirectYAccessCycle | src/nes/cpu/executer.rs:251-267 | (ind),Y accesses (pointer + Y) mod 65536 and finishes at counter 5 without a page cross, at 6 with one. |
| ExecuterRoutines.IndirectXOperands | src/nes/cpu/executer.rs:204-220 | (ind,X) as written: the byte at (op+X) mod 256 is itself used as a zero-page pointer; `op_1`/`op_2` end with the bytes at it and the next cell, all reads below 0x100, after counter 5. |
| ExecuterRoutines.IndirectXAccessCycle | src/nes/cpu/executer.rs:221-233 | (ind,X) accesses op_2:op_1 and finishes at counter 6. |
| ExecuterActions.LoadInto | src/nes/cpu/executer.rs:373-398 | Stores the value in one register and sets N/Z from it; everything else is kept. |
| ExecuterActions.LegacyEffect | src/nes/cpu/executer.rs:279-682 | The older copies of the actions; `ExecuterActions.GroupOneCopiesAgree`, `TransferCopiesAgree`, `CountCopiesAgree`, `FlagCopiesAgree`, `DeyCopiesDisagree` and `IncDecYWriteX` compare them with the newer ones. |
| ExecuterActions.LoadSetsOnlyNZ | src/nes/cpu/executer.rs:305-508 | The older ORA/AND/EOR/LDA/LDX/TAX/TAY/TXA/TYA/TSX store their value and change only N and Z. |
| ExecuterActions.TxsKeepsFlags | src/nes/cpu/executer.rs:487-491 | The older TXS copies X to S and changes no flag. |
| ExecuterActions.IncDecYWriteX | src/nes/cpu/executer.rs:551-576 | The older INY/DEY put Y ± 1 into X, leave Y unchanged, and take N/Z from the old Y. |
| ExecuterActions.DeyCopiesDisagree | src/nes/cpu/executer.rs:568-576 | The older DEY and the group 3 DEY never agree: one keeps Y, the other decrements it. |
| ExecuterActions.GroupOneCopiesAgree | src/nes/cpu/executer.rs:279-410 | The older ADC…STA copies do exactly what the group 1 actions do. |
| ExecuterActions.TransferCopiesAgree | src/nes/cpu/executer.rs:419-508 | The older transfers do exactly what the group 3 transfers do. |
| ExecuterActions.CountCopiesAgree | src/nes/cpu/executer.rs:517-542 | The older INX, DEX and INY agree with the group 3 copies. |
| ExecuterActions.FlagCopiesAgree | src/nes/cpu/executer.rs:585-667 | The older flag instructions agree with the group 3 copies. |
| ExecuterActions.AdcAction | src/nes/cpu/executer.rs:279-283 | Registers and result as `LegacyEffect(Adc)`, i.e. `a_add`. |
| ExecuterActions.SbcAction | src/nes/cpu/executer.rs:292-296 | As `LegacyEffect(Sbc)`, i.e. `a_sub`. |
| ExecuterActions.OraAction | src/nes/cpu/executer.rs:305-313 | As `LegacyEffect(Ora)`. |
| ExecuterActions.AndAction | src/nes/cpu/executer.rs:322-330 | As `LegacyEffect(And)`. |
| ExecuterActions.EorAction | src/nes/cpu/executer.rs:339-347 | As `LegacyEffect(Eor)`. |
| ExecuterActions.CmpAction | src/nes/cpu/executer.rs:360-364 | As `LegacyEffect(Cmp)`, i.e. `a_cmp`. |
| ExecuterActions.LdaAction | src/nes/cpu/executer.rs:373-381 | As `LegacyEffect(Lda)`. |
| ExecuterActions.LdxAction | src/nes/cpu/executer.rs:390-398 | As `LegacyEffect(Ldx)`. |
| ExecuterActions.StaAction | src/nes/cpu/executer.rs:407-410 | Returns A and changes nothing. |
| ExecuterActions.TaxAction | src/nes/cpu/executer.rs:419-427 | As `LegacyEffect(Tax)`. |
| ExecuterActions.TayAction | src/nes/cpu/executer.rs:436-444 | As `LegacyEffect(Tay)`. |
| ExecuterActions.TxaAction | src/nes/cpu/executer.rs:453-461 | As `LegacyEffect(Txa)`. |
| ExecuterActions.TyaAction | src/nes/cpu/executer.rs:470-478 | As `LegacyEffect(Tya)`. |
| ExecuterActions.TxsAction | src/nes/cpu/executer.rs:487-491 | As `LegacyEffect(Txs)`. |
| ExecuterActions.TsxAction | src/nes/cpu/executer.rs:500-508 | As `LegacyEffect(Tsx)`. |
| ExecuterActions.InxAction | src/nes/cpu/executer.rs:517-525 | As `LegacyEffect(Inx)`. |
| ExecuterActions.DexAction | src/nes/cpu/executer.rs:534-542 | As `LegacyEffect(Dex)`. |
| ExecuterActions.InyAction | src/nes/cpu/executer.rs:551-559 | As `LegacyEffect(Iny)`: X := Y + 1 as written. |
| ExecuterActions.DeyAction | src/nes/cpu/executer.rs:568-576 | As `LegacyEffect(Dey)`: X := Y − 1 as written. |
| ExecuterActions.SeiAction | src/nes/cpu/executer.rs:585-589 | As `LegacyEffect(Sei)`. |
| ExecuterActions.CliAction | src/nes/cpu/executer.rs:598-602 | As `LegacyEffect(Cli)`. |
| ExecuterActions.SedAction | src/nes/cpu/executer.rs:611-615 | As `LegacyEffect(Sed)`. |
| ExecuterActions.CldAction | src/nes/cpu/executer.rs:624-628 | As `LegacyEffect(Cld)`. |
| ExecuterActions.ClvAction | src/nes/cpu/executer.rs:637-641 | As `LegacyEffect(Clv)`. |
| ExecuterActions.SecAction | src/nes/cpu/executer.rs:650-654 | As `LegacyEffect(Sec)`. |
| ExecuterActions.ClcAction | src/nes/cpu/executer.rs:663-667 | As `LegacyEffect(Clc)`. |
| ExecuterActions.NopAction | src/nes/cpu/executer.rs:676-679 | Changes nothing and returns 0. |
| IsTemplate.ReadTemplateClocks | src/nes/cpu/is_template.rs:20-72 | Read templates: immediate 2, zero page 3, zp-indexed and absolute 4, abs-indexed 5, indirect 6 cycles. |
| IsTemplate.RmwTemplateClocks | src/nes/cpu/is_template.rs:74-102 | Each read-modify-write template costs its read template plus 2; accumulator costs 2. |
| IsTemplate.ControlTemplateClocks | src/nes/cpu/is_template.rs:104-159 | The cycle budgets of JMP (3/5), JSR/RTI/RTS (6), push (3), pull (4), implied (2) and relative (4). |
| IsTemplate.ZeroPageYTaggedAsX | src/nes/cpu/is_template.rs:50-60 | The zero-page,Y template runs the Y routine but carries the zero-page,X mode tag. |
| IsTemplate.DummyTemplate | src/nes/cpu/is_template.rs:14-18 | The dummy template has budget 255 and the dummy routine; every real template has budget 2–7 and a real routine. |
| IsCore.CoreOfHoldsAction | src/nes/cpu/is_core.rs:13-347 | Each core constant holds the action it is named after. |
| IsCore.CoreOf | src/nes/cpu/is_core.rs:13-347 | The core constant of each action; `IsCore.CoreOfHoldsAction`, `IsCore.MemoryDestinations` and `IsCore.CoreNames` characterise it. |
| IsCore.MemoryDestinations | src/nes/cpu/is_core.rs:43-113 | Exactly the STA, STX and INC cores have the Memory destination. |
| IsCore.CoreNames | src/nes/cpu/is_core.rs:91-95 | Every core is named by its mnemonic except LSR, which is named "ISR". |
| IsCore.BranchAndDummyCores | src/nes/cpu/is_core.rs:151-197 | The branch and dummy cores have the Register destination. |
| Instruction.NewInstructionFields | src/nes/cpu/instruction.rs:71-82 | The routine, budget and mode of a built descriptor come from the template; the name, action and destination come from the core. |
| Instruction.NewInstruction | src/nes/cpu/instruction.rs:71-83 | `new_instruction!`; `Instruction.NewInstructionFields` states where each field comes from. |
| Instruction.InstructionSet | src/nes/cpu/instruction.rs:91-348 | `INSTRUCTION_SET`; `Instruction.EntriesWellFormed`, `GroupOneComplete`, `GroupOneActions`, `GroupOneModes`, `BranchEntries`, `BrkHasNoEntry` and `LowBitsElevenHaveNoEntry` characterise it. |
| Instruction.Display | src/nes/cpu/instruction.rs:85-89 | A descriptor displays as "core (template)". |
| Instruction.DummyInstructionIsIdle | src/nes/cpu/instruction.rs:350-351 | The dummy descriptor matches the default executer and displays as "DUMMY (IS_TEMP_DUMMY)". |
| Instruction.BrkHasNoEntry | src/nes/cpu/instruction.rs:92 | Opcode 0x00 (BRK) has no descriptor. |
| Instruction.LowBitsElevenHaveNoEntry | src/nes/cpu/instruction.rs:91-348 | No opcode with both low bits set has a descriptor. |
| Instruction.LdaImmediateEntry | src/nes/cpu/instruction.rs:261 | Opcode 0xA9 is LDA on the immediate template. |
| Instruction.BranchEntries | src/nes/cpu/instruction.rs:91-348 | Every opcode xxy10000 is the branch its top three bits select, on the relative template. |
| Instruction.GroupOneComplete | src/nes/cpu/instruction.rs:91-348 | Every opcode aaabbb01 has a descriptor except 0x89. |
| Instruction.GroupOneActions | src/nes/cpu/instruction.rs:91-348 | For opcodes aaabbb01, aaa selects the action. |
| Instruction.GroupOneModes | src/nes/cpu/instruction.rs:91-348 | For opcodes aaabbb01, bbb selects the addressing mode. |
| Instruction.Row0WellFormed | src/nes/cpu/instruction.rs:92-107 | Row 0x0_ entries are well formed. |
| Instruction.Row1WellFormed | src/nes/cpu/instruction.rs:108-123 | Row 0x1_ entries are well formed. |
| Instruction.Row2WellFormed | src/nes/cpu/instruction.rs:124-139 | Row 0x2_ entries are well formed. |
| Instruction.Row3WellFormed | src/nes/cpu/instruction.rs:140-155 | Row 0x3_ entries are well formed. |
| Instruction.Row4WellFormed | src/nes/cpu/instruction.rs:156-171 | Row 0x4_ entries are well formed. |
| Instruction.Row5WellFormed | src/nes/cpu/instruction.rs:172-187 | Row 0x5_ entries are well formed. |
| Instruction.Row6WellFormed | src/nes/cpu/instruction.rs:188-203 | Row 0x6_ entries are well formed. |
| Instruction.Row7WellFormed | src/nes/cpu/instruction.rs:204-219 | Row 0x7_ entries are well formed. |
| Instruction.Row8WellFormed | src/nes/cpu/instruction.rs:220-235 | Row 0x8_ entries are well formed. |
| Instruction.Row9WellFormed | src/nes/cpu/instruction.rs:236-251 | Row 0x9_ entries are well formed. |
| Instruction.RowAWellFormed | src/nes/cpu/instruction.rs:252-267 | Row 0xA_ entries are well formed. |
| Instruction.RowBWellFormed | src/nes/cpu/instruction.rs:268-283 | Row 0xB_ entries are well formed. |
| Instruction.RowCWellFormed | src/nes/cpu/instruction.rs:284-299 | Row 0xC_ entries are well formed. |
| Instruction.RowDWellFormed | src/nes/cpu/instruction.rs:300-315 | Row 0xD_ entries are well formed. |
| Instruction.RowEWellFormed | src/nes/cpu/instruction.rs:316-331 | Row 0xE_ entries are well formed. |
| Instruction.RowFWellFormed | src/nes/cpu/instruction.rs:332-347 | Row 0xF_ entries are well formed. |
| Instruction.LayoutWellFormed | src/nes/cpu/instruction.rs:91-348 | Every table entry is well formed. |
| Instruction.EntriesWellFormed | src/nes/cpu/instruction.rs:91-348 | Every descriptor has a real routine, a budget of 2–7, and never immediate-with-Memory; shifts, rotates, INC and DEC use a read-modify-write routine; the Memory destination goes exactly with STA, STX and INC. |
| Decoder.OpcodeFields | src/nes/cpu/decoder.rs:67-69 | aaa as computed is twice the top three bits (even, ≤ 14); bbb and cc are the middle and low fields, and together they rebuild the opcode. |
| Decoder.DecodeAddrTier1_01 | src/nes/cpu/decoder.rs:139-151 | Every bbb 0–7 names a mode. |
| Decoder.DecodeAddrTier1_10 | src/nes/cpu/decoder.rs:155-165 | Exactly 0, 1, 2, 3, 5 and 7 name a mode. |
| Decoder.DecodeAddrTier1_00 | src/nes/cpu/decoder.rs:169-178 | Exactly 0, 1, 3, 5 and 7 name a mode. |
| Decoder.Decode | src/nes/cpu/decoder.rs:43-61 | `decode` fetches the opcode (PC advances) and returns the outcome of the tiers. |
| Decoder.DecodeOpcode | src/nes/cpu/decoder.rs:43-61 | `decode` after the fetch; `Decoder.DecodeAlwaysPanics` states its outcome for every opcode. |
| Decoder.DecodeTier1 | src/nes/cpu/decoder.rs:64-135 | `decode_tier1`; `Decoder.Tier1Outcome` and `Decoder.WholeOpcodeReachesModeDecoder` characterise it. |
| Decoder.DecodeTier2 | src/nes/cpu/decoder.rs:181-219 | `decode_tier2`; `Decoder.Tier2Outcome` characterises it. |
| Decoder.DecodeTier3 | src/nes/cpu/decoder.rs:222-255 | `decode_tier3`; `Decoder.OneByteOpcodesInTable` relates its list to the descriptor table. |
| Decoder.Tier1Outcome | src/nes/cpu/decoder.rs:64-135 | Tier 1 passes exactly the cc = 01 opcodes below 0x80 and 0x02; it panics on every other opcode. |
| Decoder.WholeOpcodeReachesModeDecoder | src/nes/cpu/decoder.rs:97-117 | On the cc = 10 and cc = 00 paths the whole opcode is decoded as a mode, so every such opcode ≥ 8 panics (e.g. 0xA6). |
| Decoder.Tier2Outcome | src/nes/cpu/decoder.rs:181-219 | Tier 2 panics exactly on the branch opcodes from 0x90 up. |
| Decoder.DecodeAlwaysPanics | src/nes/cpu/decoder.rs:43-255 | No tier ever yields a cycle count, so every opcode ends in the invalid-opcode panic. |
| Decoder.Tier1ModesMatchTable | src/nes/cpu/decoder.rs:139-151 | For cc = 01, the mode bbb decodes to equals the descriptor table's mode tag. |
| Decoder.OneByteOpcodesInTable | src/nes/cpu/decoder.rs:222-255 | Every one-byte opcode tier 3 lists has a descriptor, except BRK. |
| Mem.OverwriteContents | src/nes/mem.rs:39-43 | A raw write keeps the length, puts `data[i]` at `addr + i` and keeps every byte outside the block. |
| Mem.OverwriteSame | src/nes/mem.rs:39-43 | Writing back the bytes already there changes nothing. |
| Mem.OverwriteTwice | src/nes/mem.rs:39-43 | A raw write is idempotent. |
| Mem.Overwrite | src/nes/mem.rs:39-43 | `raw_write` on the buffer as a value; `Mem.OverwriteContents`, `OverwriteSame` and `OverwriteTwice` characterise it. |
| Mem.UpperBankCopyOverruns | src/nes/cpu.rs:220-234 | As written, the second PRG-ROM copy of `Cpu::new` writes 0x4000 bytes at 0xC000 into a 0xFFFF-byte buffer (or slices a PRG-ROM that is too short), so `raw_write`'s range check fails for every ROM. |
| Mem.MemCon.constructor | src/nes/mem.rs:29-35 | Keeps both register handles and allocates 0xFFFF zero bytes. |
| Mem.MemCon.RawWrite | src/nes/mem.rs:39-43 | The buffer becomes the old one with the block copied in at `addr`. |
| Vram.MemCon.constructor | src/nes/vram.rs:34-39 | Keeps the register handle and allocates 0xFFFF zero bytes. |
| Vram.MemCon.RawWrite | src/nes/vram.rs:43-47 | The buffer becomes the old one with the block copied in at `addr`. |
| PpuVram.MemCon.constructor | src/nes/ppu/vram.rs:101-105 | Allocates 0x4000 zero bytes. |
| PpuVram.MemCon.RawWrite | src/nes/ppu/vram.rs:109-112 | The buffer becomes the old one with the block copied in at `addr`. |
| Rom.Pow2 | src/nes/rom.rs:514 | `2.pow(e)` is at least 1. |
| Rom.Flag6RoundTrip | src/nes/rom.rs:278-311 | Encode-then-parse of byte 6 gives back (mirroring, battery, trainer, mapper low); parse-then-encode gives back the byte iff bits 3 and 0 are not both set. |
| Rom.Flag7RoundTrip | src/nes/rom.rs:313-338 | Encode-then-parse of byte 7 gives back its fields; NES 2.0 iff bits 3–2 are 10; parse-then-encode gives back the byte iff bit 2 is clear. |
| Rom.ParseFlag6 | src/nes/rom.rs:278-311 | `parse_flag6`; `Rom.Flag6RoundTrip` characterises it in both directions. |
| Rom.ParseFlag7 | src/nes/rom.rs:313-338 | `parse_flag7`; `Rom.Flag7RoundTrip` characterises it in both directions. |
| Rom.ParseFlag8 | src/nes/rom.rs:340-350 | PRG RAM is 8 KiB × the byte, with 0 read as 1. |
| Rom.ParseFlag8V2 | src/nes/rom.rs:352-364 | Mapper high nibble and submapper are both the low nibble, as written. |
| Rom.ParseFlag9 | src/nes/rom.rs:366-377 | PAL iff bit 0 is set. |
| Rom.Flag9V2Split | src/nes/rom.rs:379-390 | The PRG part is the low nibble, the CHR part is the high nibble left in place; together they rebuild the byte. |
| Rom.ParseFlag9V2 | src/nes/rom.rs:379-390 | `parse_flag9_v2`; `Rom.Flag9V2Split` characterises it. |
| Rom.ShiftSize | src/nes/rom.rs:423 | `64 << shift` for a shift of at most 15 lies in 64…0x200000. |
| Rom.ShiftSizesNeverZero | src/nes/rom.rs:408-442 | Bytes 10 and 11 both decode to `(64 << high nibble, 64 << low nibble)`; a zero shift gives 64, never 0. |
| Rom.ParseFlag10V2 | src/nes/rom.rs:408-424 | `parse_flag10_v2`; `Rom.ShiftSizesNeverZero` states both sizes. |
| Rom.ParseFlag11V2 | src/nes/rom.rs:426-442 | `parse_flag11_v2`; `Rom.ShiftSizesNeverZero` states both sizes. |
| Rom.Flag12V2Outcomes | src/nes/rom.rs:444-462 | Because of `flags \| 3`, the result is Dendy iff the byte is ≤ 3, and NTSC otherwise. |
| Rom.ParseFlag12V2 | src/nes/rom.rs:444-462 | `parse_flag12_v2`; `Rom.Flag12V2Outcomes` characterises it. |
| Rom.Flag13V2RoundTrip | src/nes/rom.rs:464-483 | The two nibbles of byte 13 rebuild it. |
| Rom.ParseFlag13V2 | src/nes/rom.rs:464-483 | `parse_flag13_v2`; `Rom.Flag13V2RoundTrip` characterises it. |
| Rom.ParseFlag14V2 | src/nes/rom.rs:486-494 | The result is the two low bits, and the rest of the byte is unchanged by or-ing it back. |
| Rom.ParseFlag15V2 | src/nes/rom.rs:497-505 | The result is the six low bits, and the rest of the byte is unchanged by or-ing it back. |
| Rom.RomSizePlainForm | src/nes/rom.rs:507-520 | Outside the exponent form the size is upper·256 + lower. |
| Rom.RomSizeExponentForm | src/nes/rom.rs:507-520 | In the exponent form, exponents ≤ 29 give 2^E·(2·MM+1) exactly; exponents ≥ 32 wrap to 0. |
| Rom.CalculateRomSize | src/nes/rom.rs:507-520 | `calculate_rom_size`; `Rom.RomSizePlainForm` and `Rom.RomSizeExponentForm` characterise both forms. |
| Rom.MapperNoNibbles | src/nes/rom.rs:151-156 | The mapper number is below 0x1000, nibble by nibble from bytes 6, 7 and (NES 2.0 only) 8. |
| Rom.MapperNo | src/nes/rom.rs:151-156 | The mapper number; `Rom.MapperNoNibbles` characterises it. |
| Rom.RomSizes | src/nes/rom.rs:158-171 | iNES sizes are units of 16 KiB / 8 KiB; NES 2.0 sizes go through `calculate_rom_size`, the CHR nibble taken unshifted. |
| Rom.ParseOutcome | src/nes/rom.rs:94-276 | Parse gives "too short" iff fewer than 16 bytes; "Invalid format." iff the magic is wrong; out of range iff the blocks run past the end. Otherwise the ROM's blocks are the input slices after the header and trainer. |
| Rom.ParseINesImage | src/nes/rom.rs:94-276 | Round trip: an iNES image built from a header and blocks of the announced sizes parses back to those blocks, mirroring, battery flag and mapper. |
| Rom.HeaderFields | src/nes/rom.rs:116-218 | The header fields of the parsed ROM; `Rom.ParseOutcome` and `Rom.ParseINesImage` state them. |
| Rom.Parse | src/nes/rom.rs:94-276 | `parse`; `Rom.ParseOutcome` characterises every outcome and `Rom.ParseINesImage` proves the round trip for iNES images. |

## Left out

**Not modelled:**
- File loading: `load_from_file` and its file-open errors, `err_exit`, the `println!` in `raw_write`, `print_cpu_state`, and the `log::debug!` call in every action. These are I/O.
- `Cpu::interrupt`, `check_stack_overflow`/`check_stack_underflow`, and the float clock helpers (`set_clock_freq`, `clock_freq`, `clock_cycle`).
- The PPU: `ppu.rs`, `ppu_state.rs`, `ppu_databus.rs`, and the PPU register block, which appears only as the type parameter `PpuRegs`.
- `main.rs`, `nes.rs` and `nesrom.rs`. `src/nes/cpu_state.rs` and `src/nes/decoder.rs` are older copies superseded by the files under `src/nes/cpu/`; they are not modelled.
- The memory controller's `read`/`write` with mirroring and I/O registers are not modelled. Memory is a flat 64 KiB map, and reads have no side effects.

**Parameters instead of code:**
- `decoder::fetch_and_decode`, the group 2 actions (shifts, rotates, INC/DEC, STX/LDX variants, BIT), and the routines of the read-modify-write, jump, relative, stack and JSR/RTI/RTS templates are not modelled.
- They arrive as the `ExecuterRoutines.Externals` parameter. Claims that involve the routines and the decoder entry hold for any behaviour they might have.
- ExecuterRoutines.Externals.groupTwo: group 2 actions are assumed to change registers only (the parameter's type is `(CoreFn, Regs, bv8) -> (Regs, bv8)`), whereas the source's `fn(&mut Cpu, u8) -> u8` may also touch memory, the interrupt lines, `state` or `fn_step`. CoreEffect, CoreActKeepsScratch, AccessKeepsScratch and the access-cycle lemmas rely on this.

**Simplified representation:**
- `a_set`/`x_set` are defined outside the modelled files. They are modelled as "assign, then N/Z from the value", as the flag tables describe.
- The NesRom accessors are the datatype's own fields.
- Panics that became preconditions:
  - `Mem.MemCon.RawWrite`, `Vram.MemCon.RawWrite` and `PpuVram.MemCon.RawWrite` require the block to fit the buffer; the source's slice panics otherwise.
  - `ExecuterRoutines.RoutineReady` and `CpuState.IntReady` exclude the cycle counters, and the immediate routine with a Memory destination, that reach the source's `unreachable!()` arms. Through them, `ExecuterRoutines.CallExec`, `CpuState.IntStepRun`, `CpuState.ExecStepRun` and `CpuState.Step` require the same.
  - `CpuState.VectorOf` excludes `IntNone`, which reaches the `unreachable!()` of cycle 7.
- Integer widths: `state.counter` is a `u8` and wraps from 255 to 0, as in a release build (a debug build panics there). `clock_counter` (`u64`) is an unbounded natural; its wrap-around is not modelled.
- Release semantics: `pc += 1`, `s -= 3` in `reset` and `2u32.pow(e)` all wrap. A debug build panics on these overflows instead.
- Cpu.Cpu.constructor: does not model the copy of the PRG-ROM banks into memory that `Cpu::new` performs; the memory is taken as given. As written that copy cannot succeed: the second `raw_write` puts 0x4000 bytes at 0xC000 into a buffer of 0xFFFF bytes, and with fewer than 0x4000 PRG-ROM bytes the slice already fails. So `Cpu::new` panics for every ROM (`Mem.UpperBankCopyOverruns`), and the constructor models the intended result.
- Template and core names are strings taken from the constant identifiers. The `min_clock` field read by `new_instruction!` is treated as the template's `total_clock`.

**Kept as written (intent may differ):**
- `exec_indexed_indirect_x` as written dereferences twice: it reads a byte at (op+X) and uses that byte as the address of the indirect address. The documented mode reads the indirect address at (op+X) directly. The model follows the code.
- The older INY/DEY in `executer.rs` write X and keep Y, although their doc comments say Y. INY in `exec_core_g3.rs` does the same. DEY in `exec_core_g3.rs` is correct. The model follows the code.
- The decoder computes `aaa` with `>> 4`, not `>> 5`. On the cc = 10 and cc = 00 paths it passes the whole opcode to the mode decoder. The value tier 2 computes is unused, and no tier returns a cycle count. The model follows the code, so every opcode panics (`Decoder.DecodeAlwaysPanics`).
- ROM parsing follows the code:
  - `misc_rom_count` and `expansion_device` are read from byte 13, not bytes 14 and 15, and are then discarded.
  - The submapper equals the mapper's high nibble and is discarded.
  - The NES 2.0 CHR high nibble is used unshifted.
  - `parse_flag12_v2` matches on `flags | 3`.
  - `parse_flag10_v2`/`parse_flag11_v2` take the volatile size from the high nibble and the non-volatile size from the low nibble, and a shift of 0 gives 64 bytes. The comments at src/nes/rom.rs:412-415 and 430-433 say the low nibble is the volatile one and that a shift of 0 means no RAM (`Rom.ShiftSizesNeverZero`).
- `a_cmp` computes the carry of `A + val.wrapping_neg()`. For CMP #0 that sum never carries, so C stays clear although A ≥ 0 always holds (src/nes/cpu.rs:181, `Cpu.CmpCarryQuirk`).
