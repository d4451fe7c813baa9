# LS-8 CPU in Dafny

A model of the LS-8 emulator's `CPU` class (`ls8/cpu.py`). The class holds:
- 256 cells of RAM, eight registers, eight flag cells
- a program counter `pc` and a separate `sp` field
- the opcode table, which maps instruction bytes to handler methods
- the `run` loop, which fetches `ram[pc]`, looks it up in the table, calls the handler, and advances `pc` unless bit 4 of the opcode is set
- the handlers themselves and the `alu` they share

The model has two layers:

- `Machine` (machine.dfy) describes the machine as values. It has a `State` datatype and one function per handler. It also has `Alu`, one iteration of the loop (`Step`) and a bounded number of iterations (`Run`). Every Python exception a handler can raise is a `Fault`: an out-of-range list index (`IndexError`), a zero divisor (`ZeroDivisionError`), a negative shift count (`ValueError`), or a DIV by a non-zero register, whose float quotient the model does not follow (`FloatResult`, see Left out).
- `Ls8.CPU` (cpu.dfy) is the object itself. RAM, registers and flags are arrays updated in place, and `pc`, `sp`, `halted` and `output` are fields. Every method is proved to leave the object in exactly the state the matching `Machine` function gives, or to report the same fault.

The supporting modules are:
- `PyInt` (pyint.dfy): the Python semantics the code relies on. Registers are unbounded ints. `%` is floor remainder. `&`, `|`, `^` and `~` act on infinite two's complement. A list index may be negative.
- `Isa` (isa.dfy): the opcode table and the two bit fields the dispatcher decodes.
- `Properties` (properties.dfy): the lemmas about the machine.

Python list indexing is modelled exactly: `xs[i]` is valid for `-len(xs) <= i < len(xs)`, and negative indices count back from the end. This is why `flags[-1]`, `flags[-2]` and `flags[-3]` are cells 7, 6 and 5 (E, G and L). It is also why a `pc` or `sp` that leaves that range raises `IndexError`.

Three points of the code are easy to misread:
- **Flags.** A compare writes 1 into one of E, G and L and never clears the other two, so flags are sticky and more than one can be set. `CompareSetsOneFlag` and `RunKeepsFlags` state this.
- **Register width.** The code never masks a result, so registers are unbounded ints and can go negative.
- **Stack pointer.** `sp` is a field of its own, not register 7:
  - PUSH and POP address `ram[sp]` through the `sp` field, which starts at 7.
  - CALL and RET address `ram[reg[sp]]` (CALL after decrementing `sp`).
  - Register 7 starts at 0xF4. CALL from the initial `sp` uses reg[6], but reg[7] becomes a stack address whenever `sp` is 7 at a RET or 8 at a CALL.

  `InitialStackTargets` shows where PUSH and CALL write from the initial state, and `InitialRegister7AsAddress` where RET and CALL go through register 7.

## Model

| member | source | states |
|---|---|---|
| PyInt.Slot | ls8/cpu.py:96-102 | a Python index in range denotes a cell below the list length: the index itself, or the index counted back from the end |
| PyInt.FloorMod | ls8/cpu.py:77-78 | `x % y` satisfies `x == (x // y) * y + r` and takes the sign of the divisor |
| PyInt.ShiftRightOfShiftLeft | ls8/cpu.py:88-93 | `(x << n) >> n == x` for every int x and count n >= 0 |
| PyInt.NotIsXorAllOnes | ls8/cpu.py:94-95 | `~x` complements every bit: it equals `x ^ -1` |
| PyInt.XorSelfInverse | ls8/cpu.py:85-87 | `(a ^ b) ^ b == a` for all ints, negative ones included |
| PyInt.BitwiseBounded | ls8/cpu.py:79-87 | `&`, `\|` and `^` of two non-negative k-bit values is a non-negative k-bit value |
| PyInt.AndOneIsLowBit | ls8/cpu.py:134 | `x & 1` is the lowest bit of x |
| PyInt.Bitwise | ls8/cpu.py:79-87 | a bitwise operation on infinite two's complement gives a negative result exactly when the operation applied to the two sign bits gives 1 |
| PyInt.And | ls8/cpu.py:79-81 | `a & b` is negative exactly when both a and b are |
| PyInt.Or | ls8/cpu.py:82-84 | `a \| b` is negative exactly when a or b is |
| PyInt.Xor | ls8/cpu.py:85-87 | `a ^ b` is negative exactly when one of a and b is |
| PyInt.Not | ls8/cpu.py:94-95 | `~x` is negative exactly when x is not |
| PyInt.ShiftLeft | ls8/cpu.py:88-90 | `x << n` keeps the sign of x and is x itself for n = 0 |
| PyInt.ShiftRight | ls8/cpu.py:91-93 | `x >> n` keeps the sign of x and never exceeds a non-negative x |
| Isa.Opcode | ls8/cpu.py:14-37 | every instruction's byte is below 256 |
| Isa.Decode | ls8/cpu.py:133 | a byte the table knows decodes to the instruction with that opcode; all other bytes give nothing |
| Isa.SetsPcIsBitTest | ls8/cpu.py:134 | the model's "sets PC" test agrees with `(ir >> 4) & 0b1` on every int |
| Isa.IncIsShift | ls8/cpu.py:137 | the model's advance agrees with `(ir >> 6) + 1` on every int |
| Isa.SetsPc | ls8/cpu.py:134 | the "sets PC" test holds exactly when bit 4 of the byte is set |
| Isa.Inc | ls8/cpu.py:137 | the advance of a byte below 256 is between 1 and 4 |
| Isa.OperandCount | ls8/cpu.py:143-262 | every handler reads at most two operand bytes (which ones: HandlersReadTheirOperands, HandlersReadNoOtherCell) |
| Isa.DecodeOpcode | ls8/cpu.py:14-37 | every table entry decodes back to its own instruction, so no two share a byte |
| Isa.SetsPcExactlyForJumps | ls8/cpu.py:14-37 | bit 4 of an opcode is set exactly for CALL, RET, JEQ, JNE and JMP |
| Isa.OperandBitsMatchHandlers | ls8/cpu.py:14-37 | the dispatcher's advance `(ir >> 6) + 1` is one more than `OperandCount`, the number of operand bytes the handler reads (tied to the handlers by HandlersReadTheirOperands and HandlersReadNoOtherCell) |
| Machine.Get | ls8/cpu.py:39-40 | reading `xs[i]` succeeds exactly when Python accepts the index |
| Machine.Put | ls8/cpu.py:42-43 | writing `xs[i]` succeeds exactly when Python accepts the index and keeps the length |
| Machine.RamWrite | ls8/cpu.py:42-43 | `ram_write` keeps RAM at 256 cells |
| Machine.Initial | ls8/cpu.py:6-13 | the initial state is well formed and not halted, has printed nothing, and its `sp` names a register holding 0xF4 |
| Machine.Compute | ls8/cpu.py:69-93 | the stored value fails exactly for DIV (ZeroDivisionError for a zero divisor, FloatResult otherwise), MOD by zero (ZeroDivisionError) and a negative shift (ValueError); a MOD result lies between 0 and the divisor |
| Machine.Alu | ls8/cpu.py:66-104 | `alu` never changes the sizes of RAM, registers or flags (its effects: the ALU lemmas below) |
| Machine.Ldi | ls8/cpu.py:143-146 | LDI keeps the sizes of the three lists (its effect: LdiLoads) |
| Machine.Prn | ls8/cpu.py:148-151 | PRN keeps the sizes of the three lists (its effect: PrnPrints) |
| Machine.Hlt | ls8/cpu.py:153-154 | HLT keeps the sizes of the three lists (its effect: StepHalts) |
| Machine.GetOperands | ls8/cpu.py:176-180 | succeeds exactly when both bytes after `pc` are valid indices, and returns `ram[pc+1]` and `ram[pc+2]` |
| Machine.Arith | ls8/cpu.py:156-174 | the two-operand handlers keep the sizes of the three lists |
| Machine.NotOp | ls8/cpu.py:244-246 | not_op keeps the sizes of the three lists (its effect: NotTwiceRestores) |
| Machine.Push | ls8/cpu.py:182-187 | PUSH keeps the sizes of the three lists (its effect: PushStores) |
| Machine.Pop | ls8/cpu.py:189-194 | POP keeps the sizes of the three lists (its effect: PopLoads) |
| Machine.Call | ls8/cpu.py:196-209 | CALL keeps the sizes of the three lists (its effect: CallJumps) |
| Machine.Ret | ls8/cpu.py:211-213 | RET keeps the sizes of the three lists (its effect: RetReturns) |
| Machine.JumpTarget | ls8/cpu.py:231-234 | succeeds exactly when `ram[pc+1]` and the register it names are valid indices, and returns `reg[ram[pc+1]]` |
| Machine.Jeq | ls8/cpu.py:215-221 | JEQ keeps the sizes of the three lists (its effect: JeqBranches) |
| Machine.Jne | ls8/cpu.py:223-229 | JNE keeps the sizes of the three lists (its effect: JneBranches) |
| Machine.Jmp | ls8/cpu.py:231-234 | JMP keeps the sizes of the three lists (its effect: JmpJumps) |
| Machine.AluName | ls8/cpu.py:156-174 | the two-operand handlers never pass "NOT" to `alu` |
| Machine.Execute | ls8/cpu.py:14-37 | whatever handler the table names keeps the sizes of the three lists |
| Machine.Dispatch | ls8/cpu.py:133-141 | dispatching a fetched byte keeps the sizes of the three lists |
| Machine.Perform | ls8/cpu.py:136-141 | running a handler and advancing `pc` keeps the sizes of the three lists |
| Machine.Step | ls8/cpu.py:132-141 | one loop iteration keeps the sizes of the three lists |
| Machine.Run | ls8/cpu.py:126-141 | any number of loop iterations keeps the sizes of the three lists |
| Ls8.CPU.constructor | ls8/cpu.py:6-13 | a new CPU has zeroed RAM and flags, `pc` 0, `sp` 7, and register 7 holding 0xF4 with the others zero |
| Ls8.CPU.RamRead | ls8/cpu.py:39-40 | returns `ram[address]`, or IndexError when Python rejects the index |
| Ls8.CPU.RamWrite | ls8/cpu.py:42-43 | stores into that one RAM cell, or reports IndexError |
| Ls8.CPU.Alu | ls8/cpu.py:66-104 | the in-place `alu` leaves the arrays as the value-level `alu` gives, or raises the same fault |
| Ls8.CPU.GetOperands | ls8/cpu.py:176-180 | returns the two bytes after `pc`, or IndexError |
| Ls8.CPU.Ldi | ls8/cpu.py:143-146 | the in-place LDI matches the value-level LDI |
| Ls8.CPU.Prn | ls8/cpu.py:148-151 | the in-place PRN matches the value-level PRN |
| Ls8.CPU.Hlt | ls8/cpu.py:153-154 | sets `halted` and changes nothing else |
| Ls8.CPU.Arith | ls8/cpu.py:156-174 | add, sub, mul, div, mod, compare, and_op, or_op, xor, shl and shr match their value-level versions |
| Ls8.CPU.NotOp | ls8/cpu.py:244-246 | the in-place not_op matches the value-level not_op |
| Ls8.CPU.Push | ls8/cpu.py:182-187 | the in-place PUSH matches the value-level PUSH |
| Ls8.CPU.Pop | ls8/cpu.py:189-194 | the in-place POP matches the value-level POP |
| Ls8.CPU.Call | ls8/cpu.py:196-209 | the in-place CALL matches the value-level CALL |
| Ls8.CPU.Ret | ls8/cpu.py:211-213 | the in-place RET matches the value-level RET |
| Ls8.CPU.JumpToOperand | ls8/cpu.py:231-234 | sets `pc` to the register named by the byte after `pc`, or reports IndexError |
| Ls8.CPU.Jeq | ls8/cpu.py:215-221 | the in-place JEQ matches the value-level JEQ |
| Ls8.CPU.Jne | ls8/cpu.py:223-229 | the in-place JNE matches the value-level JNE |
| Ls8.CPU.Jmp | ls8/cpu.py:231-234 | the in-place JMP matches the value-level JMP |
| Ls8.CPU.Execute | ls8/cpu.py:14-37 | calling the handler the table binds to an instruction matches the value-level handler |
| Ls8.CPU.ExecuteAndAdvance | ls8/cpu.py:136-139 | runs the handler, then adds the increment to `pc` unless the handler halted |
| Ls8.CPU.Dispatch | ls8/cpu.py:133-141 | the body of the loop after the fetch matches the value-level dispatcher |
| Ls8.CPU.Step | ls8/cpu.py:132-141 | one iteration of the loop on the object matches one value-level step |
| Ls8.CPU.Run | ls8/cpu.py:126-141 | the loop, cut off after `fuel` iterations, matches `fuel` value-level steps, stopping at HLT or a fault |
| Properties.ExecuteFrame | ls8/cpu.py:143-262 | only HLT sets `halted`, only CALL, RET and the jumps assign `pc`, and no handler clears a flag |
| Properties.DataFrame | ls8/cpu.py:143-154 | LDI, PRN, HLT, PUSH, POP and NOT leave `pc` and the flags unchanged, and all but HLT leave `halted` |
| Properties.JumpFrame | ls8/cpu.py:196-234 | CALL, RET and the jumps leave `halted` and the flags unchanged |
| Properties.ArithFrame | ls8/cpu.py:156-174 | the two-operand handlers leave `pc` and `halted` unchanged and set no flag back to 0 |
| Properties.StepAdvancesPastOperands | ls8/cpu.py:136-139 | for a table opcode with bit 4 clear (not HLT), one step is the handler followed by `pc := old pc + operands + 1` |
| Properties.HandlersReadTheirOperands | ls8/cpu.py:143-262 | every handler but JEQ and JNE raises IndexError when any of its `OperandCount` operand bytes lies outside RAM |
| Properties.HandlersReadNoOtherCell | ls8/cpu.py:143-262 | changing a RAM cell that is neither an operand byte nor the cell POP or RET loads leaves every handler's fault, and its whole result apart from that cell, unchanged |
| Properties.AluIgnoresRam | ls8/cpu.py:66-104 | `alu` reads only registers and flags: changing one RAM cell changes neither its fault nor anything else in its result |
| Properties.ArithReadsNoOtherCell | ls8/cpu.py:156-180 | the two-operand handlers depend on RAM only through `ram[pc+1]` and `ram[pc+2]` |
| Properties.NotReadsNoOtherCell | ls8/cpu.py:244-246 | not_op depends on RAM only through `ram[pc+1]` |
| Properties.LdiReadsNoOtherCell | ls8/cpu.py:143-146 | LDI depends on RAM only through `ram[pc+1]` and `ram[pc+2]` |
| Properties.PrnReadsNoOtherCell | ls8/cpu.py:148-151 | PRN depends on RAM only through `ram[pc+1]` |
| Properties.PushReadsNoOtherCell | ls8/cpu.py:182-187 | PUSH depends on RAM only through `ram[pc+1]` |
| Properties.PopReadsNoOtherCell | ls8/cpu.py:189-194 | POP depends on RAM only through `ram[pc+1]` and `ram[sp]` |
| Properties.CallReadsNoOtherCell | ls8/cpu.py:196-209 | CALL depends on RAM only through `ram[pc+1]`, read after its store |
| Properties.RetReadsNoOtherCell | ls8/cpu.py:211-213 | RET depends on RAM only through `ram[reg[sp]]` |
| Properties.JumpReadsNoOtherCell | ls8/cpu.py:215-234 | JEQ, JNE and JMP depend on RAM only through `ram[pc+1]` |
| Properties.OthersReadNoOtherCell | ls8/cpu.py:143-262 | the same for every handler that does not go through `get_operands` and `alu` with two registers |
| Properties.StepHalts | ls8/cpu.py:153-154 | a step on HLT sets `halted` and leaves `pc` and everything else as they were |
| Properties.StepLeavesPcToJumps | ls8/cpu.py:140-141 | for CALL, RET, JEQ, JNE and JMP, one step is exactly the handler, so `pc` is what the handler left |
| Properties.StepUnknownOpcode | ls8/cpu.py:133-141 | a byte missing from the table changes no state at all, so the loop spins on it |
| Properties.RunSplit | ls8/cpu.py:131-141 | running m and then n iterations is the same as running m + n |
| Properties.LdiLoads | ls8/cpu.py:143-146 | LDI fails exactly on a bad index; otherwise `reg[ram[pc+1]] := ram[pc+2]` and every other register, RAM, flags, `pc` and `sp` are unchanged |
| Properties.PrnPrints | ls8/cpu.py:148-151 | PRN fails exactly on a bad index; otherwise it appends `reg[ram[pc+1]]` to the output and changes nothing else |
| Properties.CompareSetsOneFlag | ls8/cpu.py:96-102 | CMP sets E (cell 7) when equal, L (cell 5) when less, G (cell 6) otherwise; every other cell keeps its value |
| Properties.StepKeepsFlags | ls8/cpu.py:132-141 | one loop iteration never clears a flag |
| Properties.RunKeepsFlags | ls8/cpu.py:96-102 | a flag set during a run stays set for the rest of it, so flags are sticky |
| Properties.JeqBranches | ls8/cpu.py:215-221 | JEQ jumps to `reg[ram[pc+1]]` iff E is 1; otherwise `pc := pc + 2` and nothing else changes |
| Properties.JneBranches | ls8/cpu.py:223-229 | JNE jumps to `reg[ram[pc+1]]` iff E is 0; otherwise `pc := pc + 2` and nothing else changes |
| Properties.JmpJumps | ls8/cpu.py:231-234 | JMP always sets `pc := reg[ram[pc+1]]`, failing exactly on a bad index |
| Properties.PushStores | ls8/cpu.py:182-187 | PUSH fails exactly on a bad index; otherwise `sp := sp - 1`, `ram[sp] := reg[ram[pc+1]]` and nothing else changes |
| Properties.PopLoads | ls8/cpu.py:189-194 | POP fails exactly on a bad index; otherwise `reg[ram[pc+1]] := ram[sp]`, `sp := sp + 1` and nothing else changes |
| Properties.CallJumps | ls8/cpu.py:196-209 | CALL fails exactly on a bad index; otherwise `ram[reg[sp-1]] := pc + 2`, `sp := sp - 1` and `pc := reg[ram[pc+1]]` with `ram[pc+1]` read after the store, and nothing else changes |
| Properties.RetReturns | ls8/cpu.py:211-213 | RET fails exactly on a bad index; otherwise `pc := ram[reg[sp]]`, `sp := sp + 1` and nothing else changes |
| Properties.PushThenPop | ls8/cpu.py:182-194 | PUSH r then POP r': `sp` goes down by one then back, the pushed value sits at `ram[sp - 1]` and ends up in r', `pc` advances by 4, and no other register, RAM cell, flag or output changes |
| Properties.CallThenRet | ls8/cpu.py:196-213 | CALL at p, then RET with reg[sp] and the cell it names untouched, returns to p + 2 with `sp` restored and nothing else changed |
| Properties.InitialStackTargets | ls8/cpu.py:12-13 | from the initial `sp` and registers, PUSH writes ram[6] while CALL writes its return address into ram[0] |
| Properties.InitialRegister7AsAddress | ls8/cpu.py:12-13 | with the initial registers, RET with `sp` at 7 returns to `ram[0xF4]` and CALL with `sp` at 8 stores its return address there |
| Properties.AluChangesOnlyTarget | ls8/cpu.py:66-104 | every ALU operation but CMP changes only reg[a]; CMP changes only the flags |
| Properties.AddThenSubRestores | ls8/cpu.py:69-72 | ADD a,b then SUB a,b with a and b different registers gives back the original state |
| Properties.AddThenSubAliased | ls8/cpu.py:69-72 | when a and b name the same register, ADD then SUB leaves 0 there |
| Properties.NotTwiceRestores | ls8/cpu.py:94-95 | NOT stores `-reg[a] - 1`, and NOT twice gives back the original state |
| Properties.XorTwiceRestores | ls8/cpu.py:85-87 | XOR a,b twice with different registers gives back the original state |
| Properties.ShiftLeftThenRightRestores | ls8/cpu.py:88-93 | SHL then SHR by the same non-negative count gives back the original state |
| Properties.NegativeShiftFails | ls8/cpu.py:88-93 | a negative shift count raises ValueError in SHL and in SHR |
| Properties.ModAndDivByRegister | ls8/cpu.py:75-78 | MOD and DIV by a zero register raise ZeroDivisionError; otherwise MOD stores Python's remainder, with the divisor's sign |
| Properties.BitwiseKeepsBytes | ls8/cpu.py:79-87 | AND, OR and XOR of two byte-valued registers store a byte |
| Properties.SumTraceLdi | ls8/cpu.py:143-146 | the two LDIs of the sample program load 8 and 9 and advance `pc` by 3 each |
| Properties.SumTraceAdd | ls8/cpu.py:156-158 | the ADD of the sample program stores 17 and advances `pc` by 3 |
| Properties.SumTracePrnHlt | ls8/cpu.py:148-154 | the PRN of the sample program prints 17, and its HLT halts |
| Properties.SumProgramPrints17 | ls8/cpu.py:126-154 | `LDI R0,8; LDI R1,9; ADD R0,R1; PRN R0; HLT` prints 17 and halts after five iterations |

## Left out

- `load` (ls8/cpu.py:45-64) reads `sys.argv` and a file. The model only states the memory layout it produces (`Properties.Loaded`: the program's bytes from address 0, zeros after).
- `trace` (ls8/cpu.py:106-124) only prints.
- `print` in PRN is modelled as appending to the `output` sequence.
- `sys.exit` in HLT is modelled as setting `halted`, which ends `Run`.
- Machine.Alu: a DIV by a non-zero register stops the model with the fault `FloatResult`. The float quotient that Python stores is not modelled, and neither is anything that happens with a float in a register afterwards.
- Machine.Alu: a SHL by a huge count, which in Python runs out of memory, is modelled as an exact unbounded product.
- Ls8.CPU.Step: after a fault, each method's contract names the exception but does not say what the object holds. Python has already made some assignments by then, but the exception ends the process.
- Ls8.CPU.Run: takes a `fuel` bound on the number of iterations. The unbounded `while running == True` loop is the limit of these runs. A byte missing from the table makes the loop spin forever, and `StepUnknownOpcode` shows that state is a fixed point.
- The `else: raise Exception("Unsupported ALU operation")` branch of `alu` cannot be reached. Every handler passes one of the names `alu` accepts, and the model's `AluOp` lists only those names.
- The opcode table holds bound methods. The model splits it into `Isa.Decode` (byte to instruction) and `Machine.Execute` (instruction to handler).
