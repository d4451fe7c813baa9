/**
 * What the LS-8 machine guarantees, proved about the functions of module
 * Machine (and so, through the contracts of module Ls8, about the CPU object).
 */
module Properties {
  import opened PyInt
  import Isa
  import opened Machine

  // ---------------------------------------------------------------------
  // Reading the state the way the handlers do
  // ---------------------------------------------------------------------

  /** The byte k cells after `pc` exists. */
  predicate HasOperand(s: State, k: int)
    requires s.Valid()
  {
    InRange(RamSize, s.pc + k)
  }

  /** The byte k cells after `pc`. */
  function Operand(s: State, k: int): int
    requires s.Valid() && HasOperand(s, k)
  {
    s.ram[Slot(RamSize, s.pc + k)]
  }

  /** `reg[i]`, for a register index Python accepts. */
  function RegAt(s: State, i: int): int
    requires s.Valid() && InRange(RegCount, i)
  {
    s.reg[Slot(RegCount, i)]
  }

  /** The cells of the E, G and L flags. */
  const E: nat := 7
  const G: nat := 6
  const L: nat := 5

  // ---------------------------------------------------------------------
  // The dispatcher
  // ---------------------------------------------------------------------

  /** A flag cell holding 1 still holds 1 in t. */
  ghost predicate FlagsKept(s: State, t: State)
    requires s.Valid() && t.Valid()
  {
    forall i | 0 <= i < FlagCount :: s.flags[i] == 1 ==> t.flags[i] == 1
  }

  /**
   * What every handler leaves alone: only HLT sets `halted`, only CALL, RET
   * and the jumps assign `pc`, and no handler clears a flag.
   */
  lemma ExecuteFrame(op: Isa.Op, s: State)
    requires s.Valid()
    ensures Execute(op, s).Ok? ==>
      var t := Execute(op, s).value;
      && (op != Isa.HLT ==> t.halted == s.halted)
      && (!op.SetsPcItself() ==> t.pc == s.pc)
      && FlagsKept(s, t)
  {
    if IsArith(op) {
      ArithFrame(AluName(op), s);
      assert Execute(op, s) == Arith(AluName(op), s);
    } else if op.SetsPcItself() {
      JumpFrame(op, s);
    } else {
      DataFrame(op, s);
    }
  }

  /** The handlers that move data, and NOT, leave `pc` and the flags alone. */
  lemma DataFrame(op: Isa.Op, s: State)
    requires s.Valid() && !IsArith(op) && !op.SetsPcItself()
    ensures Execute(op, s).Ok? ==>
      var t := Execute(op, s).value;
      && (op != Isa.HLT ==> t.halted == s.halted)
      && t.pc == s.pc && t.flags == s.flags
  {
    if op == Isa.NOT {
      var a := Get(s.ram, s.pc + 1);
      if a.Ok? {
        AluChangesOnlyTarget(NOT, a.value, 0, s);
      }
    }
  }

  /** CALL, RET and the jumps leave `halted` and the flags alone. */
  lemma JumpFrame(op: Isa.Op, s: State)
    requires s.Valid() && op.SetsPcItself()
    ensures Execute(op, s).Ok? ==>
      var t := Execute(op, s).value;
      t.halted == s.halted && t.flags == s.flags
  {
  }

  /** The two-operand ALU handlers change registers or flags, and set no flag back to 0. */
  lemma ArithFrame(op: AluOp, s: State)
    requires s.Valid() && op != NOT
    ensures Arith(op, s).Ok? ==>
      var t := Arith(op, s).value;
      t.halted == s.halted && t.pc == s.pc && FlagsKept(s, t)
  {
    var ops := GetOperands(s);
    if ops.Ok? {
      var (a, b) := ops.value;
      if op == CMP {
        CompareSetsOneFlag(a, b, s);
      } else {
        AluChangesOnlyTarget(op, a, b, s);
      }
    }
  }

  /**
   * An instruction other than HLT whose opcode has bit 4 clear runs its
   * handler and then moves `pc` past itself and its operand bytes.
   */
  lemma StepAdvancesPastOperands(op: Isa.Op, s: State)
    requires s.Valid() && !s.halted && op != Isa.HLT && !op.SetsPcItself()
    requires Get(s.ram, s.pc) == Ok(Isa.Opcode(op))
    ensures Step(s) == (var t :- Execute(op, s); Ok(t.(pc := s.pc + Isa.OperandCount(op) + 1)))
  {
    var ir := Isa.Opcode(op);
    Isa.DecodeOpcode(op);
    Isa.SetsPcExactlyForJumps(op);
    Isa.OperandBitsMatchHandlers(op);
    ExecuteFrame(op, s);
    assert Step(s) == Dispatch(ir, s);
    DispatchDecoded(ir, op, s);
  }

  /** Dispatching a byte that the table maps to `op` runs op's handler. */
  lemma DispatchDecoded(ir: int, op: Isa.Op, s: State)
    requires s.Valid() && Isa.Decode(ir) == Isa.Some(op)
    ensures Dispatch(ir, s) == Perform(ir, op, s)
  {
  }

  /**
   * The handlers read the operand bytes the opcode's top two bits announce:
   * when one of them lies outside RAM the handler raises IndexError. JEQ and
   * JNE read theirs only when they jump (JeqBranches, JneBranches).
   */
  lemma HandlersReadTheirOperands(op: Isa.Op, s: State, k: int)
    requires s.Valid() && op != Isa.JEQ && op != Isa.JNE
    requires 1 <= k <= Isa.OperandCount(op) && !HasOperand(s, k)
    ensures Execute(op, s) == Err(IndexError)
  {
    if IsArith(op) {
      assert Execute(op, s) == Arith(AluName(op), s);
    }
  }

  /** The RAM cells the handler of `op` reads: its operand bytes, and the stack cell POP or RET loads. */
  predicate ReadsCell(op: Isa.Op, s: State, c: int)
    requires s.Valid()
  {
    || (1 <= Isa.OperandCount(op) && HasOperand(s, 1) && Slot(RamSize, s.pc + 1) == c)
    || (2 <= Isa.OperandCount(op) && HasOperand(s, 2) && Slot(RamSize, s.pc + 2) == c)
    || (op == Isa.POP && InRange(RamSize, s.sp) && Slot(RamSize, s.sp) == c)
    || (op == Isa.RET && InRange(RegCount, s.sp) && InRange(RamSize, RegAt(s, s.sp))
        && Slot(RamSize, RegAt(s, s.sp)) == c)
  }

  /** u is t with at most RAM cell c changed. */
  predicate DifferOnlyAt(c: nat, t: State, u: State) {
    c < |t.ram| == |u.ram| && u == t.(ram := t.ram[c := u.ram[c]])
  }

  /** Two handler results that fail alike, or succeed with states differing at most in RAM cell c. */
  predicate AgreeBeyond(c: nat, r: Result<State>, r': Result<State>) {
    && (r.Err? ==> r' == r)
    && (r.Ok? ==> r'.Ok? && DifferOnlyAt(c, r.value, r'.value))
  }

  /** Reading a list slot other than c is unaffected by a change at c. */
  lemma GetBeyond(xs: seq<int>, ys: seq<int>, c: nat, i: int)
    requires c < |xs| == |ys| && ys == xs[c := ys[c]]
    requires !(InRange(|xs|, i) && Slot(|xs|, i) == c)
    ensures Get(ys, i) == Get(xs, i)
  {
  }

  /** Alu reads only registers and flags. */
  lemma AluIgnoresRam(op: AluOp, a: int, b: int, s: State, s': State, c: nat)
    requires s.Valid() && s'.Valid() && DifferOnlyAt(c, s, s')
    ensures AgreeBeyond(c, Alu(op, a, b, s), Alu(op, a, b, s'))
  {
  }

  lemma ArithReadsNoOtherCell(op: AluOp, s: State, s': State, c: nat)
    requires s.Valid() && s'.Valid() && DifferOnlyAt(c, s, s') && op != NOT
    requires !(HasOperand(s, 1) && Slot(RamSize, s.pc + 1) == c)
    requires !(HasOperand(s, 2) && Slot(RamSize, s.pc + 2) == c)
    ensures AgreeBeyond(c, Arith(op, s), Arith(op, s'))
  {
    GetBeyond(s.ram, s'.ram, c, s.pc + 1);
    GetBeyond(s.ram, s'.ram, c, s.pc + 2);
    assert GetOperands(s') == GetOperands(s);
    if GetOperands(s).Ok? {
      var (a, b) := GetOperands(s).value;
      AluIgnoresRam(op, a, b, s, s', c);
    }
  }

  lemma NotReadsNoOtherCell(s: State, s': State, c: nat)
    requires s.Valid() && s'.Valid() && DifferOnlyAt(c, s, s')
    requires !(HasOperand(s, 1) && Slot(RamSize, s.pc + 1) == c)
    ensures AgreeBeyond(c, NotOp(s), NotOp(s'))
  {
    GetBeyond(s.ram, s'.ram, c, s.pc + 1);
    if HasOperand(s, 1) {
      AluIgnoresRam(NOT, Operand(s, 1), 0, s, s', c);
    }
  }

  lemma LdiReadsNoOtherCell(s: State, s': State, c: nat)
    requires s.Valid() && s'.Valid() && DifferOnlyAt(c, s, s')
    requires !(HasOperand(s, 1) && Slot(RamSize, s.pc + 1) == c)
    requires !(HasOperand(s, 2) && Slot(RamSize, s.pc + 2) == c)
    ensures AgreeBeyond(c, Ldi(s), Ldi(s'))
  {
    GetBeyond(s.ram, s'.ram, c, s.pc + 1);
    GetBeyond(s.ram, s'.ram, c, s.pc + 2);
  }

  lemma PrnReadsNoOtherCell(s: State, s': State, c: nat)
    requires s.Valid() && s'.Valid() && DifferOnlyAt(c, s, s')
    requires !(HasOperand(s, 1) && Slot(RamSize, s.pc + 1) == c)
    ensures AgreeBeyond(c, Prn(s), Prn(s'))
  {
    GetBeyond(s.ram, s'.ram, c, s.pc + 1);
  }

  lemma PushReadsNoOtherCell(s: State, s': State, c: nat)
    requires s.Valid() && s'.Valid() && DifferOnlyAt(c, s, s')
    requires !(HasOperand(s, 1) && Slot(RamSize, s.pc + 1) == c)
    ensures AgreeBeyond(c, Push(s), Push(s'))
  {
    GetBeyond(s.ram, s'.ram, c, s.pc + 1);
  }

  lemma PopReadsNoOtherCell(s: State, s': State, c: nat)
    requires s.Valid() && s'.Valid() && DifferOnlyAt(c, s, s')
    requires !(HasOperand(s, 1) && Slot(RamSize, s.pc + 1) == c)
    requires !(InRange(RamSize, s.sp) && Slot(RamSize, s.sp) == c)
    ensures AgreeBeyond(c, Pop(s), Pop(s'))
  {
    GetBeyond(s.ram, s'.ram, c, s.pc + 1);
    GetBeyond(s.ram, s'.ram, c, s.sp);
  }

  lemma CallReadsNoOtherCell(s: State, s': State, c: nat)
    requires s.Valid() && s'.Valid() && DifferOnlyAt(c, s, s')
    requires !(HasOperand(s, 1) && Slot(RamSize, s.pc + 1) == c)
    ensures AgreeBeyond(c, Call(s), Call(s'))
  {
    if InRange(RegCount, s.sp - 1) && InRange(RamSize, RegAt(s, s.sp - 1)) {
      var t := Slot(RamSize, RegAt(s, s.sp - 1));
      var ram, ram' := s.ram[t := s.pc + 2], s'.ram[t := s.pc + 2];
      assert c < |ram| == |ram'| && ram' == ram[c := ram'[c]];
      GetBeyond(ram, ram', c, s.pc + 1);
    }
  }

  lemma RetReadsNoOtherCell(s: State, s': State, c: nat)
    requires s.Valid() && s'.Valid() && DifferOnlyAt(c, s, s')
    requires !(InRange(RegCount, s.sp) && InRange(RamSize, RegAt(s, s.sp)) && Slot(RamSize, RegAt(s, s.sp)) == c)
    ensures AgreeBeyond(c, Ret(s), Ret(s'))
  {
    if InRange(RegCount, s.sp) {
      GetBeyond(s.ram, s'.ram, c, RegAt(s, s.sp));
    }
  }

  lemma JumpReadsNoOtherCell(op: Isa.Op, s: State, s': State, c: nat)
    requires s.Valid() && s'.Valid() && DifferOnlyAt(c, s, s') && op in {Isa.JEQ, Isa.JNE, Isa.JMP}
    requires !(HasOperand(s, 1) && Slot(RamSize, s.pc + 1) == c)
    ensures AgreeBeyond(c, Execute(op, s), Execute(op, s'))
  {
    GetBeyond(s.ram, s'.ram, c, s.pc + 1);
    assert JumpTarget(s') == JumpTarget(s);
    if op == Isa.JEQ {
      assert Execute(op, s) == Jeq(s) && Execute(op, s') == Jeq(s');
    } else if op == Isa.JNE {
      assert Execute(op, s) == Jne(s) && Execute(op, s') == Jne(s');
    } else {
      assert Execute(op, s) == Jmp(s) && Execute(op, s') == Jmp(s');
    }
  }

  /**
   * A handler depends on RAM only through the cells it reads: changing any
   * other cell changes neither whether it fails nor anything but that cell
   * in its result (CALL and PUSH may overwrite the cell, making the two
   * results equal).
   */
  lemma HandlersReadNoOtherCell(op: Isa.Op, s: State, s': State, c: nat)
    requires s.Valid() && s'.Valid() && DifferOnlyAt(c, s, s') && !ReadsCell(op, s, c)
    ensures Execute(op, s).Err? ==> Execute(op, s') == Execute(op, s)
    ensures Execute(op, s).Ok? ==>
      Execute(op, s').Ok? && DifferOnlyAt(c, Execute(op, s).value, Execute(op, s').value)
  {
    if IsArith(op) {
      assert Isa.OperandCount(op) == 2;
      ArithReadsNoOtherCell(AluName(op), s, s', c);
      assert Execute(op, s) == Arith(AluName(op), s);
      assert Execute(op, s') == Arith(AluName(op), s');
    } else {
      OthersReadNoOtherCell(op, s, s', c);
    }
  }

  lemma OthersReadNoOtherCell(op: Isa.Op, s: State, s': State, c: nat)
    requires s.Valid() && s'.Valid() && DifferOnlyAt(c, s, s') && !ReadsCell(op, s, c)
    requires !IsArith(op)
    ensures AgreeBeyond(c, Execute(op, s), Execute(op, s'))
  {
    if op == Isa.NOT {
      NotReadsNoOtherCell(s, s', c);
    } else if op == Isa.LDI {
      LdiReadsNoOtherCell(s, s', c);
    } else if op == Isa.PRN {
      PrnReadsNoOtherCell(s, s', c);
    } else if op == Isa.PUSH {
      PushReadsNoOtherCell(s, s', c);
    } else if op == Isa.POP {
      PopReadsNoOtherCell(s, s', c);
    } else if op == Isa.CALL {
      CallReadsNoOtherCell(s, s', c);
    } else if op == Isa.RET {
      RetReadsNoOtherCell(s, s', c);
    } else if op in {Isa.JEQ, Isa.JNE, Isa.JMP} {
      JumpReadsNoOtherCell(op, s, s', c);
    }
  }

  /** HLT stops the machine where it stands: `pc` is not advanced. */
  lemma StepHalts(s: State)
    requires s.Valid() && !s.halted
    requires Get(s.ram, s.pc) == Ok(Isa.Opcode(Isa.HLT))
    ensures Step(s) == Ok(s.(halted := true))
  {
    Isa.DecodeOpcode(Isa.HLT);
    Isa.SetsPcExactlyForJumps(Isa.HLT);
  }

  /** For CALL, RET, JEQ, JNE and JMP, `pc` is exactly what the handler left. */
  lemma StepLeavesPcToJumps(op: Isa.Op, s: State)
    requires s.Valid() && !s.halted && op.SetsPcItself()
    requires Get(s.ram, s.pc) == Ok(Isa.Opcode(op))
    ensures Step(s) == Execute(op, s)
  {
    Isa.DecodeOpcode(op);
    Isa.SetsPcExactlyForJumps(op);
  }

  /** A byte missing from the opcode table changes nothing, so the machine spins on it. */
  lemma StepUnknownOpcode(s: State, ir: int)
    requires s.Valid() && !s.halted
    requires Get(s.ram, s.pc) == Ok(ir) && Isa.Decode(ir).None?
    ensures Step(s) == Ok(s)
    ensures Run(s, 1) == Ok(s)
  {
  }

  /** Running m and then n iterations is running m + n iterations. */
  lemma {:induction false} RunSplit(s: State, m: nat, n: nat)
    requires s.Valid()
    ensures Run(s, m + n) == (var t :- Run(s, m); Run(t, n))
    decreases m
  {
    if m != 0 && !s.halted {
      var t := Step(s);
      if t.Ok? {
        RunSplit(t.value, m - 1, n);
        assert m + n - 1 == (m - 1) + n;
      }
    }
  }

  // ---------------------------------------------------------------------
  // Data movement
  // ---------------------------------------------------------------------

  /**
   * LDI fails exactly when one of its bytes or the register is out of
   * range; otherwise it sets that one register to the immediate byte and
   * nothing else changes.
   */
  lemma LdiLoads(s: State)
    requires s.Valid()
    ensures Ldi(s).Ok? <==>
      HasOperand(s, 1) && HasOperand(s, 2) && InRange(RegCount, Operand(s, 1))
    ensures Ldi(s).Ok? ==>
      var t := Ldi(s).value;
      var k := Slot(RegCount, Operand(s, 1));
      && t.reg[k] == Operand(s, 2)
      && (forall i | 0 <= i < RegCount && i != k :: t.reg[i] == s.reg[i])
      && t.(reg := s.reg) == s
  {
  }

  /** PRN appends the register to the output and changes nothing else. */
  lemma PrnPrints(s: State)
    requires s.Valid()
    ensures Prn(s).Ok? <==> HasOperand(s, 1) && InRange(RegCount, Operand(s, 1))
    ensures Prn(s).Ok? ==>
      Prn(s).value == s.(output := s.output + [RegAt(s, Operand(s, 1))])
  {
  }

  // ---------------------------------------------------------------------
  // Comparison and jumps
  // ---------------------------------------------------------------------

  /**
   * CMP writes 1 into exactly one of the E, L and G cells, chosen by how
   * reg[a] compares with reg[b]; no flag is ever cleared and nothing else
   * changes.
   */
  lemma CompareSetsOneFlag(a: int, b: int, s: State)
    requires s.Valid()
    ensures Alu(CMP, a, b, s).Ok? <==> InRange(RegCount, a) && InRange(RegCount, b)
    ensures Alu(CMP, a, b, s).Ok? ==>
      var t := Alu(CMP, a, b, s).value;
      var x, y := RegAt(s, a), RegAt(s, b);
      && t.flags[E] == (if x == y then 1 else s.flags[E])
      && t.flags[L] == (if x < y then 1 else s.flags[L])
      && t.flags[G] == (if x > y then 1 else s.flags[G])
      && (forall i | 0 <= i < L :: t.flags[i] == s.flags[i])
      && t.(flags := s.flags) == s
  {
  }

  /**
   * So once a compare has set a flag it stays set for the rest of the run:
   * after an equal compare, a later unequal one leaves E set and JEQ still
   * jumps.
   */
  lemma {:induction false} RunKeepsFlags(s: State, fuel: nat)
    requires s.Valid()
    ensures Run(s, fuel).Ok? ==> FlagsKept(s, Run(s, fuel).value)
    decreases fuel
  {
    if fuel != 0 && !s.halted {
      StepKeepsFlags(s);
      var t := Step(s);
      if t.Ok? {
        RunKeepsFlags(t.value, fuel - 1);
      }
    }
  }

  /** One iteration of the loop keeps every set flag. */
  lemma StepKeepsFlags(s: State)
    requires s.Valid() && !s.halted
    ensures Step(s).Ok? ==> FlagsKept(s, Step(s).value)
  {
    var ir := Get(s.ram, s.pc);
    if ir.Ok? && Isa.Decode(ir.value).Some? {
      ExecuteFrame(Isa.Decode(ir.value).value, s);
    }
  }

  /** JEQ jumps to the register named by its operand iff E is 1, and otherwise skips itself. */
  lemma JeqBranches(s: State)
    requires s.Valid()
    ensures s.flags[E] != 1 ==> Jeq(s) == Ok(s.(pc := s.pc + 2))
    ensures s.flags[E] == 1 ==>
      && (Jeq(s).Ok? <==> HasOperand(s, 1) && InRange(RegCount, Operand(s, 1)))
      && (Jeq(s).Ok? ==> Jeq(s).value == s.(pc := RegAt(s, Operand(s, 1))))
  {
  }

  /** JNE jumps to the register named by its operand iff E is 0, and otherwise skips itself. */
  lemma JneBranches(s: State)
    requires s.Valid()
    ensures s.flags[E] != 0 ==> Jne(s) == Ok(s.(pc := s.pc + 2))
    ensures s.flags[E] == 0 ==>
      && (Jne(s).Ok? <==> HasOperand(s, 1) && InRange(RegCount, Operand(s, 1)))
      && (Jne(s).Ok? ==> Jne(s).value == s.(pc := RegAt(s, Operand(s, 1))))
  {
  }

  /** JMP always jumps to the register named by its operand. */
  lemma JmpJumps(s: State)
    requires s.Valid()
    ensures Jmp(s).Ok? <==> HasOperand(s, 1) && InRange(RegCount, Operand(s, 1))
    ensures Jmp(s).Ok? ==> Jmp(s).value == s.(pc := RegAt(s, Operand(s, 1)))
  {
  }

  // ---------------------------------------------------------------------
  // Stack and subroutines
  // ---------------------------------------------------------------------

  /** PUSH decrements sp and stores the named register at the new `ram[sp]`; nothing else changes. */
  lemma PushStores(s: State)
    requires s.Valid()
    ensures Push(s).Ok? <==>
      HasOperand(s, 1) && InRange(RegCount, Operand(s, 1)) && InRange(RamSize, s.sp - 1)
    ensures Push(s).Ok? ==>
      Push(s).value == s.(ram := s.ram[Slot(RamSize, s.sp - 1) := RegAt(s, Operand(s, 1))], sp := s.sp - 1)
  {
  }

  /** POP loads `ram[sp]` into the named register and increments sp; nothing else changes. */
  lemma PopLoads(s: State)
    requires s.Valid()
    ensures Pop(s).Ok? <==>
      HasOperand(s, 1) && InRange(RamSize, s.sp) && InRange(RegCount, Operand(s, 1))
    ensures Pop(s).Ok? ==>
      Pop(s).value == s.(reg := s.reg[Slot(RegCount, Operand(s, 1)) := s.ram[Slot(RamSize, s.sp)]], sp := s.sp + 1)
  {
  }

  /** The RAM CALL leaves: `pc + 2` stored at the cell named by `reg[sp - 1]`. */
  function CallStore(s: State): seq<int>
    requires s.Valid() && InRange(RegCount, s.sp - 1) && InRange(RamSize, RegAt(s, s.sp - 1))
  {
    s.ram[Slot(RamSize, RegAt(s, s.sp - 1)) := s.pc + 2]
  }

  /**
   * CALL stores the return address `pc + 2` at `ram[reg[sp - 1]]`,
   * decrements sp and jumps to the register named by the byte after `pc`,
   * that byte read after the store; nothing else changes.
   */
  lemma CallJumps(s: State)
    requires s.Valid()
    ensures Call(s).Ok? <==>
      && InRange(RegCount, s.sp - 1) && InRange(RamSize, RegAt(s, s.sp - 1))
      && HasOperand(s, 1) && InRange(RegCount, CallStore(s)[Slot(RamSize, s.pc + 1)])
    ensures Call(s).Ok? ==>
      && InRange(RegCount, s.sp - 1) && InRange(RamSize, RegAt(s, s.sp - 1)) && HasOperand(s, 1)
      && InRange(RegCount, CallStore(s)[Slot(RamSize, s.pc + 1)])
      && Call(s).value == s.(ram := CallStore(s), sp := s.sp - 1,
                             pc := RegAt(s, CallStore(s)[Slot(RamSize, s.pc + 1)]))
  {
  }

  /** RET loads `pc` from `ram[reg[sp]]` and increments sp; nothing else changes. */
  lemma RetReturns(s: State)
    requires s.Valid()
    ensures Ret(s).Ok? <==> InRange(RegCount, s.sp) && InRange(RamSize, RegAt(s, s.sp))
    ensures Ret(s).Ok? ==>
      && InRange(RegCount, s.sp) && InRange(RamSize, RegAt(s, s.sp))
      && Ret(s).value == s.(pc := s.ram[Slot(RamSize, RegAt(s, s.sp))], sp := s.sp + 1)
  {
  }

  /**
   * PUSH r followed by POP r': r' receives the value r held, `sp` is back
   * where it was, and both instructions addressed `ram[sp - 1]` through the
   * `sp` field.
   */
  lemma PushThenPop(s: State, r: int, r': int)
    requires s.Valid() && !s.halted
    requires Get(s.ram, s.pc) == Ok(Isa.Opcode(Isa.PUSH)) && Get(s.ram, s.pc + 1) == Ok(r)
    requires Step(s).Ok?
    requires var t := Step(s).value;
      && !t.halted && Get(t.ram, t.pc) == Ok(Isa.Opcode(Isa.POP))
      && Get(t.ram, t.pc + 1) == Ok(r') && Step(t).Ok?
    ensures var t := Step(s).value;
      var u := Step(t).value;
      && t.sp == s.sp - 1
      && Get(t.ram, t.sp) == Get(s.reg, r)
      && u.sp == s.sp
      && Get(u.reg, r') == Get(s.reg, r)
      && u.pc == s.pc + 4
    ensures var t := Step(s).value;
      var u := Step(t).value;
      // PUSH changes one RAM cell, sp and pc; POP one register, sp and pc
      && Get(s.reg, r).Ok?
      && Put(s.ram, s.sp - 1, Get(s.reg, r).value) == Ok(t.ram)
      && t == s.(ram := t.ram, sp := s.sp - 1, pc := s.pc + 2)
      && Put(s.reg, r', Get(s.reg, r).value) == Ok(u.reg)
      && u == s.(ram := t.ram, reg := u.reg, pc := s.pc + 4)
  {
    StepAdvancesPastOperands(Isa.PUSH, s);
    var t := Step(s).value;
    StepAdvancesPastOperands(Isa.POP, t);
  }

  /**
   * CALL at address p followed, after any instructions that leave `sp`,
   * reg[sp] and the memory cell it names as CALL left them, by RET: control
   * returns to p + 2, `sp` is restored, and nothing else changes.
   */
  lemma CallThenRet(s: State, v: State, cell: int)
    requires s.Valid() && !s.halted
    requires Get(s.ram, s.pc) == Ok(Isa.Opcode(Isa.CALL)) && Step(s).Ok?
    requires var t := Step(s).value;
      && v.Valid() && !v.halted && Get(v.ram, v.pc) == Ok(Isa.Opcode(Isa.RET))
      && v.sp == t.sp && Get(t.reg, t.sp) == Ok(cell) && Get(v.reg, v.sp) == Ok(cell)
      && Get(v.ram, cell) == Get(t.ram, cell)
    ensures Step(s).value.sp == s.sp - 1
    ensures Step(v) == Ok(v.(pc := s.pc + 2, sp := s.sp))
  {
    StepLeavesPcToJumps(Isa.CALL, s);
    StepLeavesPcToJumps(Isa.RET, v);
    var t := Step(s).value;
    assert Call(s) == Ok(t);
    assert Get(t.ram, cell) == Ok(s.pc + 2);
  }

  /**
   * From the initial registers and `sp`, PUSH stores into ram[6] (the `sp`
   * field minus one) while CALL stores its return address into ram[0] (the
   * cell named by reg[6]), not next to the 0xF4 held in reg[7].
   */
  lemma InitialStackTargets(s: State)
    requires s.Valid() && s.sp == Initial().sp && s.reg == Initial().reg
    ensures Push(s).Ok? ==> Push(s).value.ram == s.ram[6 := RegAt(s, Operand(s, 1))]
    ensures Call(s).Ok? ==> Call(s).value.ram == s.ram[0 := s.pc + 2]
  {
  }

  /**
   * Register 7 starts at 0xF4 and becomes a stack address as soon as sp
   * moves: RET with sp at 7 returns to `ram[0xF4]`, CALL with sp at 8
   * stores its return address there.
   */
  lemma InitialRegister7AsAddress(s: State)
    requires s.Valid() && s.reg == Initial().reg
    ensures s.sp == 7 ==> Ret(s) == Ok(s.(pc := s.ram[0xF4], sp := 8))
    ensures s.sp == 8 && Call(s).Ok? ==> Call(s).value.ram == s.ram[0xF4 := s.pc + 2]
  {
  }

  // ---------------------------------------------------------------------
  // The ALU
  // ---------------------------------------------------------------------

  /** Every ALU operation but CMP changes only reg[a]; CMP changes only flags. */
  lemma AluChangesOnlyTarget(op: AluOp, a: int, b: int, s: State)
    requires s.Valid()
    ensures Alu(op, a, b, s).Ok? && op == CMP ==>
      Alu(op, a, b, s).value.(flags := s.flags) == s
    ensures Alu(op, a, b, s).Ok? && op != CMP ==>
      && InRange(RegCount, a)
      && (var t := Alu(op, a, b, s).value;
          t == s.(reg := s.reg[Slot(RegCount, a) := RegAt(t, a)]))
  {
  }

  /** ADD then SUB with distinct registers gives back the original state. */
  lemma AddThenSubRestores(a: int, b: int, s: State)
    requires s.Valid() && InRange(RegCount, a) && InRange(RegCount, b)
    requires Slot(RegCount, a) != Slot(RegCount, b)
    ensures Alu(ADD, a, b, s).Ok?
    ensures Alu(SUB, a, b, Alu(ADD, a, b, s).value) == Ok(s)
  {
    var t := Alu(ADD, a, b, s).value;
    assert t.reg[Slot(RegCount, a) := RegAt(s, a)] == s.reg;
  }

  /** When a and b name the same register, ADD then SUB leaves 0 there instead. */
  lemma AddThenSubAliased(a: int, b: int, s: State)
    requires s.Valid() && InRange(RegCount, a) && InRange(RegCount, b)
    requires Slot(RegCount, a) == Slot(RegCount, b)
    ensures Alu(ADD, a, b, s).Ok?
    ensures var u := Alu(SUB, a, b, Alu(ADD, a, b, s).value);
      u.Ok? && RegAt(u.value, a) == 0
  {
  }

  /** NOT stores -reg[a] - 1, so NOT twice gives back the original state. */
  lemma NotTwiceRestores(a: int, b: int, s: State)
    requires s.Valid() && InRange(RegCount, a)
    ensures Alu(NOT, a, b, s).Ok? && RegAt(Alu(NOT, a, b, s).value, a) == -RegAt(s, a) - 1
    ensures Alu(NOT, a, b, Alu(NOT, a, b, s).value) == Ok(s)
  {
    var t := Alu(NOT, a, b, s).value;
    assert t.reg[Slot(RegCount, a) := RegAt(s, a)] == s.reg;
  }

  /** XOR twice with distinct registers gives back the original state. */
  lemma XorTwiceRestores(a: int, b: int, s: State)
    requires s.Valid() && InRange(RegCount, a) && InRange(RegCount, b)
    requires Slot(RegCount, a) != Slot(RegCount, b)
    ensures Alu(XOR, a, b, s).Ok?
    ensures Alu(XOR, a, b, Alu(XOR, a, b, s).value) == Ok(s)
  {
    var t := Alu(XOR, a, b, s).value;
    XorSelfInverse(RegAt(s, a), RegAt(s, b));
    assert t.reg[Slot(RegCount, a) := RegAt(s, a)] == s.reg;
  }

  /** SHL then SHR by the same non-negative count, with distinct registers, gives back the original state. */
  lemma ShiftLeftThenRightRestores(a: int, b: int, s: State)
    requires s.Valid() && InRange(RegCount, a) && InRange(RegCount, b)
    requires Slot(RegCount, a) != Slot(RegCount, b) && RegAt(s, b) >= 0
    ensures Alu(SHL, a, b, s).Ok?
    ensures Alu(SHR, a, b, Alu(SHL, a, b, s).value) == Ok(s)
  {
    var t := Alu(SHL, a, b, s).value;
    ShiftRightOfShiftLeft(RegAt(s, a), RegAt(s, b));
    assert t.reg[Slot(RegCount, a) := RegAt(s, a)] == s.reg;
  }

  /** A negative shift count raises ValueError. */
  lemma NegativeShiftFails(a: int, b: int, s: State)
    requires s.Valid() && InRange(RegCount, a) && InRange(RegCount, b) && RegAt(s, b) < 0
    ensures Alu(SHL, a, b, s) == Err(ValueError)
    ensures Alu(SHR, a, b, s) == Err(ValueError)
  {
  }

  /**
   * MOD and DIV by a register holding 0 raise ZeroDivisionError; otherwise
   * MOD stores Python's remainder, which has the sign of the divisor.
   */
  lemma ModAndDivByRegister(a: int, b: int, s: State)
    requires s.Valid() && InRange(RegCount, a) && InRange(RegCount, b)
    ensures RegAt(s, b) == 0 ==> Alu(MOD, a, b, s) == Err(ZeroDivisionError)
    ensures RegAt(s, b) == 0 ==> Alu(DIV, a, b, s) == Err(ZeroDivisionError)
    ensures RegAt(s, b) != 0 ==>
      var x, y := RegAt(s, a), RegAt(s, b);
      && Alu(MOD, a, b, s).Ok?
      && (var r := RegAt(Alu(MOD, a, b, s).value, a);
          && x == FloorDiv(x, y) * y + r
          && (y > 0 ==> 0 <= r < y)
          && (y < 0 ==> y < r <= 0))
  {
  }

  /** AND, OR and XOR of two registers holding bytes store a byte. */
  lemma BitwiseKeepsBytes(op: AluOp, a: int, b: int, s: State)
    requires s.Valid() && op in {AND, OR, XOR}
    requires InRange(RegCount, a) && InRange(RegCount, b)
    requires 0 <= RegAt(s, a) < 256 && 0 <= RegAt(s, b) < 256
    ensures Alu(op, a, b, s).Ok?
    ensures 0 <= RegAt(Alu(op, a, b, s).value, a) < 256
  {
    assert Pow2(8) == 256;
    var bits := match op case AND => AndBits case OR => OrBits case _ => XorBits;
    BitwiseBounded(bits, RegAt(s, a), RegAt(s, b), 8);
  }

  // ---------------------------------------------------------------------
  // A whole program
  // ---------------------------------------------------------------------

  /** Memory as the loader leaves it: the program's bytes from address 0, zeros after. */
  function Loaded(program: seq<int>): State
    requires |program| <= RamSize
  {
    Initial().(ram := program + seq(RamSize - |program|, _ => 0))
  }

  /** LDI R0,8; LDI R1,9; ADD R0,R1; PRN R0; HLT */
  const SumProgram: seq<int> := [0x82, 0, 8, 0x82, 1, 9, 0xA0, 0, 1, 0x47, 0, 0x01]

  /** The states the program passes through, one per instruction. */
  function SumTrace(i: nat): State
    requires i <= 5
  {
    var s0 := Loaded(SumProgram);
    if i == 0 then s0
    else if i == 1 then s0.(reg := s0.reg[0 := 8], pc := 3)
    else if i == 2 then s0.(reg := s0.reg[0 := 8][1 := 9], pc := 6)
    else if i == 3 then s0.(reg := s0.reg[0 := 17][1 := 9], pc := 9)
    else if i == 4 then s0.(reg := s0.reg[0 := 17][1 := 9], pc := 11, output := [17])
    else s0.(reg := s0.reg[0 := 17][1 := 9], pc := 11, output := [17], halted := true)
  }

  lemma SumTraceLdi(i: nat)
    requires i < 2
    ensures SumTrace(i).Valid() && !SumTrace(i).halted
    ensures Step(SumTrace(i)) == Ok(SumTrace(i + 1))
  {
    StepAdvancesPastOperands(Isa.LDI, SumTrace(i));
  }

  lemma SumTraceAdd()
    ensures SumTrace(2).Valid() && !SumTrace(2).halted
    ensures Step(SumTrace(2)) == Ok(SumTrace(3))
  {
    var s := SumTrace(2);
    assert s.ram[6] == 0xA0 && s.ram[7] == 0 && s.ram[8] == 1;
    assert GetOperands(s) == Ok((0, 1));
    assert s.reg[0] == 8 && s.reg[1] == 9;
    assert s.reg[0 := 17] == SumTrace(3).reg;
    assert Alu(ADD, 0, 1, s) == Ok(s.(reg := s.reg[0 := 17]));
    StepAdvancesPastOperands(Isa.ADD, s);
  }

  lemma SumTracePrnHlt()
    ensures SumTrace(3).Valid() && !SumTrace(3).halted
    ensures Step(SumTrace(3)) == Ok(SumTrace(4))
    ensures SumTrace(4).Valid() && !SumTrace(4).halted
    ensures Step(SumTrace(4)) == Ok(SumTrace(5))
  {
    var s := SumTrace(3);
    assert s.ram[9] == 0x47 && s.ram[10] == 0 && s.ram[11] == 0x01;
    assert s.reg[0] == 17 && s.output == [];
    assert Get(s.ram, s.pc + 1) == Ok(0) && Get(s.reg, 0) == Ok(17);
    assert s.output + [17] == [17];
    assert Prn(s) == Ok(s.(output := [17]));
    StepAdvancesPastOperands(Isa.PRN, s);
    StepHalts(SumTrace(4));
  }

  /** The program above prints 17 and halts after five instructions. */
  lemma SumProgramPrints17()
    ensures Run(Loaded(SumProgram), 5) == Ok(SumTrace(5))
    ensures SumTrace(5).output == [17] && SumTrace(5).halted
  {
    SumTracePrnHlt();
    assert Run(SumTrace(4), 1) == Ok(SumTrace(5));
    assert Run(SumTrace(3), 2) == Ok(SumTrace(5));
    SumTraceAdd();
    assert Run(SumTrace(2), 3) == Ok(SumTrace(5));
    SumTraceLdi(1);
    assert Run(SumTrace(1), 4) == Ok(SumTrace(5));
    SumTraceLdi(0);
  }
}
