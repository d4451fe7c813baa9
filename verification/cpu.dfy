/**
 * The `CPU` object of the LS-8 emulator: memory, registers and flags are
 * arrays updated in place, `pc` and `sp` are fields the handlers reassign.
 * Every method is proved to do what the matching function of module Machine
 * says, so the lemmas about those functions hold of the object.
 */
module Ls8 {
  import opened PyInt
  import Isa
  import opened Machine

  class CPU {
    const ram: array<int>
    const reg: array<int>
    const flags: array<int>
    var pc: int
    var sp: int
    var halted: bool
    /** The values PRN has printed, in order. */
    var output: seq<int>

    ghost predicate Valid() {
      && ram.Length == RamSize && reg.Length == RegCount && flags.Length == FlagCount
      && ram != reg && ram != flags && reg != flags
    }

    /** The object's state as a value of module Machine. */
    ghost function Abs(): (s: State)
      requires Valid()
      reads this, ram, reg, flags
      ensures s.Valid()
    {
      State(ram[..], reg[..], flags[..], pc, sp, halted, output)
    }

    /** The result a handler method reports: its fault, or the object's new state. */
    ghost function After(o: Outcome): Result<State>
      requires Valid()
      reads this, ram, reg, flags
    {
      if o.Fail? then Err(o.fault) else Ok(Abs())
    }

    constructor ()
      ensures Valid() && Abs() == Initial()
      ensures fresh(ram) && fresh(reg) && fresh(flags)
    {
      ram := new int[RamSize](_ => 0);
      reg := new int[RegCount](_ => 0);
      flags := new int[FlagCount](_ => 0);
      pc := 0;
      sp := 7;
      halted := false;
      output := [];
      new;
      reg[sp] := 0xF4;
      assert reg[..] == Initial().reg;
    }

    method RamRead(address: int) returns (r: Result<int>)
      requires Valid()
      ensures r == Get(ram[..], address)
    {
      if !InRange(RamSize, address) { return Err(IndexError); }
      r := Ok(ram[Slot(RamSize, address)]);
    }

    method RamWrite(address: int, value: int) returns (o: Outcome)
      requires Valid()
      modifies ram
      ensures Valid() && After(o) == Machine.RamWrite(old(Abs()), address, value)
    {
      if !InRange(RamSize, address) { return Fail(IndexError); }
      ram[Slot(RamSize, address)] := value;
      o := Pass;
    }

    method Alu(op: AluOp, a: int, b: int) returns (o: Outcome)
      requires Valid()
      modifies reg, flags
      ensures Valid() && After(o) == Machine.Alu(op, a, b, old(Abs()))
    {
      if !InRange(RegCount, a) { return Fail(IndexError); }
      var x := reg[Slot(RegCount, a)];
      if op == NOT {
        reg[Slot(RegCount, a)] := Not(x);
        return Pass;
      }
      if !InRange(RegCount, b) { return Fail(IndexError); }
      var y := reg[Slot(RegCount, b)];
      if op == CMP {
        if x == y {
          flags[Slot(FlagCount, EqualFlag)] := 1;
        } else if x < y {
          flags[Slot(FlagCount, LessFlag)] := 1;
        } else {
          flags[Slot(FlagCount, GreaterFlag)] := 1;
        }
        return Pass;
      }
      var v := Compute(op, x, y);
      if v.Err? { return Fail(v.fault); }
      reg[Slot(RegCount, a)] := v.value;
      o := Pass;
    }

    method GetOperands() returns (r: Result<(int, int)>)
      requires Valid()
      ensures r == Machine.GetOperands(Abs())
    {
      if !InRange(RamSize, pc + 1) { return Err(IndexError); }
      var a := ram[Slot(RamSize, pc + 1)];
      if !InRange(RamSize, pc + 2) { return Err(IndexError); }
      var b := ram[Slot(RamSize, pc + 2)];
      r := Ok((a, b));
    }

    method Ldi() returns (o: Outcome)
      requires Valid()
      modifies reg
      ensures Valid() && After(o) == Machine.Ldi(old(Abs()))
    {
      if !InRange(RamSize, pc + 1) { return Fail(IndexError); }
      var address := ram[Slot(RamSize, pc + 1)];
      if !InRange(RamSize, pc + 2) { return Fail(IndexError); }
      var value := ram[Slot(RamSize, pc + 2)];
      if !InRange(RegCount, address) { return Fail(IndexError); }
      reg[Slot(RegCount, address)] := value;
      o := Pass;
    }

    method Prn() returns (o: Outcome)
      requires Valid()
      modifies this
      ensures Valid() && After(o) == Machine.Prn(old(Abs()))
    {
      if !InRange(RamSize, pc + 1) { return Fail(IndexError); }
      var address := ram[Slot(RamSize, pc + 1)];
      if !InRange(RegCount, address) { return Fail(IndexError); }
      var value := reg[Slot(RegCount, address)];
      output := output + [value];
      o := Pass;
    }

    method Hlt() returns (o: Outcome)
      requires Valid()
      modifies this
      ensures Valid() && After(o) == Machine.Hlt(old(Abs()))
    {
      halted := true;
      o := Pass;
    }

    /** add, sub, mul, div, mod, compare, and_op, or_op, xor, shl and shr. */
    method Arith(op: AluOp) returns (o: Outcome)
      requires Valid() && op != NOT
      modifies reg, flags
      ensures Valid() && After(o) == Machine.Arith(op, old(Abs()))
    {
      var operands := GetOperands();
      if operands.Err? { return Fail(operands.fault); }
      var (a, b) := operands.value;
      o := Alu(op, a, b);
    }

    method NotOp() returns (o: Outcome)
      requires Valid()
      modifies reg, flags
      ensures Valid() && After(o) == Machine.NotOp(old(Abs()))
    {
      if !InRange(RamSize, pc + 1) { return Fail(IndexError); }
      var operand := ram[Slot(RamSize, pc + 1)];
      o := Alu(NOT, operand, 0);
    }

    method Push() returns (o: Outcome)
      requires Valid()
      modifies this, ram
      ensures Valid() && After(o) == Machine.Push(old(Abs()))
    {
      sp := sp - 1;
      if !InRange(RamSize, pc + 1) { return Fail(IndexError); }
      var address := ram[Slot(RamSize, pc + 1)];
      if !InRange(RegCount, address) { return Fail(IndexError); }
      var value := reg[Slot(RegCount, address)];
      if !InRange(RamSize, sp) { return Fail(IndexError); }
      ram[Slot(RamSize, sp)] := value;
      o := Pass;
    }

    method Pop() returns (o: Outcome)
      requires Valid()
      modifies this, reg
      ensures Valid() && After(o) == Machine.Pop(old(Abs()))
    {
      if !InRange(RamSize, pc + 1) { return Fail(IndexError); }
      var address := ram[Slot(RamSize, pc + 1)];
      if !InRange(RamSize, sp) { return Fail(IndexError); }
      var value := ram[Slot(RamSize, sp)];
      if !InRange(RegCount, address) { return Fail(IndexError); }
      reg[Slot(RegCount, address)] := value;
      sp := sp + 1;
      o := Pass;
    }

    method Call() returns (o: Outcome)
      requires Valid()
      modifies this, ram
      ensures Valid() && After(o) == Machine.Call(old(Abs()))
    {
      var returnAddr := pc + 2;
      sp := sp - 1;
      if !InRange(RegCount, sp) { return Fail(IndexError); }
      var target := reg[Slot(RegCount, sp)];
      if !InRange(RamSize, target) { return Fail(IndexError); }
      ram[Slot(RamSize, target)] := returnAddr;
      if !InRange(RamSize, pc + 1) { return Fail(IndexError); }
      var regNum := ram[Slot(RamSize, pc + 1)];
      if !InRange(RegCount, regNum) { return Fail(IndexError); }
      pc := reg[Slot(RegCount, regNum)];
      o := Pass;
    }

    method Ret() returns (o: Outcome)
      requires Valid()
      modifies this
      ensures Valid() && After(o) == Machine.Ret(old(Abs()))
    {
      if !InRange(RegCount, sp) { return Fail(IndexError); }
      var target := reg[Slot(RegCount, sp)];
      if !InRange(RamSize, target) { return Fail(IndexError); }
      pc := ram[Slot(RamSize, target)];
      sp := sp + 1;
      o := Pass;
    }

    /** Sets `pc` to the register named by the byte after `pc`. */
    method JumpToOperand() returns (o: Outcome)
      requires Valid()
      modifies this
      ensures Valid()
      ensures After(o) == (var t :- JumpTarget(old(Abs())); Ok(old(Abs()).(pc := t)))
    {
      if !InRange(RamSize, pc + 1) { return Fail(IndexError); }
      var address := ram[Slot(RamSize, pc + 1)];
      if !InRange(RegCount, address) { return Fail(IndexError); }
      pc := reg[Slot(RegCount, address)];
      o := Pass;
    }

    method Jeq() returns (o: Outcome)
      requires Valid()
      modifies this
      ensures Valid() && After(o) == Machine.Jeq(old(Abs()))
    {
      if flags[Slot(FlagCount, EqualFlag)] == 1 {
        o := JumpToOperand();
      } else {
        pc := pc + 2;
        o := Pass;
      }
    }

    method Jne() returns (o: Outcome)
      requires Valid()
      modifies this
      ensures Valid() && After(o) == Machine.Jne(old(Abs()))
    {
      if flags[Slot(FlagCount, EqualFlag)] == 0 {
        o := JumpToOperand();
      } else {
        pc := pc + 2;
        o := Pass;
      }
    }

    method Jmp() returns (o: Outcome)
      requires Valid()
      modifies this
      ensures Valid() && After(o) == Machine.Jmp(old(Abs()))
    {
      o := JumpToOperand();
    }

    /** Calls the handler the opcode table binds to `op`. */
    method Execute(op: Isa.Op) returns (o: Outcome)
      requires Valid()
      modifies this, ram, reg, flags
      ensures Valid() && After(o) == Machine.Execute(op, old(Abs()))
    {
      match op
      case LDI => o := Ldi();
      case PRN => o := Prn();
      case HLT => o := Hlt();
      case PUSH => o := Push();
      case POP => o := Pop();
      case CALL => o := Call();
      case RET => o := Ret();
      case JEQ => o := Jeq();
      case JNE => o := Jne();
      case JMP => o := Jmp();
      case NOT => o := NotOp();
      case ADD | SUB | MUL | DIV | MOD | CMP | AND | OR | XOR | SHL | SHR => o := Arith(AluName(op));
    }

    /** Runs the handler of `op`, then advances `pc` by `inc` unless the handler halted. */
    method ExecuteAndAdvance(op: Isa.Op, inc: int) returns (o: Outcome)
      requires Valid()
      modifies this, ram, reg, flags
      ensures Valid()
      ensures After(o) == (var t :- Machine.Execute(op, old(Abs()));
                           if t.halted then Ok(t) else Ok(t.(pc := t.pc + inc)))
    {
      o := Execute(op);
      if o.Pass? && !halted {
        pc := pc + inc;
      }
    }

    /** The body of the loop in `run` once `ir` is fetched. */
    method Dispatch(ir: int) returns (o: Outcome)
      requires Valid()
      modifies this, ram, reg, flags
      ensures Valid() && After(o) == Machine.Dispatch(ir, old(Abs()))
    {
      var instruction := Isa.Decode(ir);
      var setsPc := Isa.SetsPc(ir);
      if instruction.Some? && !setsPc {
        var inc := Isa.Inc(ir);
        o := ExecuteAndAdvance(instruction.value, inc);
      } else if instruction.Some? {
        o := Execute(instruction.value);
      } else {
        o := Pass;
      }
    }

    /** One iteration of the loop in `run`. */
    method Step() returns (o: Outcome)
      requires Valid() && !halted
      modifies this, ram, reg, flags
      ensures Valid() && After(o) == Machine.Step(old(Abs()))
    {
      if !InRange(RamSize, pc) { return Fail(IndexError); }
      var ir := ram[Slot(RamSize, pc)];
      o := Dispatch(ir);
    }

    /** The loop in `run`, cut off after `fuel` iterations; stops at HLT or at a fault. */
    method Run(fuel: nat) returns (o: Outcome)
      requires Valid()
      modifies this, ram, reg, flags
      ensures Valid() && After(o) == Machine.Run(old(Abs()), fuel)
    {
      var n := 0;
      while n < fuel && !halted
        invariant Valid() && n <= fuel
        invariant Machine.Run(old(Abs()), fuel) == Machine.Run(Abs(), fuel - n)
      {
        o := Step();
        if o.Fail? {
          return;
        }
        n := n + 1;
      }
      o := Pass;
    }
  }
}
