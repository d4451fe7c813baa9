/**
 * The LS-8 machine as values: the state of a `CPU` object, and one function
 * per handler, for `alu`, for one iteration of the dispatch loop in `run` and
 * for a bounded number of iterations. These functions are the specification
 * the imperative class in module Ls8 is proved against.
 */
module Machine {
  import opened PyInt
  import Isa

  /**
   * Why a run stops other than by HLT. The first three are the Python
   * exceptions the handlers can raise; FloatResult marks a DIV by a non-zero
   * register, after which the register holds a Python float and the run
   * leaves this integer model.
   */
  datatype Fault = IndexError | ZeroDivisionError | ValueError | FloatResult

  datatype Result<T> = Ok(value: T) | Err(fault: Fault) {
    predicate IsFailure() { Err? }
    function PropagateFailure<U>(): Result<U> requires Err? { Err(fault) }
    function Extract(): T requires Ok? { value }
  }

  /** What a handler method of the CPU object reports: it finished, or it raised. */
  datatype Outcome = Pass | Fail(fault: Fault)

  const RamSize: nat := 256
  const RegCount: nat := 8
  const FlagCount: nat := 8

  /** The flag cells as the source addresses them: flags[-1], flags[-2], flags[-3]. */
  const EqualFlag: int := -1
  const GreaterFlag: int := -2
  const LessFlag: int := -3

  /** Everything a CPU object holds; registers and memory cells are unbounded ints. */
  datatype State = State(
    ram: seq<int>,
    reg: seq<int>,
    flags: seq<int>,
    pc: int,
    sp: int,
    halted: bool,
    output: seq<int>)
  {
    predicate Valid() {
      |ram| == RamSize && |reg| == RegCount && |flags| == FlagCount
    }
  }

  /** The state `__init__` builds: `sp` is the field 7, and register 7 separately holds 0xF4. */
  function Initial(): (s: State)
    ensures s.Valid() && !s.halted && s.output == []
    ensures 0 <= s.sp < RegCount && s.reg[s.sp] == 0xF4
  {
    State(seq(RamSize, _ => 0), seq(RegCount, i => if i == 7 then 0xF4 else 0),
          seq(FlagCount, _ => 0), 0, 7, false, [])
  }

  // ---------------------------------------------------------------------
  // Python list access
  // ---------------------------------------------------------------------

  /** `xs[i]`. */
  function Get(xs: seq<int>, i: int): (r: Result<int>)
    ensures r.Ok? <==> InRange(|xs|, i)
  {
    if InRange(|xs|, i) then Ok(xs[Slot(|xs|, i)]) else Err(IndexError)
  }

  /** `xs[i] = v`, giving the updated list. */
  function Put(xs: seq<int>, i: int, v: int): (r: Result<seq<int>>)
    ensures r.Ok? <==> InRange(|xs|, i)
    ensures r.Ok? ==> |r.value| == |xs|
  {
    if InRange(|xs|, i) then Ok(xs[Slot(|xs|, i) := v]) else Err(IndexError)
  }

  /** `ram_write(address, value)`. */
  function RamWrite(s: State, address: int, value: int): (r: Result<State>)
    requires s.Valid()
    ensures r.Ok? ==> r.value.Valid()
  {
    var ram :- Put(s.ram, address, value);
    Ok(s.(ram := ram))
  }

  // ---------------------------------------------------------------------
  // The ALU
  // ---------------------------------------------------------------------

  /** The operation names `alu` accepts. */
  datatype AluOp = ADD | SUB | MUL | DIV | MOD | AND | OR | XOR | SHL | SHR | NOT | CMP

  /** The value `x op y` that a two-operand arithmetic or bitwise operation stores. */
  function Compute(op: AluOp, x: int, y: int): (r: Result<int>)
    requires op != NOT && op != CMP
    ensures r.Err? <==> op == DIV || (op == MOD && y == 0) || ((op == SHL || op == SHR) && y < 0)
    ensures r.Err? ==> r.fault == (if op in {DIV, MOD} && y == 0 then ZeroDivisionError
                                   else if op == DIV then FloatResult else ValueError)
    ensures r.Ok? && op == MOD ==> (0 < y ==> 0 <= r.value < y) && (y < 0 ==> y < r.value <= 0)
  {
    match op
    case ADD => Ok(x + y)
    case SUB => Ok(x - y)
    case MUL => Ok(x * y)
    case DIV => if y == 0 then Err(ZeroDivisionError) else Err(FloatResult)
    case MOD => if y == 0 then Err(ZeroDivisionError) else Ok(FloorMod(x, y))
    case AND => Ok(And(x, y))
    case OR => Ok(Or(x, y))
    case XOR => Ok(Xor(x, y))
    case SHL => if y < 0 then Err(ValueError) else Ok(ShiftLeft(x, y))
    case SHR => if y < 0 then Err(ValueError) else Ok(ShiftRight(x, y))
  }

  /** `alu(op, reg_a, reg_b)`; NOT ignores b. */
  function Alu(op: AluOp, a: int, b: int, s: State): (r: Result<State>)
    requires s.Valid()
    ensures r.Ok? ==> r.value.Valid()
  {
    if op == NOT then
      var x :- Get(s.reg, a);
      Ok(s.(reg := s.reg[Slot(RegCount, a) := Not(x)]))
    else if op == CMP then
      var x :- Get(s.reg, a);
      var y :- Get(s.reg, b);
      var flag := if x == y then EqualFlag else if x < y then LessFlag else GreaterFlag;
      Ok(s.(flags := s.flags[Slot(FlagCount, flag) := 1]))
    else
      var x :- Get(s.reg, a);
      var y :- Get(s.reg, b);
      var v :- Compute(op, x, y);
      Ok(s.(reg := s.reg[Slot(RegCount, a) := v]))
  }

  // ---------------------------------------------------------------------
  // The handlers
  // ---------------------------------------------------------------------

  /** `get_operands()`: the two bytes after `pc`. */
  function GetOperands(s: State): (r: Result<(int, int)>)
    requires s.Valid()
    ensures r.Ok? <==> InRange(RamSize, s.pc + 1) && InRange(RamSize, s.pc + 2)
    ensures r.Ok? ==> r.value == (s.ram[Slot(RamSize, s.pc + 1)], s.ram[Slot(RamSize, s.pc + 2)])
  {
    var a :- Get(s.ram, s.pc + 1);
    var b :- Get(s.ram, s.pc + 2);
    Ok((a, b))
  }

  function Ldi(s: State): (r: Result<State>)
    requires s.Valid()
    ensures r.Ok? ==> r.value.Valid()
  {
    var address :- Get(s.ram, s.pc + 1);
    var value :- Get(s.ram, s.pc + 2);
    var reg :- Put(s.reg, address, value);
    Ok(s.(reg := reg))
  }

  /** PRN: the printed value is appended to `output`. */
  function Prn(s: State): (r: Result<State>)
    requires s.Valid()
    ensures r.Ok? ==> r.value.Valid()
  {
    var address :- Get(s.ram, s.pc + 1);
    var value :- Get(s.reg, address);
    Ok(s.(output := s.output + [value]))
  }

  /** HLT: `sys.exit(0)`, modelled as entering the halted state. */
  function Hlt(s: State): (r: Result<State>)
    requires s.Valid()
    ensures r.Ok? ==> r.value.Valid()
  {
    Ok(s.(halted := true))
  }

  /** add, sub, mul, div, mod, compare, and_op, or_op, xor, shl, shr: operands, then `alu`. */
  function Arith(op: AluOp, s: State): (r: Result<State>)
    requires s.Valid() && op != NOT
    ensures r.Ok? ==> r.value.Valid()
  {
    var (a, b) :- GetOperands(s);
    Alu(op, a, b, s)
  }

  /** not_op: one operand byte, then `alu("NOT", ...)`. */
  function NotOp(s: State): (r: Result<State>)
    requires s.Valid()
    ensures r.Ok? ==> r.value.Valid()
  {
    var a :- Get(s.ram, s.pc + 1);
    Alu(NOT, a, 0, s)
  }

  /** PUSH decrements the `sp` field and stores at `ram[sp]`. */
  function Push(s: State): (r: Result<State>)
    requires s.Valid()
    ensures r.Ok? ==> r.value.Valid()
  {
    var sp := s.sp - 1;
    var address :- Get(s.ram, s.pc + 1);
    var value :- Get(s.reg, address);
    var ram :- Put(s.ram, sp, value);
    Ok(s.(ram := ram, sp := sp))
  }

  /** POP loads from `ram[sp]`, then increments the `sp` field. */
  function Pop(s: State): (r: Result<State>)
    requires s.Valid()
    ensures r.Ok? ==> r.value.Valid()
  {
    var address :- Get(s.ram, s.pc + 1);
    var value :- Get(s.ram, s.sp);
    var reg :- Put(s.reg, address, value);
    Ok(s.(reg := reg, sp := s.sp + 1))
  }

  /**
   * CALL decrements the `sp` field and stores `pc + 2` at `ram[reg[sp]]`;
   * its operand byte is read after that store.
   */
  function Call(s: State): (r: Result<State>)
    requires s.Valid()
    ensures r.Ok? ==> r.value.Valid()
  {
    var returnAddr := s.pc + 2;
    var sp := s.sp - 1;
    var target :- Get(s.reg, sp);
    var ram :- Put(s.ram, target, returnAddr);
    var regNum :- Get(ram, s.pc + 1);
    var subroutine :- Get(s.reg, regNum);
    Ok(s.(ram := ram, sp := sp, pc := subroutine))
  }

  /** RET loads `pc` from `ram[reg[sp]]`, then increments the `sp` field. */
  function Ret(s: State): (r: Result<State>)
    requires s.Valid()
    ensures r.Ok? ==> r.value.Valid()
  {
    var target :- Get(s.reg, s.sp);
    var pc :- Get(s.ram, target);
    Ok(s.(pc := pc, sp := s.sp + 1))
  }

  /** The register named by the byte after `pc`, as a jump target. */
  function JumpTarget(s: State): (r: Result<int>)
    requires s.Valid()
    ensures r.Ok? <==> InRange(RamSize, s.pc + 1) && InRange(RegCount, s.ram[Slot(RamSize, s.pc + 1)])
    ensures r.Ok? ==> r.value == s.reg[Slot(RegCount, s.ram[Slot(RamSize, s.pc + 1)])]
  {
    var address :- Get(s.ram, s.pc + 1);
    Get(s.reg, address)
  }

  function Jeq(s: State): (r: Result<State>)
    requires s.Valid()
    ensures r.Ok? ==> r.value.Valid()
  {
    if s.flags[Slot(FlagCount, EqualFlag)] == 1 then
      var target :- JumpTarget(s);
      Ok(s.(pc := target))
    else
      Ok(s.(pc := s.pc + 2))
  }

  function Jne(s: State): (r: Result<State>)
    requires s.Valid()
    ensures r.Ok? ==> r.value.Valid()
  {
    if s.flags[Slot(FlagCount, EqualFlag)] == 0 then
      var target :- JumpTarget(s);
      Ok(s.(pc := target))
    else
      Ok(s.(pc := s.pc + 2))
  }

  function Jmp(s: State): (r: Result<State>)
    requires s.Valid()
    ensures r.Ok? ==> r.value.Valid()
  {
    var target :- JumpTarget(s);
    Ok(s.(pc := target))
  }

  /** The instructions whose handler reads two operand bytes and passes them to `alu`. */
  predicate IsArith(op: Isa.Op) {
    op in {Isa.ADD, Isa.SUB, Isa.MUL, Isa.DIV, Isa.MOD, Isa.CMP,
           Isa.AND, Isa.OR, Isa.XOR, Isa.SHL, Isa.SHR}
  }

  /** The operation name such a handler passes to `alu`. */
  function AluName(op: Isa.Op): (a: AluOp)
    requires IsArith(op)
    ensures a != NOT
  {
    if op == Isa.ADD then ADD
    else if op == Isa.SUB then SUB
    else if op == Isa.MUL then MUL
    else if op == Isa.DIV then DIV
    else if op == Isa.MOD then MOD
    else if op == Isa.CMP then CMP
    else if op == Isa.AND then AND
    else if op == Isa.OR then OR
    else if op == Isa.XOR then XOR
    else if op == Isa.SHL then SHL
    else SHR
  }

  /** The handler the opcode table binds to each instruction. */
  function Execute(op: Isa.Op, s: State): (r: Result<State>)
    requires s.Valid()
    ensures r.Ok? ==> r.value.Valid()
  {
    match op
    case LDI => Ldi(s)
    case PRN => Prn(s)
    case HLT => Hlt(s)
    case PUSH => Push(s)
    case POP => Pop(s)
    case CALL => Call(s)
    case RET => Ret(s)
    case JEQ => Jeq(s)
    case JNE => Jne(s)
    case JMP => Jmp(s)
    case NOT => NotOp(s)
    case ADD | SUB | MUL | DIV | MOD | CMP | AND | OR | XOR | SHL | SHR => Arith(AluName(op), s)
  }

  // ---------------------------------------------------------------------
  // The dispatcher
  // ---------------------------------------------------------------------

  /**
   * What the loop in `run` does with a fetched byte `ir`: a byte missing from
   * the table changes nothing, any other runs its handler.
   */
  function Dispatch(ir: int, s: State): (r: Result<State>)
    requires s.Valid()
    ensures r.Ok? ==> r.value.Valid()
  {
    match Isa.Decode(ir)
    case None => Ok(s)
    case Some(op) => Perform(ir, op, s)
  }

  /**
   * The handler for `op` runs; when the opcode's bit 4 is clear, `pc` then
   * advances by the amount decoded from `ir` beforehand. HLT's `sys.exit`
   * leaves before that advance.
   */
  function Perform(ir: int, op: Isa.Op, s: State): (r: Result<State>)
    requires s.Valid()
    ensures r.Ok? ==> r.value.Valid()
  {
    var t :- Execute(op, s);
    if Isa.SetsPc(ir) || t.halted then Ok(t) else Ok(t.(pc := t.pc + Isa.Inc(ir)))
  }

  /** One iteration of the loop in `run`: fetch `ram[pc]` and dispatch it. */
  function Step(s: State): (r: Result<State>)
    requires s.Valid() && !s.halted
    ensures r.Ok? ==> r.value.Valid()
  {
    var ir :- Get(s.ram, s.pc);
    Dispatch(ir, s)
  }

  /** At most `fuel` iterations of `run`, stopping early at HLT or at a fault. */
  function Run(s: State, fuel: nat): (r: Result<State>)
    requires s.Valid()
    ensures r.Ok? ==> r.value.Valid()
    decreases fuel
  {
    if fuel == 0 || s.halted then Ok(s)
    else
      var t :- Step(s);
      Run(t, fuel - 1)
  }
}
