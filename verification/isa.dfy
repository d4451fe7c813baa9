/**
 * The LS-8 instruction set: the opcode table the dispatcher looks bytes up
 * in, and the two fields of an opcode byte that the dispatcher decodes
 * itself (bits 6-7: operand count; bit 4: the instruction sets PC).
 */
module Isa {
  import opened PyInt

  datatype Option<T> = None | Some(value: T)

  datatype Op =
    | LDI | PRN | HLT
    | ADD | SUB | MUL | DIV | MOD
    | PUSH | POP | CALL | RET
    | CMP | JEQ | JNE | JMP
    | AND | OR | NOT | XOR | SHL | SHR
  {
    /** The handlers that assign `pc` themselves (jumps, call and return). */
    predicate SetsPcItself() {
      this in {CALL, RET, JEQ, JNE, JMP}
    }
  }

  /** The byte of each instruction in the opcode table (binary form in the comment). */
  function Opcode(op: Op): (b: nat)
    ensures b < 256
  {
    match op
    case LDI => 0x82   // 10000010
    case PRN => 0x47   // 01000111
    case HLT => 0x01   // 00000001
    case ADD => 0xA0   // 10100000
    case SUB => 0xA1   // 10100001
    case MUL => 0xA2   // 10100010
    case DIV => 0xA3   // 10100011
    case PUSH => 0x45  // 01000101
    case POP => 0x46   // 01000110
    case CALL => 0x50  // 01010000
    case RET => 0x11   // 00010001
    case CMP => 0xA7   // 10100111
    case JEQ => 0x55   // 01010101
    case JNE => 0x56   // 01010110
    case JMP => 0x54   // 01010100
    case AND => 0xA8   // 10101000
    case OR => 0xAA    // 10101010
    case NOT => 0x69   // 01101001
    case XOR => 0xAB   // 10101011
    case SHL => 0xAC   // 10101100
    case SHR => 0xAD   // 10101101
    case MOD => 0xA4   // 10100100
  }

  /** The table lookup `instructions.get(ir)`: any value not in the table gives None. */
  function Decode(ir: int): (op: Option<Op>)
    ensures op.Some? ==> Opcode(op.value) == ir
    ensures op.None? ==> forall o: Op :: Opcode(o) != ir
  {
    if ir == 0x82 then Some(LDI)
    else if ir == 0x47 then Some(PRN)
    else if ir == 0x01 then Some(HLT)
    else if ir == 0xA0 then Some(ADD)
    else if ir == 0xA1 then Some(SUB)
    else if ir == 0xA2 then Some(MUL)
    else if ir == 0xA3 then Some(DIV)
    else if ir == 0x45 then Some(PUSH)
    else if ir == 0x46 then Some(POP)
    else if ir == 0x50 then Some(CALL)
    else if ir == 0x11 then Some(RET)
    else if ir == 0xA7 then Some(CMP)
    else if ir == 0x55 then Some(JEQ)
    else if ir == 0x56 then Some(JNE)
    else if ir == 0x54 then Some(JMP)
    else if ir == 0xA8 then Some(AND)
    else if ir == 0xAA then Some(OR)
    else if ir == 0x69 then Some(NOT)
    else if ir == 0xAB then Some(XOR)
    else if ir == 0xAC then Some(SHL)
    else if ir == 0xAD then Some(SHR)
    else if ir == 0xA4 then Some(MOD)
    else None
  }

  /**
   * The dispatcher's "sets PC" test `(ir >> 4) & 0b1`, written as bit 4 of ir;
   * SetsPcIsBitTest shows the two agree on every int.
   */
  predicate SetsPc(ir: int)
    ensures SetsPc(ir) <==> ir % 32 >= 16
  {
    (ir / 16) % 2 == 1
  }

  /**
   * How far the dispatcher advances `pc` past an instruction, `(ir >> 6) + 1`;
   * IncIsShift shows the two agree on every int.
   */
  function Inc(ir: int): (n: int)
    ensures 0 <= ir < 256 ==> 1 <= n <= 4
  {
    ir / 64 + 1
  }

  lemma SetsPcIsBitTest(ir: int)
    ensures SetsPc(ir) <==> And(ShiftRight(ir, 4), 1) == 1
  {
    AndOneIsLowBit(ShiftRight(ir, 4));
    assert Pow2(4) == 16;
  }

  lemma IncIsShift(ir: int)
    ensures Inc(ir) == ShiftRight(ir, 6) + 1
  {
    assert Pow2(6) == 64;
  }

  /**
   * How many bytes after `pc` each handler reads as operands, counted from
   * the handlers themselves (JEQ and JNE read theirs only when they jump).
   */
  function OperandCount(op: Op): (n: nat)
    ensures n <= 2
  {
    match op
    case HLT | RET => 0
    case PRN | PUSH | POP | CALL | JEQ | JNE | JMP | NOT => 1
    case LDI | ADD | SUB | MUL | DIV | MOD | CMP | AND | OR | XOR | SHL | SHR => 2
  }

  /** Every table entry decodes back to its own instruction, so the table is one-to-one. */
  lemma DecodeOpcode(op: Op)
    ensures Decode(Opcode(op)) == Some(op)
  {
  }

  /** Bit 4 of an opcode is set exactly for CALL, RET, JEQ, JNE and JMP. */
  lemma SetsPcExactlyForJumps(op: Op)
    ensures SetsPc(Opcode(op)) <==> op.SetsPcItself()
  {
  }

  /** The top two bits of every opcode equal the number of operand bytes its handler reads. */
  lemma OperandBitsMatchHandlers(op: Op)
    ensures Inc(Opcode(op)) == OperandCount(op) + 1
  {
  }
}
