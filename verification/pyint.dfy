/**
 * Python's integer and list-index semantics, as the LS-8 emulator relies on
 * them: registers are unbounded Python ints, `%` rounds toward negative
 * infinity, `&`, `|`, `^`, `~` act on an infinite two's-complement bit string,
 * and a list index may be negative (counting back from the end).
 */
module PyInt {

  // ---------------------------------------------------------------------
  // List indexing
  // ---------------------------------------------------------------------

  /** Python accepts `xs[i]` on a list of length n exactly when -n <= i < n. */
  predicate InRange(n: nat, i: int) {
    -(n as int) <= i < n
  }

  /** The cell that `xs[i]` denotes: i itself, or i counted back from the end. */
  function Slot(n: nat, i: int): (k: nat)
    requires InRange(n, i)
    ensures k < n
    ensures k == i || k == i + n
  {
    if i < 0 then i + n else i
  }

  // ---------------------------------------------------------------------
  // Division and remainder
  // ---------------------------------------------------------------------

  /** Python's `a // b`: the quotient rounded toward negative infinity. */
  function FloorDiv(a: int, b: int): int
    requires b != 0
  {
    if b < 0 && a % b != 0 then a / b - 1 else a / b
  }

  /** Python's `a % b`: the remainder has the sign of the divisor. */
  function FloorMod(a: int, b: int): (r: int)
    requires b != 0
    ensures a == FloorDiv(a, b) * b + r
    ensures 0 < b ==> 0 <= r < b
    ensures b < 0 ==> b < r <= 0
  {
    if b < 0 && a % b != 0 then a % b + b else a % b
  }

  // ---------------------------------------------------------------------
  // Shifts
  // ---------------------------------------------------------------------

  function Pow2(n: nat): (p: nat)
    ensures 1 <= p
  {
    if n == 0 then 1 else 2 * Pow2(n - 1)
  }

  /** Python's `x << n` for a non-negative count. */
  function ShiftLeft(x: int, n: nat): (r: int)
    ensures r < 0 <==> x < 0
    ensures n == 0 ==> r == x
  {
    x * Pow2(n)
  }

  /** Python's `x >> n` for a non-negative count: floor division by 2^n. */
  function ShiftRight(x: int, n: nat): (r: int)
    ensures r < 0 <==> x < 0
    ensures 0 <= x ==> r <= x
  {
    DivKeepsSign(x, Pow2(n));
    x / Pow2(n)
  }

  lemma {:induction false} ShiftRightOfShiftLeft(x: int, n: nat)
    ensures ShiftRight(ShiftLeft(x, n), n) == x
  {
    var p := Pow2(n);
    assert x * p == p * x + 0;
    DivExact(x, p);
  }

  lemma DivExact(x: int, p: int)
    requires 0 < p
    ensures (x * p) / p == x
  {
    var q := (x * p) / p;
    var r := (x * p) % p;
    assert (x - q) * p == r by {
      assert x * p == q * p + r;
    }
    if x - q >= 1 {
      MulGrows(x - q, p);
    }
  }

  /** Floor division by a positive p keeps the sign and does not grow a non-negative x. */
  lemma DivKeepsSign(x: int, p: int)
    requires 0 < p
    ensures x / p < 0 <==> x < 0
    ensures 0 <= x ==> x / p <= x
  {
    var q, r := x / p, x % p;
    var m := q * p;
    assert x == m + r && 0 <= r < p;
    if q < 0 {
      MulNegative(q, p);
    } else {
      MulNonNegative(q, p);
    }
  }

  lemma MulNegative(q: int, p: int)
    requires q < 0 < p
    ensures q * p <= -p
  {
    MulGrows(-q, p);
    assert (-q) * p == -(q * p);
  }

  lemma MulNonNegative(q: int, p: int)
    requires 0 <= q && 0 < p
    ensures 0 <= q <= q * p
  {
    if q >= 1 {
      MulGrows(p, q);
      assert p * q == q * p;
    }
  }

  lemma MulGrows(d: int, p: int)
    requires 1 <= d && 0 < p
    ensures p <= d * p
  {
    assert d * p == (d - 1) * p + p;
    assert 0 <= (d - 1) * p;
  }

  // ---------------------------------------------------------------------
  // Bitwise operations on unbounded integers
  // ---------------------------------------------------------------------

  datatype BitOp = AndBits | OrBits | XorBits

  /** How one bit of each operand combines into one bit of the result. */
  predicate Combine(op: BitOp, x: bool, y: bool) {
    match op
    case AndBits => x && y
    case OrBits => x || y
    case XorBits => x != y
  }

  function Abs(x: int): nat {
    if x < 0 then -x else x
  }

  /** An integer whose bits are all equal: 0 (all clear) or -1 (all set). */
  predicate SignOnly(x: int) {
    x == 0 || x == -1
  }

  /** The lowest bit of x in two's complement. */
  predicate LowBit(x: int) {
    x % 2 == 1
  }

  /**
   * `a & b`, `a | b` or `a ^ b` on Python ints: the lowest bits combine into
   * the lowest bit of the result and the remaining bits (a // 2, b // 2)
   * combine recursively; once both operands are 0 or -1 every remaining bit
   * is the sign bit.
   */
  function Bitwise(op: BitOp, a: int, b: int): (r: int)
    ensures r < 0 <==> Combine(op, a < 0, b < 0)
    decreases Abs(a) + Abs(b)
  {
    if SignOnly(a) && SignOnly(b) then
      (if Combine(op, a == -1, b == -1) then -1 else 0)
    else
      2 * Bitwise(op, a / 2, b / 2) + (if Combine(op, LowBit(a), LowBit(b)) then 1 else 0)
  }

  /** Python's `a & b`: negative exactly when both operands are. */
  function And(a: int, b: int): (r: int)
    ensures r < 0 <==> a < 0 && b < 0
  {
    Bitwise(AndBits, a, b)
  }

  /** Python's `a | b`: negative exactly when either operand is. */
  function Or(a: int, b: int): (r: int)
    ensures r < 0 <==> a < 0 || b < 0
  {
    Bitwise(OrBits, a, b)
  }

  /** Python's `a ^ b`: negative exactly when the operands' signs differ. */
  function Xor(a: int, b: int): (r: int)
    ensures r < 0 <==> (a < 0) != (b < 0)
  {
    Bitwise(XorBits, a, b)
  }

  /** Python's `~x`: it flips the sign bit, and NotIsXorAllOnes shows it flips every other bit. */
  function Not(x: int): (r: int)
    ensures r < 0 <==> 0 <= x
  {
    -x - 1
  }

  /** The recursive step of Bitwise also holds when both operands are 0 or -1. */
  lemma BitwiseStep(op: BitOp, a: int, b: int)
    ensures Bitwise(op, a, b)
         == 2 * Bitwise(op, a / 2, b / 2) + (if Combine(op, LowBit(a), LowBit(b)) then 1 else 0)
  {
  }

  /** `~x` is the complement of every bit: it agrees with `x ^ -1`. */
  lemma {:induction false} NotIsXorAllOnes(x: int)
    ensures Not(x) == Xor(x, -1)
    decreases Abs(x)
  {
    if !SignOnly(x) {
      NotIsXorAllOnes(x / 2);
      BitwiseStep(XorBits, x, -1);
    }
  }

  /** Applying `^ b` twice gives the original value back. */
  lemma {:induction false} XorSelfInverse(a: int, b: int)
    ensures Xor(Xor(a, b), b) == a
    decreases Abs(a) + Abs(b)
  {
    var c := Xor(a, b);
    if !(SignOnly(a) && SignOnly(b)) {
      var bit := if Combine(XorBits, LowBit(a), LowBit(b)) then 1 else 0;
      assert c == 2 * Xor(a / 2, b / 2) + bit;
      assert c / 2 == Xor(a / 2, b / 2) && c % 2 == bit;
      XorSelfInverse(a / 2, b / 2);
      BitwiseStep(XorBits, c, b);
    }
  }

  /** `&`, `|` and `^` of two k-bit non-negative values is again a k-bit non-negative value. */
  lemma {:induction false} BitwiseBounded(op: BitOp, a: int, b: int, k: nat)
    requires 0 <= a < Pow2(k) && 0 <= b < Pow2(k)
    ensures 0 <= Bitwise(op, a, b) < Pow2(k)
    decreases k
  {
    if !(a == 0 && b == 0) {
      assert k > 0;
      BitwiseBounded(op, a / 2, b / 2, k - 1);
    }
  }

  /** `x & 1` is the lowest bit of x, which is how the dispatcher tests a flag bit. */
  lemma AndOneIsLowBit(x: int)
    ensures And(x, 1) == x % 2
  {
    BitwiseStep(AndBits, x, 1);
    AndZero(x / 2);
  }

  lemma {:induction false} AndZero(x: int)
    ensures And(x, 0) == 0
    decreases Abs(x)
  {
    if !SignOnly(x) {
      AndZero(x / 2);
    }
  }
}
