/** Fixed-width unsigned integers and the bitwise operators of C over them.

    C's `uint8_t` and `uint16_t` are modelled as bounded `int`s; every
    wrap-around of the source is written out with `%` where it happens.
    The bitwise operators `|`, `&` and `^` are defined bit by bit, least
    significant bit first, so that what they do to each bit can be proved.
 */
module Bits {

  /** A `uint8_t`: a register, a timer or a byte of memory. */
  type Byte = x: int | 0 <= x < 0x100

  /** A `uint16_t`: the program counter, the address register I, a stack entry. */
  type Word = x: int | 0 <= x < 0x1_0000

  /** One hexadecimal digit of an opcode. */
  type Nibble = x: int | 0 <= x < 0x10

  function Pow2(n: nat): (r: nat)
    ensures r >= 1
  {
    if n == 0 then 1 else 2 * Pow2(n - 1)
  }

  /** Bit `k` of `x` (bit 0 is the least significant). */
  function Bit(x: nat, k: nat): bool
  {
    if k == 0 then x % 2 == 1 else Bit(x / 2, k - 1)
  }

  datatype BitOp = OrBits | AndBits | XorBits

  /** What one bitwise operator does to a single pair of bits. */
  function Combine(op: BitOp, a: bool, b: bool): bool
  {
    match op
    case OrBits => a || b
    case AndBits => a && b
    case XorBits => a != b
  }

  /** `op` applied to the low `n` bits of `a` and `b`. */
  function Bitwise(op: BitOp, a: nat, b: nat, n: nat): (r: nat)
    ensures r < Pow2(n)
    decreases n
  {
    if n == 0 then 0
    else
      var low := if Combine(op, a % 2 == 1, b % 2 == 1) then 1 else 0;
      2 * Bitwise(op, a / 2, b / 2, n - 1) + low
  }

  /** Each of the low `n` bits of the result is `op` of the operands' bits. */
  lemma {:induction false} BitwiseBit(op: BitOp, a: nat, b: nat, n: nat, k: nat)
    requires k < n
    ensures Bit(Bitwise(op, a, b, n), k) == Combine(op, Bit(a, k), Bit(b, k))
    decreases n
  {
    var rest := Bitwise(op, a / 2, b / 2, n - 1);
    var low := if Combine(op, a % 2 == 1, b % 2 == 1) then 1 else 0;
    assert Bitwise(op, a, b, n) == 2 * rest + low;
    assert (2 * rest + low) / 2 == rest && (2 * rest + low) % 2 == low;
    if k > 0 {
      BitwiseBit(op, a / 2, b / 2, n - 1, k - 1);
    }
  }

  /** The per-bit meaning of `op` on the eight bits of a byte. */
  lemma Bitwise8(op: BitOp, a: Byte, b: Byte)
    ensures forall k :: 0 <= k < 8 ==> Bit(Bitwise(op, a, b, 8), k) == Combine(op, Bit(a, k), Bit(b, k))
  {
    forall k | 0 <= k < 8
      ensures Bit(Bitwise(op, a, b, 8), k) == Combine(op, Bit(a, k), Bit(b, k))
    {
      BitwiseBit(op, a, b, 8, k);
    }
  }

  /** C's `a | b` on `uint8_t`. */
  function Or8(a: Byte, b: Byte): (r: Byte)
    ensures forall k :: 0 <= k < 8 ==> Bit(r, k) == (Bit(a, k) || Bit(b, k))
  {
    Bitwise8(OrBits, a, b);
    Bitwise(OrBits, a, b, 8)
  }

  /** C's `a & b` on `uint8_t`. */
  function And8(a: Byte, b: Byte): (r: Byte)
    ensures forall k :: 0 <= k < 8 ==> Bit(r, k) == (Bit(a, k) && Bit(b, k))
  {
    Bitwise8(AndBits, a, b);
    Bitwise(AndBits, a, b, 8)
  }

  /** C's `a ^ b` on `uint8_t`. */
  function Xor8(a: Byte, b: Byte): (r: Byte)
    ensures forall k :: 0 <= k < 8 ==> Bit(r, k) == (Bit(a, k) != Bit(b, k))
  {
    Bitwise8(XorBits, a, b);
    Bitwise(XorBits, a, b, 8)
  }
}
