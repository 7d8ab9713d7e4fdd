/** What the interpreter promises: the digit split and its inverse, the
    operand macros, the order of the template dispatch, and the effect of
    each implemented branch, stated on `Exec` for every opcode the
    dispatch sends to that branch.
 */
module Chip8Properties {
  import opened Bits
  import opened Chip8Header
  import opened Chip8

  lemma MulSign(n: int, d: int)
    requires n > 0
    ensures d > 0 ==> n * d >= n
    ensures d < 0 ==> n * d <= -n
  {
  }

  /** Quotient and remainder are determined by `q * n + r == a`, `0 <= r < n`. */
  lemma DivModUnique(q: int, r: int, n: int)
    requires n > 0 && 0 <= r < n
    ensures (q * n + r) / n == q && (q * n + r) % n == r
  {
    var a := q * n + r;
    var d := a / n - q;
    assert a == n * (a / n) + a % n;
    assert n * d == n * (a / n) - n * q;
    assert n * d == r - a % n;
    MulSign(n, d);
  }

  // ---------------------------------------------------------------------
  // The header's macros

  /** A template fits exactly when each of its non-negative digits equals
      the opcode's digit in that place; a negative digit fits anything. */
  lemma MatchOpWildcards(h: seq<Nibble>, d: seq<int>)
    requires |h| == 4 && |d| == 4
    ensures MatchOp(h, d[0], d[1], d[2], d[3]) <==> forall i :: 0 <= i < 4 && d[i] >= 0 ==> h[i] == d[i]
  {
    if forall i :: 0 <= i < 4 && d[i] >= 0 ==> h[i] == d[i] {
      assert d[0] >= 0 ==> h[0] == d[0];
      assert d[1] >= 0 ==> h[1] == d[1];
      assert d[2] >= 0 ==> h[2] == d[2];
      assert d[3] >= 0 ==> h[3] == d[3];
    }
  }

  /** `DIGITS2HEX2` of two digits has them as its high and low digit. */
  lemma Digits2Hex2Digits(d0: Nibble, d1: Nibble)
    ensures Digits2Hex2(d0, d1) / 16 == d0 && Digits2Hex2(d0, d1) % 16 == d1
  {
    DivModUnique(d0, d1, 16);
  }

  /** `DIGITS2HEX3` of three digits has them as its three digits. */
  lemma Digits2Hex3Digits(d0: Nibble, d1: Nibble, d2: Nibble)
    ensures var r := Digits2Hex3(d0, d1, d2);
      r / 256 == d0 && (r / 16) % 16 == d1 && r % 16 == d2
  {
    DivModUnique(d0, d1 as int * 16 + d2, 256);
    DivModUnique(d0 as int * 16 + d1, d2, 16);
    DivModUnique(d0, d1, 16);
  }

  /** `DIG2HEX3` is `DIGITS2HEX3` of the opcode's low three digits, and
      `DIG2HEX2` is `DIGITS2HEX2` of its digits 1 and 2, not of the NN
      digits 2 and 3: on 0x3123 it gives 0x12, where NN is 0x23. */
  lemma Dig2HexMacros(h: seq<Nibble>)
    requires |h| == 4
    ensures Dig2Hex3(h) == Digits2Hex3(h[1], h[2], h[3])
    ensures Dig2Hex2(h) == Digits2Hex2(h[1], h[2])
    ensures Dig2Hex2([3, 1, 2, 3]) == 0x12 != Digits2Hex2(2, 3)
  {
  }

  /** The outcome codes are 0..4, and `OpTypeOf` reads each back. */
  lemma OpTypeCodes(t: OpType, c: int)
    ensures OpTypeOf(t.Code()) == Some(t)
    ensures OpTypeOf(c).Some? ==> OpTypeOf(c).value.Code() == c
  {
  }

  /** Different outcomes have different codes. */
  lemma OpTypeCodesDistinct(a: OpType, b: OpType)
    ensures a.Code() == b.Code() ==> a == b
  {
    OpTypeCodes(a, 0);
    OpTypeCodes(b, 0);
  }

  // ---------------------------------------------------------------------
  // The digit split and the operands

  /** The opcode whose hexadecimal digits are `d0 d1 d2 d3`. */
  function Op(d0: Nibble, d1: Nibble, d2: Nibble, d3: Nibble): (op: Word)
    ensures Split(op) == [d0, d1, d2, d3]
  {
    var op := d0 as int * 4096 + d1 as int * 256 + d2 as int * 16 + d3;
    DivModUnique(d0 as int * 256 + d1 as int * 16 + d2, d3, 16);
    DivModUnique(d0 as int * 16 + d1, d2 as int * 16 + d3, 256);
    DivModUnique(d0, d1 as int * 256 + d2 as int * 16 + d3, 4096);
    DivModUnique(d0 as int * 16 + d1, d2, 16);
    DivModUnique(d0, d1, 16);
    op
  }

  /** `Op` undoes `Split`: every 16-bit opcode is `Op` of its digits. */
  lemma OpOfSplit(op: Word)
    ensures var h := Split(op); Op(h[0], h[1], h[2], h[3]) == op
  {
  }

  /** NNN is the low twelve bits of the opcode and NN its low byte. */
  lemma Operands(op: Word)
    ensures var h := Split(op);
      Digits2Hex3(h[1], h[2], h[3]) == op % 0x1000 && Digits2Hex2(h[2], h[3]) == op % 0x100
  {
    var h := Split(op);
    DivModUnique(h[0], Digits2Hex3(h[1], h[2], h[3]), 0x1000);
    DivModUnique(h[0] as int * 16 + h[1], Digits2Hex2(h[2], h[3]), 0x100);
  }

  /** Through a byte-wide parameter the two high digits are 0, so only
      00EE, 00E0 and 0NNN can fit. */
  lemma ByteOpcodeDigits(op: Word)
    requires op < 0x100
    ensures Split(op)[0] == 0 && Split(op)[1] == 0
    ensures Decode(Split(op)) in {Ret, Cls, Sys}
  {
  }

  // ---------------------------------------------------------------------
  // The dispatch

  /** The instruction families by their leading digit and, where several
      share it, their low digits: how the instruction set is usually
      tabulated, with no order between entries. */
  function Family(h: seq<Nibble>): Kind
    requires |h| == 4
  {
    match h[0]
    case 0 =>
      if h[1] == 0 && h[2] == 0xE && h[3] == 0xE then Ret
      else if h[1] == 0 && h[2] == 0xE && h[3] == 0 then Cls
      else Sys
    case 1 => Jump
    case 2 => Call
    case 3 => SkipEqImm
    case 4 => SkipNeImm
    case 5 => SkipEqReg
    case 6 => LoadImm
    case 7 => AddImm
    case 8 =>
      (match h[3]
       case 0 => Move
       case 1 => Or
       case 2 => And
       case 3 => Xor
       case 4 => AddCarry
       case 5 => Sub
       case 6 => ShiftRight
       case 7 => SubReverse
       case 0xE => ShiftLeft
       case _ => Unknown)
    case 9 => if h[3] == 0 then SkipNeReg else Unknown
    case 0xA => SetIndex
    case 0xB => JumpOffset
    case 0xC => Random
    case 0xD => Draw
    case 0xE =>
      if h[2] == 9 && h[3] == 0xE then SkipKey
      else if h[2] == 0xA && h[3] == 1 then SkipNoKey
      else Unknown
    case 0xF =>
      (match Digits2Hex2(h[2], h[3])
       case 0x07 => GetDelay
       case 0x0A => WaitKey
       case 0x15 => SetDelay
       case 0x18 => SetSound
       case 0x1E => AddIndex
       case 0x29 => FontChar
       case 0x33 => Bcd
       case 0x55 => StoreRegs
       case 0x65 => LoadRegs
       case _ => Unknown)
  }

  /** The ordered template chain decodes every opcode as the family table
      does: trying the templates in order resolves the overlap of 00EE and
      00E0 with 0NNN in favour of the specific ones, and whatever no row
      names is `Unknown`. */
  lemma DecodeIsFamily(h: seq<Nibble>)
    requires |h| == 4
    ensures Decode(h) == Family(h)
  {
    if h[0] == 0xF {
      Digits2Hex2Digits(h[2], h[3]);
    }
  }

  /** 00EE and 00E0 also fit the 0NNN template; the earlier template wins. */
  lemma FirstTemplateWins()
    ensures MatchOp(Split(0x00EE), 0, -1, -1, -1) && Decode(Split(0x00EE)) == Ret
    ensures MatchOp(Split(0x00E0), 0, -1, -1, -1) && Decode(Split(0x00E0)) == Cls
  {
  }

  /** 5XY? takes any low digit, where 9XY0 needs a 0. */
  lemma SkipRegDecode(x: Nibble, y: Nibble, n: Nibble)
    ensures Decode([5, x, y, n]) == SkipEqReg
    ensures Decode([9, x, y, n]) == if n == 0 then SkipNeReg else Unknown
  {
    DecodeIsFamily([9, x, y, n]);
  }

  /** 8XY8, 9XY1, EX00 and FX99 fit no template. */
  lemma UnknownExamples(x: Nibble, y: Nibble)
    ensures Decode([8, x, y, 8]) == Unknown && Decode([9, x, y, 1]) == Unknown
    ensures Decode([0xE, x, 0, 0]) == Unknown && Decode([0xF, x, 9, 9]) == Unknown
  {
    DecodeIsFamily([8, x, y, 8]);
    DecodeIsFamily([0xF, x, 9, 9]);
  }

  // ---------------------------------------------------------------------
  // Opcodes that do nothing

  /** An opcode no template fits returns 1 and changes nothing. */
  lemma UnknownChangesNothing(m: Machine, op: Word)
    requires WellFormed(m) && Decode(Split(op)) == Unknown
    ensures Defined(m, op) && Exec(m, op) == Step(m, 1)
  {
  }

  /** The returned code tells the two outcomes apart: 0 exactly when some
      template fits, 1 exactly when none does. */
  lemma CodeIsMatch(m: Machine, op: Word)
    requires WellFormed(m) && Defined(m, op)
    ensures Exec(m, op).code == 0 <==> Decode(Split(op)) != Unknown
    ensures Exec(m, op).code == 1 <==> Decode(Split(op)) == Unknown
  {
  }

  /** The code 1 returned for an unknown opcode is, read as the header's
      `OpType`, `OP_DRAW` and not `OP_UNKNOWN`. */
  lemma UnknownCodeReadsAsDraw(m: Machine, op: Word)
    requires WellFormed(m) && Decode(Split(op)) == Unknown
    ensures Defined(m, op) && OpTypeOf(Exec(m, op).code) == Some(OpDraw)
    ensures OpTypeOf(Exec(m, op).code) != Some(OpUnknown)
  {
  }

  /** 0NNN and the empty branches return 0 and change nothing, not even
      the program counter. */
  lemma StubsChangeNothing(m: Machine, op: Word)
    requires WellFormed(m) && IsStub(Decode(Split(op)))
    ensures Defined(m, op) && Exec(m, op) == Step(m, 0)
  {
    var h := Split(op);
    var k := Decode(h);
    assert !IsFlow(k) && !IsRegister(k) && !IsMemory(k);
    assert Apply(m, k, h) == m;
  }

  // ---------------------------------------------------------------------
  // Calls, returns and jumps

  /** 00EE on a non-empty stack pops the top entry into the program counter,
      clears that slot and lowers the stack index; nothing else changes. */
  lemma ReturnRule(m: Machine)
    requires WellFormed(m) && 0 <= m.sp
    ensures Defined(m, 0x00EE)
    ensures Exec(m, 0x00EE) == Step(m.(pc := m.stack[m.sp], stack := m.stack[m.sp := 0], sp := m.sp - 1), 0)
  {
  }

  /** 2NNN on a stack that is not full pushes `pc + 1` (mod 2^16) and jumps
      to NNN, the opcode's low twelve bits; the 00EE after it returns to
      that address, gives the stack its old height back and clears the
      slot it popped. */
  lemma CallThenReturn(m: Machine, op: Word)
    requires WellFormed(m) && Decode(Split(op)) == Call && m.sp < StackSize - 1
    ensures Defined(m, op)
    ensures var called := Exec(m, op);
      && called.code == 0
      && called.next == m.(sp := m.sp + 1, stack := m.stack[m.sp + 1 := Advance(m.pc, 1)], pc := op % 0x1000)
      && Defined(called.next, 0x00EE)
      && Exec(called.next, 0x00EE) == Step(m.(pc := Advance(m.pc, 1), stack := m.stack[m.sp + 1 := 0]), 0)
  {
    Operands(op);
  }

  /** 1NNN sets the program counter to the opcode's low twelve bits and
      changes nothing else. */
  lemma JumpRule(m: Machine, op: Word)
    requires WellFormed(m) && Decode(Split(op)) == Jump
    ensures Defined(m, op) && Exec(m, op) == Step(m.(pc := op % 0x1000), 0)
  {
    Operands(op);
  }

  /** BNNN sets the program counter to NNN + V0, which never exceeds 0x10FE
      and so never wraps. */
  lemma JumpOffsetRule(m: Machine, op: Word)
    requires WellFormed(m) && Decode(Split(op)) == JumpOffset
    ensures Defined(m, op)
    ensures var r := Exec(m, op);
      && r == Step(m.(pc := r.next.pc), 0)
      && r.next.pc == op % 0x1000 + m.reg[0] <= 0x10FE
  {
    Operands(op);
  }

  /** 3XNN adds 2 to the program counter when VX equals the opcode's low
      byte and 1 otherwise, and changes nothing else. */
  lemma SkipEqImmRule(m: Machine, op: Word)
    requires WellFormed(m) && Decode(Split(op)) == SkipEqImm
    ensures Defined(m, op)
    ensures var x := Split(op)[1];
      Exec(m, op) == Step(m.(pc := Advance(m.pc, if m.reg[x] == op % 0x100 then 2 else 1)), 0)
  {
    Operands(op);
  }

  /** 4XNN adds 2 to the program counter when VX differs from the opcode's
      low byte and 1 otherwise. */
  lemma SkipNeImmRule(m: Machine, op: Word)
    requires WellFormed(m) && Decode(Split(op)) == SkipNeImm
    ensures Defined(m, op)
    ensures var x := Split(op)[1];
      Exec(m, op) == Step(m.(pc := Advance(m.pc, if m.reg[x] != op % 0x100 then 2 else 1)), 0)
  {
    Operands(op);
  }

  /** 5XY? adds 2 to the program counter when VX equals VY and 1 otherwise. */
  lemma SkipEqRegRule(m: Machine, op: Word)
    requires WellFormed(m) && Decode(Split(op)) == SkipEqReg
    ensures Defined(m, op)
    ensures var h := Split(op);
      Exec(m, op) == Step(m.(pc := Advance(m.pc, if m.reg[h[1]] == m.reg[h[2]] then 2 else 1)), 0)
  {
  }

  /** 9XY0 adds 2 to the program counter when VX differs from VY and 1
      otherwise. */
  lemma SkipNeRegRule(m: Machine, op: Word)
    requires WellFormed(m) && Decode(Split(op)) == SkipNeReg
    ensures Defined(m, op)
    ensures var h := Split(op);
      Exec(m, op) == Step(m.(pc := Advance(m.pc, if m.reg[h[1]] != m.reg[h[2]] then 2 else 1)), 0)
  {
  }

  /** One or two `pc++` on the 16-bit program counter add 1 or 2, and fall
      back by 2^16 exactly when the sum leaves sixteen bits. */
  lemma AdvanceWraps(pc: Word, n: nat)
    requires n <= 2
    ensures Advance(pc, n) == if pc + n < 0x1_0000 then pc + n else pc + n - 0x1_0000
    ensures Advance(0xFFFF, 1) == 0
  {
  }

  // ---------------------------------------------------------------------
  // Branches with one target

  /** 00E0 turns every pixel off and changes nothing else but `pc + 1`. */
  lemma ClearScreenRule(m: Machine)
    requires WellFormed(m)
    ensures Defined(m, 0x00E0)
    ensures var r := Exec(m, 0x00E0);
      && r.code == 0
      && r.next == m.(screen := r.next.screen, pc := Advance(m.pc, 1))
      && forall row, col :: 0 <= row < Height && 0 <= col < Width ==> r.next.screen[row][col] == 0
  {
  }

  /** 6XNN sets VX to the opcode's low byte and touches no other register. */
  lemma LoadImmRule(m: Machine, op: Word)
    requires WellFormed(m) && Decode(Split(op)) == LoadImm
    ensures Defined(m, op) && Exec(m, op).code == 0
    ensures var x, r := Split(op)[1], Exec(m, op).next;
      && r == m.(reg := r.reg, pc := Advance(m.pc, 1))
      && r.reg[x] == op % 0x100
      && forall j :: 0 <= j < 16 && j != x ==> r.reg[j] == m.reg[j]
  {
    Operands(op);
  }

  /** 7XNN adds the opcode's low byte to VX modulo 256 and leaves VF alone
      unless X is F: there is no carry flag. */
  lemma AddImmRule(m: Machine, op: Word)
    requires WellFormed(m) && Decode(Split(op)) == AddImm
    ensures Defined(m, op) && Exec(m, op).code == 0
    ensures var x, r := Split(op)[1], Exec(m, op).next;
      && r == m.(reg := r.reg, pc := Advance(m.pc, 1))
      && r.reg[x] == (m.reg[x] + op % 0x100) % 0x100
      && (r.reg[x] == m.reg[x] + op % 0x100 || r.reg[x] == m.reg[x] + op % 0x100 - 0x100)
      && forall j :: 0 <= j < 16 && j != x ==> r.reg[j] == m.reg[j]
  {
    Operands(op);
  }

  /** 8XY0 copies VY into VX and changes nothing else but `pc + 1`. */
  lemma MoveRule(m: Machine, op: Word)
    requires WellFormed(m) && Decode(Split(op)) == Move
    ensures Defined(m, op)
    ensures var h := Split(op);
      Exec(m, op) == Step(m.(reg := m.reg[h[1] := m.reg[h[2]]], pc := Advance(m.pc, 1)), 0)
  {
  }

  /** 8XY1 sets each bit of VX to the or of that bit of VX and VY. */
  lemma OrRule(m: Machine, op: Word)
    requires WellFormed(m) && Decode(Split(op)) == Or
    ensures Defined(m, op) && Exec(m, op).code == 0
    ensures var h, r := Split(op), Exec(m, op).next;
      && r == m.(reg := m.reg[h[1] := r.reg[h[1]]], pc := Advance(m.pc, 1))
      && forall k :: 0 <= k < 8 ==> Bit(r.reg[h[1]], k) == (Bit(m.reg[h[1]], k) || Bit(m.reg[h[2]], k))
  {
  }

  /** 8XY2 sets each bit of VX to the and of that bit of VX and VY. */
  lemma AndRule(m: Machine, op: Word)
    requires WellFormed(m) && Decode(Split(op)) == And
    ensures Defined(m, op) && Exec(m, op).code == 0
    ensures var h, r := Split(op), Exec(m, op).next;
      && r == m.(reg := m.reg[h[1] := r.reg[h[1]]], pc := Advance(m.pc, 1))
      && forall k :: 0 <= k < 8 ==> Bit(r.reg[h[1]], k) == (Bit(m.reg[h[1]], k) && Bit(m.reg[h[2]], k))
  {
  }

  /** 8XY3 sets each bit of VX to the exclusive or of that bit of VX and VY. */
  lemma XorRule(m: Machine, op: Word)
    requires WellFormed(m) && Decode(Split(op)) == Xor
    ensures Defined(m, op) && Exec(m, op).code == 0
    ensures var h, r := Split(op), Exec(m, op).next;
      && r == m.(reg := m.reg[h[1] := r.reg[h[1]]], pc := Advance(m.pc, 1))
      && forall k :: 0 <= k < 8 ==> Bit(r.reg[h[1]], k) == (Bit(m.reg[h[1]], k) != Bit(m.reg[h[2]], k))
  {
  }

  /** 8XY6 puts the low bit of VX in VF and halves VX, so that the new VX
      and VF give back the old VX; it does not advance the program counter.
      With X = F the halving reads the flag just written, so VF ends 0. */
  lemma ShiftRightRule(m: Machine, op: Word)
    requires WellFormed(m) && Decode(Split(op)) == ShiftRight
    ensures Defined(m, op) && Exec(m, op).code == 0
    ensures var x, r := Split(op)[1], Exec(m, op).next;
      && r == m.(reg := r.reg)
      && (x != 0xF ==> r.reg[0xF] == m.reg[x] % 2 && r.reg[x] == m.reg[x] / 2
                       && 2 * r.reg[x] + r.reg[0xF] == m.reg[x])
      && (x == 0xF ==> r.reg[0xF] == 0)
      && forall j :: 0 <= j < 0xF && j != x ==> r.reg[j] == m.reg[j]
  {
  }

  /** ANNN sets I to the opcode's low twelve bits. */
  lemma SetIndexRule(m: Machine, op: Word)
    requires WellFormed(m) && Decode(Split(op)) == SetIndex
    ensures Defined(m, op)
    ensures Exec(m, op) == Step(m.(i := op % 0x1000, pc := Advance(m.pc, 1)), 0)
  {
    Operands(op);
  }

  /** FX07 copies the delay timer into VX. */
  lemma GetDelayRule(m: Machine, op: Word)
    requires WellFormed(m) && Decode(Split(op)) == GetDelay
    ensures Defined(m, op)
    ensures var x := Split(op)[1];
      Exec(m, op) == Step(m.(reg := m.reg[x := m.delay], pc := Advance(m.pc, 1)), 0)
  {
  }

  /** FX18 copies VX into the sound timer. */
  lemma SetSoundRule(m: Machine, op: Word)
    requires WellFormed(m) && Decode(Split(op)) == SetSound
    ensures Defined(m, op)
    ensures var x := Split(op)[1];
      Exec(m, op) == Step(m.(sound := m.reg[x], pc := Advance(m.pc, 1)), 0)
  {
  }

  /** FX1E adds VX to I modulo 2^16 and sets no flag. */
  lemma AddIndexRule(m: Machine, op: Word)
    requires WellFormed(m) && Decode(Split(op)) == AddIndex
    ensures Defined(m, op) && Exec(m, op).code == 0
    ensures var x, r := Split(op)[1], Exec(m, op).next;
      && r == m.(i := r.i, pc := Advance(m.pc, 1))
      && (r.i == m.i + m.reg[x] || r.i == m.i + m.reg[x] - 0x1_0000)
  {
  }

  // ---------------------------------------------------------------------
  // Memory transfers

  /** The three BCD digits are decimal digits and give back the value. */
  lemma BcdDigitsCorrect(v: Byte)
    ensures var d := BcdDigits(v);
      && d[0] < 10 && d[1] < 10 && d[2] < 10
      && 100 * d[0] as int + 10 * d[1] as int + d[2] == v
  {
    assert v == 10 * (v / 10) + v % 10;
    assert v / 10 == 10 * (v / 100) + (v / 10) % 10;
  }

  /** FX33 on 156 writes 1, 5, 6. */
  lemma BcdExample()
    ensures BcdDigits(156) == [1, 5, 6]
  {
  }

  /** FX33 writes the hundreds, tens and ones of VX at I, I+1 and I+2 and
      changes no other byte, nor I. */
  lemma BcdRule(m: Machine, op: Word)
    requires WellFormed(m) && Decode(Split(op)) == Bcd && m.i + 2 < MemSize
    ensures Defined(m, op) && Exec(m, op).code == 0
    ensures var x, r := Split(op)[1], Exec(m, op).next;
      && r == m.(mem := r.mem, pc := Advance(m.pc, 1))
      && 100 * r.mem[m.i] as int + 10 * r.mem[m.i + 1] as int + r.mem[m.i + 2] == m.reg[x]
      && r.mem[m.i] < 10 && r.mem[m.i + 1] < 10 && r.mem[m.i + 2] < 10
      && forall a :: 0 <= a < MemSize && !(m.i <= a <= m.i + 2) ==> r.mem[a] == m.mem[a]
  {
    BcdDigitsCorrect(m.reg[Split(op)[1]]);
  }

  /** FX55 copies V0..VX to memory from I on and changes no other byte, nor
      I nor a register. */
  lemma StoreRule(m: Machine, op: Word)
    requires WellFormed(m) && Decode(Split(op)) == StoreRegs && m.i + Split(op)[1] < MemSize
    ensures Defined(m, op) && Exec(m, op).code == 0
    ensures var x, r := Split(op)[1], Exec(m, op).next;
      && r == m.(mem := r.mem, pc := Advance(m.pc, 1))
      && (forall j :: 0 <= j <= x ==> r.mem[m.i + j] == m.reg[j])
      && forall a :: 0 <= a < MemSize && !(m.i <= a <= m.i + x) ==> r.mem[a] == m.mem[a]
  {
  }

  /** FX65 fills V0..VX from memory from I on and changes no register above
      X, nor I nor memory. */
  lemma LoadRule(m: Machine, op: Word)
    requires WellFormed(m) && Decode(Split(op)) == LoadRegs && m.i + Split(op)[1] < MemSize
    ensures Defined(m, op) && Exec(m, op).code == 0
    ensures var x, r := Split(op)[1], Exec(m, op).next;
      && r == m.(reg := r.reg, pc := Advance(m.pc, 1))
      && (forall j :: 0 <= j <= x ==> r.reg[j] == m.mem[m.i + j])
      && forall j :: x < j < 16 ==> r.reg[j] == m.reg[j]
  {
  }

  /** FX55 then FX65 with the same X and I gives every register its old
      value back, and leaves I as it was. */
  lemma StoreThenLoad(m: Machine, store: Word, load: Word)
    requires WellFormed(m) && Decode(Split(store)) == StoreRegs && Decode(Split(load)) == LoadRegs
    requires Split(store)[1] == Split(load)[1] && m.i + Split(store)[1] < MemSize
    ensures Defined(m, store)
    ensures var stored := Exec(m, store).next;
      && Defined(stored, load)
      && var loaded := Exec(stored, load).next;
      && loaded.reg == m.reg && loaded.i == m.i && loaded.mem == stored.mem
      && loaded.pc == Advance(m.pc, 2)
  {
    var stored := Exec(m, store).next;
    assert stored == ApplyMemory(m, StoreRegs, Split(store));
    assert Exec(stored, load).next == ApplyMemory(stored, LoadRegs, Split(load));
    StoreThenLoadBranches(m, Split(store), Split(load));
  }

  /** The FX55 branch followed by the FX65 branch with the same X. */
  lemma StoreThenLoadBranches(m: Machine, store: seq<Nibble>, load: seq<Nibble>)
    requires WellFormed(m) && |store| == 4 && |load| == 4
    requires store[1] == load[1] && m.i + store[1] < MemSize
    ensures var stored := ApplyMemory(m, StoreRegs, store);
      && var loaded := ApplyMemory(stored, LoadRegs, load);
      && loaded.reg == m.reg && loaded.i == m.i && loaded.mem == stored.mem
      && loaded.pc == Advance(m.pc, 2)
  {
    var x := store[1];
    var stored := ApplyMemory(m, StoreRegs, store);
    assert stored.mem[m.i..m.i + x + 1] == m.reg[..x + 1];
    assert m.reg[..x + 1] + m.reg[x + 1..] == m.reg;
  }

  // ---------------------------------------------------------------------
  // The byte-wide parameter

  /** Through the byte-wide parameter a jump to 0x234 arrives as 0x34,
      which fits 0NNN and does nothing, where the 16-bit interpreter
      jumps. */
  lemma ByteWideDropsJump(m: Machine)
    requires WellFormed(m)
    ensures Exec(m, 0x1234).next.pc == 0x234
    ensures ExecAsWritten(m, 0x1234) == Step(m, 0)
  {
  }
}
