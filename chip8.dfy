/** The instruction interpreter: the CPU state, the split of an opcode into
    hexadecimal digits, the ordered template dispatch and the effect of
    every template the interpreter implements.

    `Exec` is the specification of one call of the interpreter on a value
    of the state; the class `Chip8State` is the state as the source keeps
    it, updated in place, and its `RunOpcode` is proved to do what `Exec`
    says.
 */
module Chip8 {
  import opened Bits
  import opened Chip8Header

  /** The four hexadecimal digits of a 16-bit opcode, most significant
      first (`(op >> 12) & 0xF`, ..., `op & 0xF`). */
  function Split(op: Word): (h: seq<Nibble>)
    ensures |h| == 4
    ensures 4096 * h[0] as int + 256 * h[1] as int + 16 * h[2] as int + h[3] == op
  {
    SplitJoin(op);
    [(op / 4096) % 16, (op / 256) % 16, (op / 16) % 16, op % 16]
  }

  /** The four digits `Split` takes out of `op` put it back together. */
  lemma SplitJoin(op: Word)
    ensures 4096 * ((op / 4096) % 16) + 256 * ((op / 256) % 16) + 16 * ((op / 16) % 16) + op % 16 == op
  {
    var a := op / 16;
    var b := a / 16;
    var c := b / 16;
    assert op == 16 * a + op % 16;
    assert a == 16 * b + a % 16;
    assert b == 16 * c + b % 16;
    assert op == 256 * b + 16 * (a % 16) + op % 16;
    assert op == 4096 * c + 256 * (b % 16) + 16 * (a % 16) + op % 16;
    assert op / 256 == b;
    assert op / 4096 == c;
    assert c < 16;
  }

  /** The templates of the interpreter, one per branch, in the order they
      are tried; `Unknown` is what is left when none fits. */
  datatype Kind =
    | Ret          // 00EE
    | Cls          // 00E0
    | Sys          // 0NNN
    | Jump         // 1NNN
    | Call         // 2NNN
    | SkipEqImm    // 3XNN
    | SkipNeImm    // 4XNN
    | SkipEqReg    // 5XY?
    | LoadImm      // 6XNN
    | AddImm       // 7XNN
    | Move         // 8XY0
    | Or           // 8XY1
    | And          // 8XY2
    | Xor          // 8XY3
    | AddCarry     // 8XY4
    | Sub          // 8XY5
    | ShiftRight   // 8XY6
    | SubReverse   // 8XY7
    | ShiftLeft    // 8XYE
    | SkipNeReg    // 9XY0
    | SetIndex     // ANNN
    | JumpOffset   // BNNN
    | Random       // CXNN
    | Draw         // DXYN
    | SkipKey      // EX9E
    | SkipNoKey    // EXA1
    | GetDelay     // FX07
    | WaitKey      // FX0A
    | SetDelay     // FX15
    | SetSound     // FX18
    | AddIndex     // FX1E
    | FontChar     // FX29
    | Bcd          // FX33
    | StoreRegs    // FX55
    | LoadRegs     // FX65
    | Unknown

  /** The templates whose branch in the source is empty: they report
      success and change nothing, not even the program counter. */
  predicate IsStub(k: Kind)
  {
    || k.Sys? || k.AddCarry? || k.Sub? || k.SubReverse? || k.ShiftLeft? || k.Random?
    || k.Draw? || k.SkipKey? || k.SkipNoKey? || k.WaitKey? || k.SetDelay? || k.FontChar?
  }

  /** The templates that only move the program counter, the stack or the screen. */
  predicate IsFlow(k: Kind)
  {
    || k.Ret? || k.Cls? || k.Jump? || k.Call? || k.JumpOffset?
    || k.SkipEqImm? || k.SkipNeImm? || k.SkipEqReg? || k.SkipNeReg?
  }

  /** The templates that set one register, I or the sound timer. */
  predicate IsRegister(k: Kind)
  {
    || k.LoadImm? || k.AddImm? || k.Move? || k.Or? || k.And? || k.Xor? || k.ShiftRight?
    || k.SetIndex? || k.GetDelay? || k.SetSound? || k.AddIndex?
  }

  /** The templates that move bytes between registers and memory. */
  predicate IsMemory(k: Kind)
  {
    k.Bcd? || k.StoreRegs? || k.LoadRegs?
  }

  /** The template that wins for the digits `h`: the first, in source order,
      that `h` fits. */
  function Decode(h: seq<Nibble>): Kind
    requires |h| == 4
  {
    if MatchOp(h, 0, 0, 0xE, 0xE) then Ret
    else if MatchOp(h, 0, 0, 0xE, 0) then Cls
    else if MatchOp(h, 0, -1, -1, -1) then Sys
    else if MatchOp(h, 1, -1, -1, -1) then Jump
    else if MatchOp(h, 2, -1, -1, -1) then Call
    else if MatchOp(h, 3, -1, -1, -1) then SkipEqImm
    else if MatchOp(h, 4, -1, -1, -1) then SkipNeImm
    else if MatchOp(h, 5, -1, -1, -1) then SkipEqReg
    else if MatchOp(h, 6, -1, -1, -1) then LoadImm
    else if MatchOp(h, 7, -1, -1, -1) then AddImm
    else if MatchOp(h, 8, -1, -1, 0) then Move
    else if MatchOp(h, 8, -1, -1, 1) then Or
    else if MatchOp(h, 8, -1, -1, 2) then And
    else if MatchOp(h, 8, -1, -1, 3) then Xor
    else if MatchOp(h, 8, -1, -1, 4) then AddCarry
    else if MatchOp(h, 8, -1, -1, 5) then Sub
    else if MatchOp(h, 8, -1, -1, 6) then ShiftRight
    else if MatchOp(h, 8, -1, -1, 7) then SubReverse
    else if MatchOp(h, 8, -1, -1, 0xE) then ShiftLeft
    else if MatchOp(h, 9, -1, -1, 0) then SkipNeReg
    else if MatchOp(h, 0xA, -1, -1, -1) then SetIndex
    else if MatchOp(h, 0xB, -1, -1, -1) then JumpOffset
    else if MatchOp(h, 0xC, -1, -1, -1) then Random
    else if MatchOp(h, 0xD, -1, -1, -1) then Draw
    else if MatchOp(h, 0xE, -1, 9, 0xE) then SkipKey
    else if MatchOp(h, 0xE, -1, 0xA, 1) then SkipNoKey
    else if MatchOp(h, 0xF, -1, 0, 7) then GetDelay
    else if MatchOp(h, 0xF, -1, 0, 0xA) then WaitKey
    else if MatchOp(h, 0xF, -1, 1, 5) then SetDelay
    else if MatchOp(h, 0xF, -1, 1, 8) then SetSound
    else if MatchOp(h, 0xF, -1, 1, 0xE) then AddIndex
    else if MatchOp(h, 0xF, -1, 2, 9) then FontChar
    else if MatchOp(h, 0xF, -1, 3, 3) then Bcd
    else if MatchOp(h, 0xF, -1, 5, 5) then StoreRegs
    else if MatchOp(h, 0xF, -1, 6, 5) then LoadRegs
    else Unknown
  }

  /** The CPU state as a value: memory, the stack and the index of its top
      (-1 when empty), the registers V0..VF, the address register I, the
      program counter, the sound and delay timers, and the screen as
      `Height` rows of `Width` pixels. */
  datatype Machine = Machine(
    mem: seq<Byte>,
    stack: seq<Word>,
    sp: int,
    reg: seq<Byte>,
    i: Word,
    pc: Word,
    sound: Byte,
    delay: Byte,
    screen: seq<seq<Byte>>)

  /** The sizes the state's arrays have, and the range the stack index keeps. */
  predicate WellFormed(m: Machine)
  {
    |m.mem| == MemSize && |m.stack| == StackSize && -1 <= m.sp < StackSize
    && |m.reg| == 16 && |m.screen| == Height
    && forall r :: 0 <= r < |m.screen| ==> |m.screen[r]| == Width
  }

  /** The result of one call of the interpreter: the new state and the
      number it returns (0 for a template that fits, 1 for none). */
  datatype Step = Step(next: Machine, code: int)

  /** `pc++` done `n` times on a 16-bit program counter. */
  function Advance(pc: Word, n: nat): Word
  {
    (pc + n) % 0x1_0000
  }

  /** `s` with the bytes from `at` on replaced by `vals`. */
  function Overwrite(s: seq<Byte>, at: nat, vals: seq<Byte>): (r: seq<Byte>)
    requires at + |vals| <= |s|
    ensures |r| == |s|
    ensures forall a :: 0 <= a < |s| ==> r[a] == if at <= a < at + |vals| then vals[a - at] else s[a]
  {
    s[..at] + vals + s[at + |vals|..]
  }

  /** A screen with every pixel off. */
  function Blank(): (s: seq<seq<Byte>>)
    ensures |s| == Height
    ensures forall r :: 0 <= r < Height ==> |s[r]| == Width && forall c :: 0 <= c < Width ==> s[r][c] == 0
  {
    seq(Height, _ => seq(Width, _ => 0))
  }

  /** The hundreds, tens and ones digits of `v`, as FX33 stores them. */
  function BcdDigits(v: Byte): (d: seq<Byte>)
    ensures |d| == 3
  {
    [v / 100, (v / 10) % 10, v % 10]
  }

  /** The accesses the source makes without a bounds check stay inside their
      arrays: a return needs a non-empty stack, a call a stack that is not
      full, and FX33, FX55 and FX65 the addresses they touch in memory. */
  predicate Allowed(m: Machine, k: Kind, x: Nibble)
  {
    match k
    case Ret => 0 <= m.sp
    case Call => m.sp < StackSize - 1
    case Bcd => m.i + 2 < MemSize
    case StoreRegs => m.i + x < MemSize
    case LoadRegs => m.i + x < MemSize
    case _ => true
  }

  /** `Allowed` for the template the opcode `op` selects. */
  predicate Defined(m: Machine, op: Word)
  {
    var h := Split(op);
    Allowed(m, Decode(h), h[1])
  }

  /** The state after the branch for template `k`, with `h` the digits of
      the opcode (for `Unknown`, the state after no branch). */
  function Apply(m: Machine, k: Kind, h: seq<Nibble>): (r: Machine)
    requires WellFormed(m) && |h| == 4 && Allowed(m, k, h[1])
    ensures WellFormed(r)
  {
    if IsFlow(k) then ApplyFlow(m, k, h)
    else if IsRegister(k) then ApplyRegister(m, k, h)
    else if IsMemory(k) then ApplyMemory(m, k, h)
    else m
  }

  /** The branches that return, clear the screen, jump, call or skip. */
  function ApplyFlow(m: Machine, k: Kind, h: seq<Nibble>): (r: Machine)
    requires WellFormed(m) && |h| == 4 && IsFlow(k) && Allowed(m, k, h[1])
    ensures WellFormed(r)
  {
    var x, y := h[1], h[2];
    var nn := Digits2Hex2(h[2], h[3]);
    var nnn := Digits2Hex3(h[1], h[2], h[3]);
    match k
    case Ret =>
      m.(pc := m.stack[m.sp], stack := m.stack[m.sp := 0], sp := m.sp - 1)
    case Cls =>
      m.(screen := Blank(), pc := Advance(m.pc, 1))
    case Jump =>
      m.(pc := nnn)
    case Call =>
      m.(sp := m.sp + 1, stack := m.stack[m.sp + 1 := Advance(m.pc, 1)], pc := nnn)
    case SkipEqImm =>
      m.(pc := Advance(m.pc, if m.reg[x] == nn then 2 else 1))
    case SkipNeImm =>
      m.(pc := Advance(m.pc, if m.reg[x] != nn then 2 else 1))
    case SkipEqReg =>
      m.(pc := Advance(m.pc, if m.reg[x] == m.reg[y] then 2 else 1))
    case SkipNeReg =>
      m.(pc := Advance(m.pc, if m.reg[x] != m.reg[y] then 2 else 1))
    case JumpOffset =>
      m.(pc := nnn + m.reg[0])
  }

  /** The branches that set one register, I or the sound timer. */
  function ApplyRegister(m: Machine, k: Kind, h: seq<Nibble>): (r: Machine)
    requires WellFormed(m) && |h| == 4 && IsRegister(k)
    ensures WellFormed(r)
  {
    var x, y := h[1], h[2];
    var nn := Digits2Hex2(h[2], h[3]);
    var next := Advance(m.pc, 1);
    match k
    case LoadImm =>
      m.(reg := m.reg[x := nn], pc := next)
    case AddImm =>
      m.(reg := m.reg[x := (m.reg[x] + nn) % 0x100], pc := next)
    case Move =>
      m.(reg := m.reg[x := m.reg[y]], pc := next)
    case Or =>
      m.(reg := m.reg[x := Or8(m.reg[x], m.reg[y])], pc := next)
    case And =>
      m.(reg := m.reg[x := And8(m.reg[x], m.reg[y])], pc := next)
    case Xor =>
      m.(reg := m.reg[x := Xor8(m.reg[x], m.reg[y])], pc := next)
    case ShiftRight =>
      // VF receives the low bit first; the shift then reads VX afresh
      var flagged := m.reg[0xF := m.reg[x] % 2];
      m.(reg := flagged[x := flagged[x] / 2])
    case SetIndex =>
      m.(i := Digits2Hex3(h[1], h[2], h[3]), pc := next)
    case GetDelay =>
      m.(reg := m.reg[x := m.delay], pc := next)
    case SetSound =>
      m.(sound := m.reg[x], pc := next)
    case AddIndex =>
      m.(i := (m.i + m.reg[x]) % 0x1_0000, pc := next)
  }

  /** The branches that move bytes between registers and memory. */
  function ApplyMemory(m: Machine, k: Kind, h: seq<Nibble>): (r: Machine)
    requires WellFormed(m) && |h| == 4 && IsMemory(k) && Allowed(m, k, h[1])
    ensures WellFormed(r)
  {
    var x := h[1];
    var next := Advance(m.pc, 1);
    match k
    case Bcd =>
      m.(mem := Overwrite(m.mem, m.i, BcdDigits(m.reg[x])), pc := next)
    case StoreRegs =>
      m.(mem := Overwrite(m.mem, m.i, m.reg[..x + 1]), pc := next)
    case LoadRegs =>
      m.(reg := m.mem[m.i..m.i + x + 1] + m.reg[x + 1..], pc := next)
  }

  /** One call of the interpreter on the opcode `op`: the branch of the
      first template `op` fits. */
  function Exec(m: Machine, op: Word): (r: Step)
    requires WellFormed(m) && Defined(m, op)
    ensures WellFormed(r.next)
  {
    var h := Split(op);
    var k := Decode(h);
    Step(Apply(m, k, h), if k == Unknown then 1 else 0)
  }

  /** The interpreter as its definition is written: its parameter is a
      `uint8_t`, so an opcode reaches it reduced to its low byte. Only the
      `0` family can then fit, so it never touches registers, memory, I or
      the timers, and never reports an unknown opcode. */
  function ExecAsWritten(m: Machine, op: Word): (r: Step)
    requires WellFormed(m) && Defined(m, op % 0x100)
    ensures WellFormed(r.next) && r.code == 0
    ensures r.next.reg == m.reg && r.next.mem == m.mem && r.next.i == m.i
    ensures r.next.sound == m.sound && r.next.delay == m.delay
  {
    Exec(m, op % 0x100)
  }

  /** The CPU state as the source keeps it, updated in place. */
  class Chip8State {
    const mem: array<Byte>
    const stack: array<Word>
    var stackPtr: int
    const reg: array<Byte>
    var addrReg: Word
    var pc: Word
    var soundTimer: Byte
    var delayTimer: Byte
    const screen: array2<Byte>

    ghost predicate Valid()
      reads this
    {
      mem.Length == MemSize && stack.Length == StackSize && -1 <= stackPtr < StackSize
      && reg.Length == 16 && screen.Length0 == Height && screen.Length1 == Width
      && mem != reg
    }

    /** The pixels, row by row. */
    ghost function Screen(): (s: seq<seq<Byte>>)
      reads screen
      ensures |s| == screen.Length0
      ensures forall r :: 0 <= r < |s| ==> |s[r]| == screen.Length1
    {
      seq(screen.Length0, r reads screen =>
        seq(screen.Length1, c reads screen =>
          if 0 <= r < screen.Length0 && 0 <= c < screen.Length1 then screen[r, c] else 0))
    }

    /** The state as a value. */
    ghost function Model(): (m: Machine)
      reads this, mem, stack, reg, screen
      requires Valid()
      ensures WellFormed(m)
    {
      Machine(mem[..], stack[..], stackPtr, reg[..], addrReg, pc, soundTimer, delayTimer, Screen())
    }

    /** `chip8_create`: zeroed memory and registers, an empty stack, I, the
        program counter and both timers 0. Only the first half of the stack
        is cleared (the source clears 24 bytes of a stack of 24 two-byte
        entries) and the screen is not initialised at all. */
    constructor ()
      ensures Valid() && fresh(mem) && fresh(stack) && fresh(reg) && fresh(screen)
      ensures forall a :: 0 <= a < mem.Length ==> mem[a] == 0
      ensures forall k :: 0 <= k < reg.Length ==> reg[k] == 0
      ensures forall k :: 0 <= k < StackSize / 2 ==> stack[k] == 0
      ensures stackPtr == -1 && addrReg == 0 && pc == 0
      ensures soundTimer == 0 && delayTimer == 0
    {
      mem := new Byte[MemSize](_ => 0);
      stack := new Word[StackSize];
      reg := new Byte[16](_ => 0);
      screen := new Byte[Height, Width];
      stackPtr := -1;
      addrReg := 0;
      pc := 0;
      soundTimer := 0;
      delayTimer := 0;
      new;
      forall k | 0 <= k < StackSize / 2 {
        stack[k] := 0;
      }
    }

    /** `run_opcode`: runs one opcode and returns 0, or returns 1 without
        changing anything when no template fits. */
    method RunOpcode(op: Word) returns (code: int)
      requires Valid() && Defined(Model(), op)
      modifies this, mem, stack, reg, screen
      ensures Valid()
      ensures Step(Model(), code) == Exec(old(Model()), op)
    {
      var h := Split(op);
      var k := Decode(h);
      ghost var before := Model();
      assert Exec(before, op) == Step(Apply(before, k, h), if k == Unknown then 1 else 0);
      if IsFlow(k) {
        RunFlow(k, h);
      } else if IsRegister(k) {
        RunRegister(k, h);
      } else if IsMemory(k) {
        RunMemory(k, h);
      }
      code := if k == Unknown then 1 else 0;
    }

    /** The branches that return, clear the screen, jump, call or skip. */
    method RunFlow(k: Kind, h: seq<Nibble>)
      requires Valid() && |h| == 4 && IsFlow(k) && Allowed(Model(), k, h[1])
      modifies this, stack, screen
      ensures Valid()
      ensures Model() == ApplyFlow(old(Model()), k, h)
    {
      match k {
        case Ret => RunReturn(h);
        case Cls => RunClear(h);
        case Jump => RunJump(h);
        case Call => RunCall(h);
        case SkipEqImm => RunSkipEqImm(h);
        case SkipNeImm => RunSkipNeImm(h);
        case SkipEqReg => RunSkipEqReg(h);
        case SkipNeReg => RunSkipNeReg(h);
        case JumpOffset => RunJumpOffset(h);
      }
    }

    /** The branches that set one register, I or the sound timer. */
    method RunRegister(k: Kind, h: seq<Nibble>)
      requires Valid() && |h| == 4 && IsRegister(k)
      modifies this, reg
      ensures Valid()
      ensures Model() == ApplyRegister(old(Model()), k, h)
    {
      match k {
        case LoadImm => RunLoadImm(h);
        case AddImm => RunAddImm(h);
        case Move => RunMove(h);
        case Or => RunOr(h);
        case And => RunAnd(h);
        case Xor => RunXor(h);
        case ShiftRight => RunShiftRight(h);
        case SetIndex => RunSetIndex(h);
        case GetDelay => RunGetDelay(h);
        case SetSound => RunSetSound(h);
        case AddIndex => RunAddIndex(h);
      }
    }

    /** The branches that move bytes between registers and memory. */
    method RunMemory(k: Kind, h: seq<Nibble>)
      requires Valid() && |h| == 4 && IsMemory(k) && Allowed(Model(), k, h[1])
      modifies this, mem, reg
      ensures Valid()
      ensures Model() == ApplyMemory(old(Model()), k, h)
    {
      match k {
        case Bcd => RunBcd(h);
        case StoreRegs => RunStore(h);
        case LoadRegs => RunLoad(h);
      }
    }

    /** 00EE: pop the return address into the program counter. */
    method RunReturn(h: seq<Nibble>)
      requires Valid() && |h| == 4 && Allowed(Model(), Ret, h[1])
      modifies this, stack
      ensures Valid()
      ensures Model() == ApplyFlow(old(Model()), Ret, h)
    {
      pc := stack[stackPtr];
      stack[stackPtr] := 0;
      stackPtr := stackPtr - 1;
    }

    /** 00E0: clear the screen. */
    method RunClear(h: seq<Nibble>)
      requires Valid() && |h| == 4
      modifies this, screen
      ensures Valid()
      ensures Model() == ApplyFlow(old(Model()), Cls, h)
    {
      ClearScreen();
      pc := (pc + 1) % 0x1_0000;
    }

    /** 1NNN: jump to NNN. */
    method RunJump(h: seq<Nibble>)
      requires Valid() && |h| == 4
      modifies this
      ensures Valid()
      ensures Model() == ApplyFlow(old(Model()), Jump, h)
    {
      pc := Digits2Hex3(h[1], h[2], h[3]);
    }

    /** 2NNN: push `pc + 1` and jump to NNN. */
    method RunCall(h: seq<Nibble>)
      requires Valid() && |h| == 4 && Allowed(Model(), Call, h[1])
      modifies this, stack
      ensures Valid()
      ensures Model() == ApplyFlow(old(Model()), Call, h)
    {
      stackPtr := stackPtr + 1;
      stack[stackPtr] := (pc + 1) % 0x1_0000;
      pc := Digits2Hex3(h[1], h[2], h[3]);
    }

    /** 3XNN: skip when VX == NN. */
    method RunSkipEqImm(h: seq<Nibble>)
      requires Valid() && |h| == 4
      modifies this
      ensures Valid()
      ensures Model() == ApplyFlow(old(Model()), SkipEqImm, h)
    {
      Skip(reg[h[1]] == Digits2Hex2(h[2], h[3]));
    }

    /** 4XNN: skip when VX != NN. */
    method RunSkipNeImm(h: seq<Nibble>)
      requires Valid() && |h| == 4
      modifies this
      ensures Valid()
      ensures Model() == ApplyFlow(old(Model()), SkipNeImm, h)
    {
      Skip(reg[h[1]] != Digits2Hex2(h[2], h[3]));
    }

    /** 5XY0: skip when VX == VY. */
    method RunSkipEqReg(h: seq<Nibble>)
      requires Valid() && |h| == 4
      modifies this
      ensures Valid()
      ensures Model() == ApplyFlow(old(Model()), SkipEqReg, h)
    {
      Skip(reg[h[1]] == reg[h[2]]);
    }

    /** 9XY0: skip when VX != VY. */
    method RunSkipNeReg(h: seq<Nibble>)
      requires Valid() && |h| == 4
      modifies this
      ensures Valid()
      ensures Model() == ApplyFlow(old(Model()), SkipNeReg, h)
    {
      Skip(reg[h[1]] != reg[h[2]]);
    }

    /** The tail of a skip: `pc++` once more when the test held, then `pc++`. */
    method Skip(taken: bool)
      requires Valid()
      modifies this
      ensures Valid()
      ensures Model() == old(Model()).(pc := Advance(old(pc), if taken then 2 else 1))
    {
      if taken {
        pc := (pc + 1) % 0x1_0000;
      }
      pc := (pc + 1) % 0x1_0000;
    }

    /** BNNN: jump to NNN + V0. */
    method RunJumpOffset(h: seq<Nibble>)
      requires Valid() && |h| == 4
      modifies this
      ensures Valid()
      ensures Model() == ApplyFlow(old(Model()), JumpOffset, h)
    {
      pc := Digits2Hex3(h[1], h[2], h[3]) + reg[0];
    }

    /** 6XNN: VX = NN. */
    method RunLoadImm(h: seq<Nibble>)
      requires Valid() && |h| == 4
      modifies this, reg
      ensures Valid()
      ensures Model() == ApplyRegister(old(Model()), LoadImm, h)
    {
      SetRegister(h[1], Digits2Hex2(h[2], h[3]));
    }

    /** 7XNN: VX += NN, in eight bits. */
    method RunAddImm(h: seq<Nibble>)
      requires Valid() && |h| == 4
      modifies this, reg
      ensures Valid()
      ensures Model() == ApplyRegister(old(Model()), AddImm, h)
    {
      SetRegister(h[1], (reg[h[1]] + Digits2Hex2(h[2], h[3])) % 0x100);
    }

    /** 8XY0: VX = VY. */
    method RunMove(h: seq<Nibble>)
      requires Valid() && |h| == 4
      modifies this, reg
      ensures Valid()
      ensures Model() == ApplyRegister(old(Model()), Move, h)
    {
      SetRegister(h[1], reg[h[2]]);
    }

    /** 8XY1: VX |= VY. */
    method RunOr(h: seq<Nibble>)
      requires Valid() && |h| == 4
      modifies this, reg
      ensures Valid()
      ensures Model() == ApplyRegister(old(Model()), Or, h)
    {
      SetRegister(h[1], Or8(reg[h[1]], reg[h[2]]));
    }

    /** 8XY2: VX &= VY. */
    method RunAnd(h: seq<Nibble>)
      requires Valid() && |h| == 4
      modifies this, reg
      ensures Valid()
      ensures Model() == ApplyRegister(old(Model()), And, h)
    {
      SetRegister(h[1], And8(reg[h[1]], reg[h[2]]));
    }

    /** 8XY3: VX ^= VY. */
    method RunXor(h: seq<Nibble>)
      requires Valid() && |h| == 4
      modifies this, reg
      ensures Valid()
      ensures Model() == ApplyRegister(old(Model()), Xor, h)
    {
      SetRegister(h[1], Xor8(reg[h[1]], reg[h[2]]));
    }

    /** `reg[x] = v; pc++`, the shape of most register branches. */
    method SetRegister(x: Nibble, v: Byte)
      requires Valid()
      modifies this, reg
      ensures Valid()
      ensures Model() == old(Model()).(reg := old(Model()).reg[x := v], pc := Advance(old(pc), 1))
    {
      reg[x] := v;
      pc := (pc + 1) % 0x1_0000;
    }

    /** 8XY6: VF gets the low bit of VX, then VX is shifted right; the
        program counter stays. */
    method RunShiftRight(h: seq<Nibble>)
      requires Valid() && |h| == 4
      modifies reg
      ensures Valid()
      ensures Model() == ApplyRegister(old(Model()), ShiftRight, h)
    {
      var x := h[1];
      reg[0xF] := reg[x] % 2;
      reg[x] := reg[x] / 2;
    }

    /** ANNN: I = NNN. */
    method RunSetIndex(h: seq<Nibble>)
      requires Valid() && |h| == 4
      modifies this
      ensures Valid()
      ensures Model() == ApplyRegister(old(Model()), SetIndex, h)
    {
      addrReg := Digits2Hex3(h[1], h[2], h[3]);
      pc := (pc + 1) % 0x1_0000;
    }

    /** FX07: VX = the delay timer. */
    method RunGetDelay(h: seq<Nibble>)
      requires Valid() && |h| == 4
      modifies this, reg
      ensures Valid()
      ensures Model() == ApplyRegister(old(Model()), GetDelay, h)
    {
      SetRegister(h[1], delayTimer);
    }

    /** FX18: the sound timer = VX. */
    method RunSetSound(h: seq<Nibble>)
      requires Valid() && |h| == 4
      modifies this
      ensures Valid()
      ensures Model() == ApplyRegister(old(Model()), SetSound, h)
    {
      soundTimer := reg[h[1]];
      pc := (pc + 1) % 0x1_0000;
    }

    /** FX1E: I += VX, in sixteen bits. */
    method RunAddIndex(h: seq<Nibble>)
      requires Valid() && |h| == 4
      modifies this
      ensures Valid()
      ensures Model() == ApplyRegister(old(Model()), AddIndex, h)
    {
      ghost var m := Model();
      assert ApplyRegister(m, AddIndex, h) == m.(i := (m.i + m.reg[h[1]]) % 0x1_0000, pc := Advance(m.pc, 1));
      addrReg := (addrReg + reg[h[1]]) % 0x1_0000;
      pc := (pc + 1) % 0x1_0000;
    }

    /** FX33: the decimal digits of VX at I, I+1 and I+2. */
    method RunBcd(h: seq<Nibble>)
      requires Valid() && |h| == 4 && Allowed(Model(), Bcd, h[1])
      modifies this, mem
      ensures Valid()
      ensures Model() == ApplyMemory(old(Model()), Bcd, h)
    {
      StoreDigits(reg[h[1]]);
      pc := (pc + 1) % 0x1_0000;
    }

    /** The three stores of FX33. */
    method StoreDigits(v: Byte)
      requires Valid() && addrReg + 2 < MemSize
      modifies mem
      ensures mem[..] == Overwrite(old(mem[..]), addrReg, BcdDigits(v))
    {
      mem[addrReg] := v / 100;
      mem[addrReg + 1] := (v / 10) % 10;
      mem[addrReg + 2] := v % 10;
      assert mem[..] == Overwrite(old(mem[..]), addrReg, BcdDigits(v));
    }

    /** FX55: V0..VX to memory at I. */
    method RunStore(h: seq<Nibble>)
      requires Valid() && |h| == 4 && Allowed(Model(), StoreRegs, h[1])
      modifies this, mem
      ensures Valid()
      ensures Model() == ApplyMemory(old(Model()), StoreRegs, h)
    {
      StoreRegisters(h[1]);
      pc := (pc + 1) % 0x1_0000;
    }

    /** FX65: V0..VX from memory at I. */
    method RunLoad(h: seq<Nibble>)
      requires Valid() && |h| == 4 && Allowed(Model(), LoadRegs, h[1])
      modifies this, reg
      ensures Valid()
      ensures Model() == ApplyMemory(old(Model()), LoadRegs, h)
    {
      LoadRegisters(h[1]);
      pc := (pc + 1) % 0x1_0000;
    }

    /** The `memset` of 00E0: every pixel off. */
    method ClearScreen()
      requires Valid()
      modifies screen
      ensures Screen() == Blank()
    {
      forall r, c | 0 <= r < Height && 0 <= c < Width {
        screen[r, c] := 0;
      }
      assert forall r | 0 <= r < Height :: Screen()[r] == Blank()[r];
    }

    /** The loop of FX55: V0..VX into memory from I on. */
    method StoreRegisters(x: Nibble)
      requires Valid() && addrReg + x < MemSize
      modifies mem
      ensures mem[..] == Overwrite(old(mem[..]), addrReg, reg[..x + 1])
    {
      var k := 0;
      while k <= x
        invariant 0 <= k <= x + 1
        invariant mem[..] == Overwrite(old(mem[..]), addrReg, reg[..k])
      {
        mem[addrReg + k] := reg[k];
        k := k + 1;
      }
    }

    /** The loop of FX65: V0..VX from memory from I on. */
    method LoadRegisters(x: Nibble)
      requires Valid() && addrReg + x < MemSize
      modifies reg
      ensures reg[..] == mem[addrReg..addrReg + x + 1] + old(reg[..])[x + 1..]
    {
      var k := 0;
      while k <= x
        invariant 0 <= k <= x + 1
        invariant forall j :: 0 <= j < k ==> reg[j] == mem[addrReg + j]
        invariant forall j :: k <= j < reg.Length ==> reg[j] == old(reg[j])
      {
        reg[k] := mem[addrReg + k];
        k := k + 1;
      }
      assert reg[..] == mem[addrReg..addrReg + x + 1] + old(reg[..])[x + 1..];
    }
  }
}
