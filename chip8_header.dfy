/** The declarations of the interpreter's header: the fixed sizes, the
    opcode template matcher, the macros that reassemble operands from the
    hexadecimal digits of an opcode, and the outcome codes.
 */
module Chip8Header {
  import opened Bits

  datatype Option<T> = None | Some(value: T)

  // Fixed sizes of the machine.
  const Width: int := 64
  const Height: int := 32
  const MemSize: int := 4096
  const StackSize: int := 24

  /** The template test of `CHIP8_MATCH_OP` (repeated in the interpreter as
      `CHIP8_REG_OP`): the four hexadecimal digits `h` of an opcode (most
      significant first) fit the template `d0 d1 d2 d3`, in which a
      negative digit is a wildcard. */
  predicate MatchOp(h: seq<Nibble>, d0: int, d1: int, d2: int, d3: int)
    requires |h| == 4
  {
    (d0 < 0 || h[0] == d0)
    && (d1 < 0 || h[1] == d1)
    && (d2 < 0 || h[2] == d2)
    && (d3 < 0 || h[3] == d3)
  }

  /** `DIGITS2HEX2`: two hexadecimal digits, most significant first, as a
      number (the source shifts `d0` left by 4; on a digit that is `16 * d0`). */
  function Digits2Hex2(d0: Nibble, d1: Nibble): (r: Byte)
  {
    d0 as int * 16 + d1
  }

  /** `DIGITS2HEX3`: three hexadecimal digits as a number, always an address
      inside memory. */
  function Digits2Hex3(d0: Nibble, d1: Nibble, d2: Nibble): (r: nat)
    ensures r < MemSize
  {
    d0 as int * 256 + d1 as int * 16 + d2
  }

  /** `DIG2HEX2`: the number formed by the digits `h[1]` and `h[2]` of an
      opcode (not its low byte `h[2] h[3]`). */
  function Dig2Hex2(h: seq<Nibble>): (r: Byte)
    requires |h| == 4
  {
    h[1] as int * 16 + h[2]
  }

  /** `DIG2HEX3`: the number formed by the low three digits of an opcode. */
  function Dig2Hex3(h: seq<Nibble>): (r: nat)
    requires |h| == 4
    ensures r < MemSize
  {
    h[1] as int * 256 + h[2] as int * 16 + h[3]
  }

  /** The outcome classes of `enum OpType`. */
  datatype OpType = OpOther | OpDraw | OpKeypress | OpWait | OpUnknown
  {
    /** The number C gives each enumerator. */
    function Code(): (c: int)
      ensures 0 <= c <= 4
      ensures c == 0 <==> this == OpOther
    {
      match this
      case OpOther => 0
      case OpDraw => 1
      case OpKeypress => 2
      case OpWait => 3
      case OpUnknown => 4
    }
  }

  /** The enumerator an integer denotes, if any. */
  function OpTypeOf(c: int): (r: Option<OpType>)
    ensures r.Some? <==> 0 <= c <= 4
  {
    if c == 0 then Some(OpOther)
    else if c == 1 then Some(OpDraw)
    else if c == 2 then Some(OpKeypress)
    else if c == 3 then Some(OpWait)
    else if c == 4 then Some(OpUnknown)
    else None
  }
}
