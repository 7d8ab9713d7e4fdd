# CHIP-8 instruction interpreter, modelled in Dafny

This project models the interpreter core of a small CHIP-8 emulator written in C.
The core is `struct Chip8State`, its constructor `chip8_create` and `run_opcode`
in `chip8.c`, together with the macros, constants and `enum OpType` of `chip8.h`.

`run_opcode` splits an opcode into four hexadecimal digits. It then tries a fixed
list of digit templates in order, where -1 is a wildcard and the first template
that fits wins. It runs that template's branch on the machine state in place and
returns 0. When no template fits it returns 1 and changes nothing. Many branches
in the source are empty: they return 0 and change nothing, not even the program
counter. The model reproduces those empty branches as no-ops.

The project has four modules:

- `Bits` (`bits.dfy`) models C's `uint8_t` and `uint16_t` as bounded integers.
  It defines `|`, `&` and `^` bit by bit and proves what each does to every bit.
- `Chip8Header` (`chip8_header.dfy`) models `chip8.h`: the size constants, the
  template test, the digit-to-number macros and the outcome codes.
- `Chip8` (`chip8.dfy`) models `chip8.c`.
  - `Split` is the digit split. `Decode` is the ordered template chain.
  - `Machine` is the state as a value. `Exec` is the specification of one call
    of `run_opcode`.
  - The class `Chip8State` keeps the state as the C struct does, in arrays
    updated in place. Its `RunOpcode` method is proved to produce exactly the
    state and return code that `Exec` gives. There is one method per branch of
    the source that has a body; 0NNN and the empty branches fall through
    `RunOpcode` unchanged. The loops of FX55 and FX65 carry their invariants.
- `Chip8Properties` (`chip8_properties.dfy`) proves what each implemented
  branch does to the state and that it returns 0, and that 0NNN and the empty
  branches change nothing. Each rule is stated on `Exec` for every opcode the
  dispatch sends to that branch.
  It also proves the macros' properties, the dispatch order, call/return and
  store/load round trips, and the effect of the byte-wide parameter.

Wrap-around follows the C types:

- `pc++` and `pc + 1` on the 16-bit program counter are taken mod 2^16.
- `VX += NN` on an 8-bit register is taken mod 256.
- `I += VX` is taken mod 2^16.
- `NNN + V0` in BNNN stays below 0x10FF and does not wrap.

Accesses that the source makes without a bounds check are preconditions of the
model (`Allowed`, `Defined`):

- 00EE needs a non-empty stack.
- 2NNN needs a stack that is not full.
- FX33 needs I + 2 < 4096.
- FX55 and FX65 need I + X < 4096.

The model follows `chip8.c` where it differs from `chip8.h`:

- The struct in `chip8.c` has an `int8_t` stack index that is -1 when the stack
  is empty, and the screen as `[32][64]`. The header's copy of the struct has a
  `uint8_t` index, a `[64][32]` screen and two keyboard fields.
- `chip8.c` declares `run_opcode` with a `uint8_t` parameter. The header
  declares a `uint16_t` parameter and an `enum OpType` result (see Findings).
- `chip8.c` repeats the header's template macro under the name `CHIP8_REG_OP`,
  along with `DIGITS2HEX2/3` and four of the size constants. Each is modelled
  once.

`chip8_create` clears the stack with `memset(c8->stack, 0, CHIP8_STACK)`. That
clears 24 bytes, which is only the first 12 of the 24 two-byte entries. The
constructor therefore promises zeros only for those 12 entries. This does not
change any behaviour: 00EE reads only entries that an earlier 2NNN wrote.

## Model

| member | source | states |
|---|---|---|
| Bits.Bitwise | chip8.c:153-165 | the result of a bitwise operator on the low n bits fits in n bits |
| Bits.BitwiseBit | chip8.c:153-165 | each of the low n bits of the result is the operator applied to the two operands' bits in that place |
| Bits.Or8 | chip8.c:153 | every bit of `a \| b` is the or of the operands' bits |
| Bits.And8 | chip8.c:159 | every bit of `a & b` is the and of the operands' bits |
| Bits.Xor8 | chip8.c:165 | every bit of `a ^ b` is the exclusive or of the operands' bits |
| Chip8Header.Digits2Hex3 | chip8.h:12-22 | three hexadecimal digits always make an address inside the 4096-byte memory |
| Chip8Header.Dig2Hex3 | chip8.h:24 | the low three digits of an opcode always make an address inside memory |
| Chip8Header.OpType.Code | chip8.h:51-58 | the outcome codes lie in 0..4, and 0 is exactly `OP_OTHER` |
| Chip8Header.OpTypeOf | chip8.h:51-58 | an integer names an outcome exactly when it lies in 0..4 |
| Chip8.Split | chip8.c:72-78 | four digits, each below 16, with 4096·h0 + 256·h1 + 16·h2 + h3 equal to the opcode |
| Chip8.SplitJoin | chip8.c:75-78 | the four shifted-and-masked digits put back together give the opcode |
| Chip8.Overwrite | chip8.c:274-276 | memory keeps its length; the bytes in the window hold the new values and every other byte is unchanged |
| Chip8.Blank | chip8.c:89 | 32 rows of 64 pixels, every pixel 0 |
| Chip8.BcdDigits | chip8.c:274-276 | three values, one per stored byte (their meaning is in `BcdDigitsCorrect`) |
| Chip8.Apply | chip8.c:80-299 | every branch keeps the sizes of memory, stack, registers and screen, and keeps the stack index in -1..23 |
| Chip8.ApplyFlow | chip8.c:80-210 | the return, clear, jump, call, skip and jump-with-offset branches keep the state well formed |
| Chip8.ApplyRegister | chip8.c:134-261 | the branches that set one register, I or the sound timer keep the state well formed |
| Chip8.ApplyMemory | chip8.c:273-298 | the BCD, store and load branches keep the state well formed |
| Chip8.Exec | chip8.c:72-302 | one call of the interpreter keeps the state well formed |
| Chip8.ExecAsWritten | chip8.c:72 | through the byte-wide parameter a call never changes registers, memory, I or the timers, and always returns 0 |
| Chip8.Chip8State.Screen | chip8.c:49 | the pixels as 32 rows of 64 |
| Chip8.Chip8State.Model | chip8.c:32-50 | the state as a value has the sizes of the C struct |
| Chip8.Chip8State.constructor | chip8.c:52-64 | fresh arrays of the fixed sizes; all memory and registers 0; the first 12 stack entries 0; empty stack; I, pc and both timers 0 |
| Chip8.Chip8State.RunOpcode | chip8.c:72-302 | the new state and the returned code are exactly those of `Exec` on the old state |
| Chip8.Chip8State.RunFlow | chip8.c:80-210 | the state after the return, clear, jump, call, skip or jump-with-offset branch is that of `ApplyFlow` |
| Chip8.Chip8State.RunRegister | chip8.c:134-261 | the state after a register, I or sound-timer branch is that of `ApplyRegister` |
| Chip8.Chip8State.RunMemory | chip8.c:273-298 | the state after the BCD, store or load branch is that of `ApplyMemory` |
| Chip8.Chip8State.RunReturn | chip8.c:81-86 | pops the return address into pc, zeroes the popped slot and lowers the stack index |
| Chip8.Chip8State.RunClear | chip8.c:88-92 | turns every pixel off and advances pc |
| Chip8.Chip8State.RunJump | chip8.c:98-101 | sets pc to NNN |
| Chip8.Chip8State.RunCall | chip8.c:103-108 | pushes pc + 1 and sets pc to NNN |
| Chip8.Chip8State.RunSkipEqImm | chip8.c:110-116 | adds 2 to pc when VX == NN, 1 otherwise |
| Chip8.Chip8State.RunSkipNeImm | chip8.c:118-124 | adds 2 to pc when VX != NN, 1 otherwise |
| Chip8.Chip8State.RunSkipEqReg | chip8.c:126-132 | adds 2 to pc when VX == VY, 1 otherwise |
| Chip8.Chip8State.RunSkipNeReg | chip8.c:193-199 | adds 2 to pc when VX != VY, 1 otherwise |
| Chip8.Chip8State.Skip | chip8.c:111-114 | the two `pc++` of a skip add 2 when the test held and 1 otherwise, mod 2^16 |
| Chip8.Chip8State.RunJumpOffset | chip8.c:207-210 | sets pc to NNN + V0 |
| Chip8.Chip8State.RunLoadImm | chip8.c:134-138 | sets VX to NN and advances pc |
| Chip8.Chip8State.RunAddImm | chip8.c:140-144 | adds NN to VX mod 256 and advances pc |
| Chip8.Chip8State.RunMove | chip8.c:146-150 | copies VY into VX and advances pc |
| Chip8.Chip8State.RunOr | chip8.c:152-156 | sets VX to VX or VY and advances pc |
| Chip8.Chip8State.RunAnd | chip8.c:158-162 | sets VX to VX and VY and advances pc |
| Chip8.Chip8State.RunXor | chip8.c:164-168 | sets VX to VX xor VY and advances pc |
| Chip8.Chip8State.SetRegister | chip8.c:135-136 | changes register X and pc + 1 and nothing else |
| Chip8.Chip8State.RunShiftRight | chip8.c:178-182 | VF gets the low bit of VX, then VX is halved; pc stays |
| Chip8.Chip8State.RunSetIndex | chip8.c:201-205 | sets I to NNN and advances pc |
| Chip8.Chip8State.RunGetDelay | chip8.c:235-239 | copies the delay timer into VX and advances pc |
| Chip8.Chip8State.RunSetSound | chip8.c:251-255 | copies VX into the sound timer and advances pc |
| Chip8.Chip8State.RunAddIndex | chip8.c:257-261 | adds VX to I mod 2^16 and advances pc |
| Chip8.Chip8State.RunBcd | chip8.c:273-279 | writes the decimal digits of VX at I..I+2 and advances pc |
| Chip8.Chip8State.StoreDigits | chip8.c:274-276 | memory becomes the old memory with the three BCD digits written at I |
| Chip8.Chip8State.RunStore | chip8.c:283-289 | copies V0..VX to memory at I and advances pc |
| Chip8.Chip8State.RunLoad | chip8.c:293-299 | fills V0..VX from memory at I and advances pc |
| Chip8.Chip8State.ClearScreen | chip8.c:89 | every pixel is 0 afterwards |
| Chip8.Chip8State.StoreRegisters | chip8.c:284-286 | memory becomes the old memory with V0..VX written from I on |
| Chip8.Chip8State.LoadRegisters | chip8.c:294-296 | V0..VX come from memory at I; the registers above X keep their values |
| Chip8Properties.MatchOpWildcards | chip8.h:15-19 | a template fits exactly when every non-negative template digit equals the opcode's digit in that place |
| Chip8Properties.Digits2Hex2Digits | chip8.h:21 | the number made of two digits has them as its high and low digit |
| Chip8Properties.Digits2Hex3Digits | chip8.h:22 | the number made of three digits has them as its three digits |
| Chip8Properties.Dig2HexMacros | chip8.h:21-24 | `DIG2HEX3` is `DIGITS2HEX3` of digits 1..3; `DIG2HEX2` combines digits 1 and 2, so it is not NN (0x3123 gives 0x12, not 0x23) |
| Chip8Properties.OpTypeCodes | chip8.h:51-58 | every outcome's code reads back as that outcome, and every code that names an outcome is that outcome's code |
| Chip8Properties.OpTypeCodesDistinct | chip8.h:51-58 | different outcomes have different codes |
| Chip8Properties.Op | chip8.c:74-78 | the opcode built from four digits splits back into those digits |
| Chip8Properties.OpOfSplit | chip8.c:74-78 | building an opcode from the digits of a split gives back the opcode |
| Chip8Properties.Operands | chip8.c:99 | NNN is the opcode's low twelve bits and NN its low byte |
| Chip8Properties.ByteOpcodeDigits | chip8.c:72-78 | for an opcode below 256 the two high digits are 0, so only 00EE, 00E0 or 0NNN can be selected |
| Chip8Properties.DecodeIsFamily | chip8.c:80-299 | the ordered template chain selects, for every opcode, the branch that the family table (leading digit, then low digits) names |
| Chip8Properties.FirstTemplateWins | chip8.c:80-96 | 00EE and 00E0 also fit 0NNN, but the earlier templates win |
| Chip8Properties.SkipRegDecode | chip8.c:126-193 | 5XY? is selected whatever its low digit; 9XY? only when the low digit is 0 |
| Chip8Properties.UnknownExamples | chip8.c:146-301 | 8XY8, 9XY1, EX00 and FX99 fit no template |
| Chip8Properties.CodeIsMatch | chip8.c:80-301 | the returned code is 0 exactly when some template fits and 1 exactly when none does |
| Chip8Properties.UnknownChangesNothing | chip8.c:301 | an opcode no template fits returns 1 and leaves the whole state unchanged |
| Chip8Properties.UnknownCodeReadsAsDraw | chip8.c:301 | the 1 returned for an unknown opcode is `OP_DRAW` under chip8.h's `enum OpType`, not `OP_UNKNOWN` |
| Chip8Properties.StubsChangeNothing | chip8.c:94-96 | 0NNN and every empty branch returns 0 and leaves the whole state unchanged, pc included |
| Chip8Properties.ReturnRule | chip8.c:81-86 | 00EE on a non-empty stack sets pc to the top entry, zeroes that slot, lowers the stack index, changes nothing else and returns 0 |
| Chip8Properties.CallThenReturn | chip8.c:81-108 | 2NNN pushes pc + 1 and jumps to the low twelve bits; the following 00EE returns there, restores the stack index and zeroes the popped slot |
| Chip8Properties.JumpRule | chip8.c:98-101 | 1NNN sets pc to the opcode's low twelve bits and changes nothing else |
| Chip8Properties.JumpOffsetRule | chip8.c:207-210 | BNNN sets pc to NNN + V0, at most 0x10FE, and changes nothing else |
| Chip8Properties.SkipEqImmRule | chip8.c:110-116 | 3XNN adds 2 to pc when VX equals the low byte, else 1, and changes nothing else |
| Chip8Properties.SkipNeImmRule | chip8.c:118-124 | 4XNN adds 2 to pc when VX differs from the low byte, else 1, and changes nothing else |
| Chip8Properties.SkipEqRegRule | chip8.c:126-132 | 5XY? adds 2 to pc when VX equals VY, else 1, and changes nothing else |
| Chip8Properties.SkipNeRegRule | chip8.c:193-199 | 9XY0 adds 2 to pc when VX differs from VY, else 1, and changes nothing else |
| Chip8Properties.AdvanceWraps | chip8.c:90 | one or two `pc++` on the 16-bit pc add 1 or 2, less 2^16 exactly when the sum leaves sixteen bits; 0xFFFF goes to 0 |
| Chip8Properties.ClearScreenRule | chip8.c:88-92 | 00E0 turns every pixel off and changes nothing else but pc + 1 |
| Chip8Properties.LoadImmRule | chip8.c:134-138 | 6XNN sets VX to the low byte, changes no other register and nothing else but pc + 1, and returns 0 |
| Chip8Properties.AddImmRule | chip8.c:140-144 | 7XNN adds the low byte to VX mod 256 (the sum or the sum minus 256), with no carry into VF unless X is F; nothing else but pc + 1 changes, and it returns 0 |
| Chip8Properties.MoveRule | chip8.c:146-150 | 8XY0 copies VY into VX and changes nothing else but pc + 1 |
| Chip8Properties.OrRule | chip8.c:152-156 | 8XY1 makes every bit of VX the or of the bits of VX and VY, changes nothing else but pc + 1, and returns 0 |
| Chip8Properties.AndRule | chip8.c:158-162 | 8XY2 makes every bit of VX the and of the bits of VX and VY, changes nothing else but pc + 1, and returns 0 |
| Chip8Properties.XorRule | chip8.c:164-168 | 8XY3 makes every bit of VX the exclusive or of the bits of VX and VY, changes nothing else but pc + 1, and returns 0 |
| Chip8Properties.ShiftRightRule | chip8.c:178-182 | 8XY6 splits VX into VF (low bit) and VX (the rest), with 2·VX + VF equal to the old VX; pc and everything outside the registers stay; with X = F, VF ends 0; it returns 0 |
| Chip8Properties.SetIndexRule | chip8.c:201-205 | ANNN sets I to the low twelve bits and changes nothing else but pc + 1 |
| Chip8Properties.GetDelayRule | chip8.c:235-239 | FX07 copies the delay timer into VX and changes nothing else but pc + 1 |
| Chip8Properties.SetSoundRule | chip8.c:251-255 | FX18 copies VX into the sound timer and changes nothing else but pc + 1 |
| Chip8Properties.AddIndexRule | chip8.c:257-261 | FX1E makes I the sum of I and VX, less 2^16 when it overflows, changes nothing else but pc + 1, and returns 0 |
| Chip8Properties.BcdDigitsCorrect | chip8.c:274-276 | the three BCD digits are each below 10 and 100·d0 + 10·d1 + d2 is the value |
| Chip8Properties.BcdExample | chip8.c:274-276 | 156 gives 1, 5, 6 |
| Chip8Properties.BcdRule | chip8.c:273-279 | FX33 stores the decimal digits of VX at I..I+2; I and every other byte stay as they were, pc advances by 1, and it returns 0 |
| Chip8Properties.StoreRule | chip8.c:283-289 | FX55 puts V0..VX at I..I+X; I, the registers and every other byte stay as they were, pc advances by 1, and it returns 0 |
| Chip8Properties.LoadRule | chip8.c:293-299 | FX65 fills V0..VX from I..I+X; I, memory and the registers above X stay as they were, pc advances by 1, and it returns 0 |
| Chip8Properties.StoreThenLoad | chip8.c:284-296 | FX55 then FX65 with the same X and I gives every register back its old value and leaves I unchanged |
| Chip8Properties.StoreThenLoadBranches | chip8.c:284-296 | the same round trip, stated on the two branches |
| Chip8Properties.ByteWideDropsJump | chip8.c:72 | through the byte-wide parameter 0x1234 arrives as 0x34 and does nothing; with a 16-bit parameter it jumps to 0x234 |

## Left out

- The SDL plumbing in `chip8.c` is not modelled: `main` creates a window and `delay` sleeps (chip8.c:24-30, 304-340).
- `chip8_destroy` and the `malloc`/`calloc` of `chip8_create` are not modelled, because the model has no explicit heap to free. The constructor allocates the arrays instead.
- main.c is not part of this model. It holds keyboard polling, pixel rendering, the real-time run loop and the 60 Hz timer decrement, all driven by wall-clock time and SDL.
- sdlctx.c, sdlctx.h, debug.c and debug.h are not part of this model. They hold SDL set-up and text dumps of opcodes.
- `chip8state_create`, `chip8state_init`, `chip8state_destroy` and `fetch_and_run` are declared in chip8.h:60-64 but have no definition in the source, so they are not modelled. Neither are ROM loading, the font table or instruction fetch.
- The behaviour that the source's comments describe for 8XY4, 8XY5, 8XY7, 8XYE, CXNN, DXYN, EX9E, EXA1, FX0A, FX15 and FX29 is not modelled. Their branches in chip8.c are empty, so the model makes them no-ops (`StubsChangeNothing`). Randomness, keys, drawing and the font therefore never appear.
- The screen after `chip8_create` is not specified. The source never initialises it.
- The `uint8_t` stack index of chip8.h is not modelled; the model follows `chip8.c`'s `int8_t`. Out-of-range stack and memory accesses are preconditions rather than modelled undefined behaviour.
- `PIXEL_ON`, `PIXEL_OFF` and `CHIP8_MAX_ROM_SIZE` (chip8.h:8-9, 14) are not modelled. Only drawing and ROM loading use them, and neither is part of this model.
- The `keyboard` and `key_pressed` fields of chip8.h's struct are not modelled. No implemented branch uses them.
- Chip8.Chip8State.RunOpcode: the `uint8_t` parameter of chip8.c:72 is modelled separately by `ExecAsWritten` (see Findings). The method takes the 16-bit opcode declared in chip8.h:63.

## Findings

| source | as written | input that shows it | evidently intended | confidence | as-written member | corrected member |
|---|---|---|---|---|---|---|
| chip8.c:72 | `run_opcode` takes a `uint8_t op`, so every opcode is cut to its low byte. Only 00EE, 00E0 and 0NNN can then be selected, and no other instruction ever runs. | 0x1234 arrives as 0x34. It fits 0NNN and does nothing, where the jump should set pc to 0x234. | a `uint16_t` parameter, as declared at chip8.h:63 | not executed | Chip8.ExecAsWritten, Chip8Properties.ByteWideDropsJump | Chip8.Exec, Chip8.Chip8State.RunOpcode |
