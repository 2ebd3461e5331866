# CHIP-8 instruction handlers

A model of the CHIP-8 interpreter core of this repository: the `Chip8`
class (16 eight-bit registers V0..VF, a 16-level return stack with its
stack pointer, the program counter, the index register, the current
opcode, the 16-cell keypad and the 64x32 frame buffer) and the instruction
handlers that update it in place: CLS, RET, JP, CALL, the four conditional
skips, the register loads, the 8-bit ALU family 8xy0..8xyE, LD I and
JP V0. The size constants and the built-in font table are modelled as
constant data.

Files:

- `constants.dfy` (module `Constants`): the sizes of Chip8.hpp, the font
  table and addresses of Chip8.cpp, and the unsigned integer widths.
- `bits.dfy` (module `Bits`): bitwise OR, AND and XOR on unsigned
  integers, defined bit by bit, with their algebraic laws.
- `semantics.dfy` (module `Semantics`): the machine state as a value and
  one transition function per handler; each contract states what the
  handler means (carry and borrow flags, wrap-around, what is preserved).
- `machine.dfy` (module `Machine`): the `Chip8` class with array fields
  and one method per handler, written as the C++ bodies are and proved to
  reach exactly the state the matching `Semantics` function gives.
- `properties.dfy` (module `Properties`): properties that relate several
  handlers (CALL/RET nesting, complementary skips, inverse operations).

Modelling choices:

- Registers and keypad cells are `u8`, pc, index, opcode and stack
  entries `u16`, frame-buffer cells `u32` (integer ranges). The header
  declares only `keypad` and `video`; the other widths follow their use
  (`uint16_t addr` at Chip8.cpp:46, `uint8_t` fields). `sp` is a `nat`
  kept at most 16.
- C++ integer promotion and conversion are written out: arithmetic is
  done on `int` and converted back with `Trunc8`/`Trunc16` (reduction
  modulo 2^8 or 2^16), so `pc += 2` wraps at 2^16 and `regs[Vx] += byte`
  at 2^8. Masks that select a low field are written as `%` and `/`
  (`opcode & 0x0FFF` is `opcode % 0x1000`, `(opcode & 0x0F00) >> 8` is
  `(opcode / 0x100) % 0x10`, `& 0x1` is `% 2`, `& 0x80` on a byte is
  `(v / 0x80) * 0x80`); `|`, `&` and `^` between two registers use the
  bit-by-bit definitions of `Bits`.
- The handlers have no guards; RET with `sp == 0` and CALL with
  `sp == 16` index the stack out of bounds in C++, so these are
  preconditions.

Where the code departs from the usual CHIP-8 description, the model
follows the code:

- 8xyE sets VF to `Vx & 0x80`, that is 0 or 128, not 0 or 1.
- Annn and Bnnn pass nnn through a `uint8_t`, so only its low byte is
  used: the index register is at most 0xFF and JP V0 lands below 0x1FF.
- 8xy4, 8xy5, 8xy6, 8xy7 and 8xyE write VF before Vx, so with x = F the
  final VF is the arithmetic result, not the flag (0 for both shifts,
  which re-read Vx after VF is written).

## Model

| member | source | states |
|---|---|---|
| Constants.FrameBufferSize | Chip8.hpp:7-9 | the frame buffer has 64 x 32 = 2048 cells |
| Constants.FontLayout | Chip8.cpp:8-30 | the font is 16 glyphs of 5 bytes; placed at 0x50 it ends at 0xA0, below the program start 0x200, which lies inside the 4096-byte memory |
| Bits.Bitwise | Chip8.cpp:108-127 | OR, AND and XOR of two w-bit values are again w-bit values |
| Bits.OrUpperBound | Chip8.cpp:108-113 | the bitwise OR of `a` and `b` is at least `a` and at least `b` |
| Bits.AndLowerBound | Chip8.cpp:115-120 | `a & b` is at most `a` and at most `b` |
| Bits.OrPlusAnd | Chip8.cpp:108-120 | the bitwise OR plus the bitwise AND of two values is their sum |
| Bits.OrAndIdempotent | Chip8.cpp:108-120 | OR and AND of a value with itself give the value back |
| Bits.XorSelfZero | Chip8.cpp:122-127 | `a ^ a == 0` |
| Bits.XorInvolution | Chip8.cpp:122-127 | `(a ^ b) ^ b == a` |
| Bits.Or8 | Chip8.cpp:112 | the byte OR-assignment to Vx: the result is at least both operands |
| Bits.And8 | Chip8.cpp:119 | the byte `regs[Vx] &= regs[Vy]`: the result is at most both operands |
| Bits.Xor8 | Chip8.cpp:126 | the byte `regs[Vx] ^= regs[Vy]`: XOR-ing the result with the second operand gives the first back |
| Semantics.Valid | Chip8.hpp:5-10 | a machine state has 16 registers, a 16-level stack with sp at most 16, 16 keys and a 64 x 32 frame buffer |
| Semantics.Trunc8 | Chip8.cpp:98 | conversion to `uint8_t`: the result is congruent to the value modulo 256 and equals it when it already fits |
| Semantics.Trunc16 | Chip8.cpp:149 | conversion to `uint16_t`: the result is congruent to the value modulo 65536 and equals it when it already fits |
| Semantics.Kk | Chip8.cpp:61 | `opcode & 0x00FF` is the low byte: 256 times the high byte plus kk is the opcode |
| Semantics.Skipped | Chip8.cpp:64 | `pc += 2` on a `uint16_t`: pc + 2, except that 0xFFFE and 0xFFFF wrap to 0 and 1 |
| Semantics.X | Chip8.cpp:60 | the x field of any opcode indexes the 16 registers and the 16 keys |
| Semantics.Y | Chip8.cpp:81 | the y field of any opcode indexes the 16 registers and the 16 keys |
| Semantics.Nnn | Chip8.cpp:52 | the nnn field of any opcode is a valid address in the 4096-byte memory |
| Semantics.Op00E0 | Chip8.cpp:33-36 | CLS sets all 2048 frame-buffer cells to 0 and changes nothing else |
| Semantics.Op00EE | Chip8.cpp:38-42 | RET (with sp at least 1) decrements sp and loads pc from the slot it now points to; nothing else changes |
| Semantics.Op1nnn | Chip8.cpp:44-48 | JP sets pc to the low 12 bits of the opcode, always below 4096; nothing else changes |
| Semantics.Op2nnn | Chip8.cpp:50-56 | CALL (with sp below 16) stores pc at stack[sp], increments sp and jumps to nnn; nothing else changes |
| Semantics.Op3xkk | Chip8.cpp:58-66 | SE Vx, byte adds 2 to pc (mod 2^16) when Vx == kk and leaves pc alone otherwise; nothing else changes |
| Semantics.Op4xkk | Chip8.cpp:68-76 | SNE Vx, byte adds 2 to pc (mod 2^16) when Vx != kk and leaves pc alone otherwise; nothing else changes |
| Semantics.Op5xy0 | Chip8.cpp:78-85 | SE Vx, Vy adds 2 to pc (mod 2^16) when Vx == Vy and leaves pc alone otherwise; nothing else changes |
| Semantics.Op9xy0 | Chip8.cpp:189-196 | SNE Vx, Vy adds 2 to pc (mod 2^16) when Vx != Vy and leaves pc alone otherwise; nothing else changes |
| Semantics.Op6xkk | Chip8.cpp:87-92 | LD Vx, byte sets Vx to kk and changes no other register or field |
| Semantics.Op7xkk | Chip8.cpp:94-99 | ADD Vx, byte sets Vx to (Vx + kk) mod 256, smaller than before exactly when the sum exceeds 255; VF and every other register are untouched unless x is F |
| Semantics.Op8xy0 | Chip8.cpp:101-106 | LD Vx, Vy copies Vy into Vx and changes nothing else |
| Semantics.Op8xy1 | Chip8.cpp:108-113 | OR sets Vx to the bitwise OR of Vx and Vy, which is at least both operands; only Vx changes |
| Semantics.Op8xy2 | Chip8.cpp:115-120 | AND sets Vx to Vx & Vy, which is at most both operands; only Vx changes |
| Semantics.Op8xy3 | Chip8.cpp:122-127 | XOR sets Vx to Vx ^ Vy, from which XOR with Vy gives the old Vx back; only Vx changes |
| Semantics.Op8xy4 | Chip8.cpp:129-143 | ADD Vx, Vy sets Vx to the sum mod 256; for x other than F, VF is 1 iff the sum exceeds 255 and 256 * VF + Vx is the exact sum; only Vx and VF change |
| Semantics.Op8xy5 | Chip8.cpp:145-158 | SUB sets Vx to Vx - Vy, plus 256 when Vy is larger; for x other than F, VF is 1 iff Vx > Vy strictly, else 0; only Vx and VF change |
| Semantics.Op8xy6 | Chip8.cpp:160-165 | SHR: for x other than F, VF is the low bit of the old Vx, Vx its half, and 2 * Vx + VF the old Vx; for x = F, VF ends at 0; only Vx and VF change |
| Semantics.Op8xy7 | Chip8.cpp:167-180 | SUBN sets Vx to Vy - Vx, plus 256 when Vx is larger; for x other than F, VF is 1 iff Vy > Vx strictly, else 0; only Vx and VF change |
| Semantics.Op8xyE | Chip8.cpp:182-187 | SHL: for x other than F, VF is 128 iff the old Vx is at least 128 and 0 otherwise, and Vx + 2 * VF is twice the old Vx; for x = F, VF ends at 0; only Vx and VF change |
| Semantics.OpAnnn | Chip8.cpp:198-201 | LD I sets index to nnn mod 256 (the low byte of the opcode), below 256; nothing else changes |
| Semantics.OpBnnn | Chip8.cpp:203-206 | JP V0 sets pc to (nnn mod 256) + V0, below 0x1FF; nothing else changes |
| Properties.CallThenRet | Chip8.cpp:38-56 | CALL then RET restores pc and sp exactly; the only other trace is the return address left in the freed stack slot |
| Properties.NestedCallsReturn | Chip8.cpp:38-56 | any run of CALLs that fits in the 16-level stack, followed by as many RETs, restores pc, sp, registers, index, frame buffer and the stack below sp |
| Properties.SkipByteExactlyOne | Chip8.cpp:58-76 | on the same state exactly one of 3xkk and 4xkk skips, by exactly 2 |
| Properties.SkipRegExactlyOne | Chip8.cpp:78-85 | on the same state exactly one of 5xy0 and 9xy0 skips, by exactly 2 |
| Properties.LoadThenSkipEqual | Chip8.cpp:87-92 | after 6xkk loads kk into Vx, 3xkk with that x and kk skips and 4xkk does not |
| Properties.AddByteInverse | Chip8.cpp:94-99 | two 7xkk on one register whose bytes sum to 0 mod 256 give all registers back |
| Properties.AddThenSubRestores | Chip8.cpp:129-158 | 8xy4 then 8xy5 on distinct x, y other than F gives Vx back and changes only Vx and VF |
| Properties.XorTwiceRestores | Chip8.cpp:122-127 | 8xy3 applied twice with x != y leaves the registers as they were |
| Properties.SameRegisterLogic | Chip8.cpp:108-127 | with x = y, 8xy1 and 8xy2 change nothing and 8xy3 clears Vx |
| Properties.SubEqualOperands | Chip8.cpp:145-180 | with Vx = Vy and x other than F, 8xy5 and 8xy7 both leave Vx = 0 and VF = 0 |
| Properties.ShiftLeftThenRight | Chip8.cpp:160-187 | 8xyE then 8xy6 on x other than F leaves Vx = old Vx mod 128 and VF = 0 |
| Properties.ClearIdempotent | Chip8.cpp:33-36 | clearing the screen twice is the same as clearing it once |
| Properties.CopyThenSkipEqual | Chip8.cpp:101-106 | after 8xy0, 5xy0 on the same x, y skips and 9xy0 does not |
| Properties.SubnIsSwappedSub | Chip8.cpp:145-180 | 8xy7 leaves in Vx and VF what 8yx5 leaves in Vy and VF, for distinct x, y other than F |
| Properties.AnnnKeepsLowByte | Chip8.cpp:198-201 | LD I loads nnn exactly iff nnn is below 0x100 |
| Properties.BnnnKeepsLowByte | Chip8.cpp:203-206 | JP V0 jumps to nnn + V0 exactly iff nnn is below 0x100 |
| Machine.Chip8.Valid | Chip8.hpp:18-19 | the arrays of a machine object have their declared sizes (the frame buffer 64 x 32 cells, 16 keys, 16 registers, 16 stack levels) and sp is at most 16 |
| Machine.Chip8.Snapshot | Chip8.hpp:12-23 | the fields and arrays of a valid machine object, read as a machine state value, form a valid state |
| Machine.CallThenRetOnMachine | Chip8.cpp:38-56 | on a machine object, CALL then RET restores pc and sp, and nothing else changes except that the freed stack slot holds the old pc |
| Machine.Chip8.constructor | Chip8.hpp:18-19 | a new machine has fresh arrays of the declared sizes, with every keypad and frame-buffer cell 0 |
| Machine.Chip8.Op00E0 | Chip8.cpp:33-36 | clears the frame buffer in place, cell by cell; the new state is `Semantics.Op00E0` of the old |
| Machine.Chip8.Op00EE | Chip8.cpp:38-42 | writes only sp and pc; the new state is `Semantics.Op00EE` of the old |
| Machine.Chip8.Op1nnn | Chip8.cpp:44-48 | writes only pc; the new state is `Semantics.Op1nnn` of the old |
| Machine.Chip8.Op2nnn | Chip8.cpp:50-56 | writes only the stack, sp and pc; the new state is `Semantics.Op2nnn` of the old |
| Machine.Chip8.Op3xkk | Chip8.cpp:58-66 | writes only pc; the new state is `Semantics.Op3xkk` of the old |
| Machine.Chip8.Op4xkk | Chip8.cpp:68-76 | writes only pc; the new state is `Semantics.Op4xkk` of the old |
| Machine.Chip8.Op5xy0 | Chip8.cpp:78-85 | writes only pc; the new state is `Semantics.Op5xy0` of the old |
| Machine.Chip8.Op6xkk | Chip8.cpp:87-92 | writes only the registers; the new state is `Semantics.Op6xkk` of the old |
| Machine.Chip8.Op7xkk | Chip8.cpp:94-99 | writes only the registers; the new state is `Semantics.Op7xkk` of the old |
| Machine.Chip8.Op8xy0 | Chip8.cpp:101-106 | writes only the registers; the new state is `Semantics.Op8xy0` of the old |
| Machine.Chip8.Op8xy1 | Chip8.cpp:108-113 | writes only the registers; the new state is `Semantics.Op8xy1` of the old |
| Machine.Chip8.Op8xy2 | Chip8.cpp:115-120 | writes only the registers; the new state is `Semantics.Op8xy2` of the old |
| Machine.Chip8.Op8xy3 | Chip8.cpp:122-127 | writes only the registers; the new state is `Semantics.Op8xy3` of the old |
| Machine.Chip8.Op8xy4 | Chip8.cpp:129-143 | writes VF, then Vx; the new state is `Semantics.Op8xy4` of the old |
| Machine.Chip8.Op8xy5 | Chip8.cpp:145-158 | writes VF, then Vx; the new state is `Semantics.Op8xy5` of the old |
| Machine.Chip8.Op8xy6 | Chip8.cpp:160-165 | writes VF, then Vx re-read; the new state is `Semantics.Op8xy6` of the old |
| Machine.Chip8.Op8xy7 | Chip8.cpp:167-180 | writes VF, then Vx; the new state is `Semantics.Op8xy7` of the old |
| Machine.Chip8.Op8xyE | Chip8.cpp:182-187 | writes VF, then Vx re-read; the new state is `Semantics.Op8xyE` of the old |
| Machine.Chip8.Op9xy0 | Chip8.cpp:189-196 | writes only pc; the new state is `Semantics.Op9xy0` of the old |
| Machine.Chip8.OpAnnn | Chip8.cpp:198-201 | writes only index; the new state is `Semantics.OpAnnn` of the old |
| Machine.Chip8.OpBnnn | Chip8.cpp:203-206 | writes only pc; the new state is `Semantics.OpBnnn` of the old |

## Left out

- Cxkk (RND, Chip8.cpp:208-212): draws from a random source, and its body is incomplete (no generator, no `& kk`).
- `load` (Chip8.hpp:15): file input, and it has no body.
- `Cycle` (Chip8.hpp:16): declared but never defined, so there is no fetch, decode or dispatch to model; the handlers are modelled on their own, each reading the current `opcode` field.
- Dxyn, Ex9E, ExA1, all Fx__ instructions and the timer tick: not implemented in this code.
- Memory and the font copy into it: no memory array is declared and no modelled handler reads or writes memory; the font is modelled as constant data and its placement as arithmetic on the addresses.
- The constructor `Chip8()` (Chip8.hpp:14) has no body; the model zeroes every field but promises only the value-initialised `keypad` and `video`.
- Machine.Chip8.constructor: states nothing about regs, stack, pc, sp, index or opcode, because the C++ leaves them uninitialised.
- Host concerns: timing (`<chrono>`), file streams (`<fstream>`), random numbers (`<random>`), rendering, audio and input polling.
