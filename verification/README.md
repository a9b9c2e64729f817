# CHIP-8 execution engine in Dafny

A model of the execution engine of a small CHIP-8 interpreter written in C,
with proofs about it. The instruction set is the one of Cowgod's Chip-8
Technical Reference, section 3.1 (Standard Chip-8 Instructions). The model
covers:

- the 4096-byte memory with its bounds-checked `set`, `get` and big-endian
  `get_word` (`Memory`);
- the register file and the sixteen-slot call stack with `push` and `pop`
  (`Machine`, `Stack`);
- machine set-up (`chip8_init`: zeroed state plus the 80-byte font) and
  program loading at 0x200 (`chip8_load`);
- the transition `(state, opcode) -> state'` of `chip8_exec` and its helpers
  for the families 8xyN and FxKK (`Engine`);
- the driver's fetch/advance/execute step (`Driver`).

The machine is an immutable record and every operation a pure function.
`byte` and `word` are integer subset types, and every C store into one of
them is written out as a reduction modulo 256 or 65536. The C `assert`s
become preconditions. `Memory.IsInBounds` and `Stack.InBounds` are the two
bounds assertions, and `CanExec` gathers the ones a single instruction can
reach. Because `get` and `get_word` are pure functions, they cannot modify
memory. Bitwise `&`, `|` and `^` are defined bit by bit in `Bits`. Opcode
fields are taken with division and remainder, which agree with the C shifts
and masks on unsigned values.

Collaborators the engine cannot see are inputs. An `Io` value carries the key
that `Fx0A` waits for, the value of `rand()`, the collision answer of a sprite
draw, and the keypad's `is_down` predicate. `ScreenCallOf` names the
framebuffer call an instruction makes: clear for 00E0, and a sprite draw with
its arguments for Dxyn.

The engine is modelled as the C code is written. Where the code departs from
the usual CHIP-8 semantics, the model follows the code:

- 5xy0 has no `break` and continues into 6xkk, so Vx ends up holding the low
  byte of the opcode (`Instructions.SkipEqualFallsIntoLoad`).
- 5xy0 and 9xy0 do not check the low nibble.
- 8xy5 has no `break` and continues into 8xy6. The result is half the
  difference, and VF is its lowest bit rather than the borrow
  (`Instructions.SubFallsIntoShift`, `Instructions.SubExamples`).
- 8xy5 and 8xy7 compute the flag with a strict `>`, so equal operands give
  VF = 0 (`Instructions.SubNegatedOp`).
- 8xyE sets VF to `Vx & 0x80`, which is 0 or 128 (`Instructions.ShiftLeftOp`).
- Cxkk computes `rand() % 255 && kk`, a logical AND, so Vx becomes 0 or 1
  (`Instructions.RandomIsBoolean`).
- `chip8_load` asserts `size + 0x200 < 0x1000` strictly. A program that would
  fill memory exactly is therefore refused.
- SP can reach 16 after sixteen pushes (`Stack.PushBound`). `pop` decrements
  before it checks, so its effective precondition is 1 <= SP <= 16
  (`Stack.PopPrecondition`).
- The 8xyN cases update registers one after another, so an operand F can
  read back the flag the case has just written. This happens in 8xy5 and
  8xy7 when x or y is F, and in 8xy6 and 8xyE when x is F. 8xy4 takes its
  sum before it touches the flag. So 8xF4 adds the old VF, and 8Fy4 stores
  the truncated sum over the carry without reading it. `SubWithBorrow`,
  `SubNegated`, `ShiftRight`, `ShiftLeft` and `AddWithCarry` state the F
  cases, and `Instructions.FlagOperandExamples` works three of them out.

## Model

| member | source | states |
|---|---|---|
| Memory.IsInBounds | src/chip8memory.c:5-8 | the bounds assertion of every memory access: 0 <= index < 0x1000 |
| Memory.Get | src/chip8memory.c:16-20 | get is allowed exactly where the bounds assertion holds and returns the stored byte; Set's contract relates the two |
| Memory.Set | src/chip8memory.c:10-20 | set requires 0 <= index < 0x1000; a get of the index just set returns the stored byte; every other index keeps its byte |
| Memory.GetWord | src/chip8memory.c:22-29 | requires both bytes in bounds; the word is get(i) * 256 + get(i+1), high byte first, and splits back into those two bytes |
| Memory.GetWordInBounds | src/chip8memory.c:22-27 | the two bounds checks of get_word hold exactly when 0 <= i <= 0xFFE |
| Memory.Copy | src/chip8.c:41-50 | memcpy to an offset: the buffer lands at [at, at+len), all other bytes unchanged |
| Bits.AndByteOne | src/chip8.c:112 | `v & 0b00000001` is v mod 2 |
| Bits.AndByteTop | src/chip8.c:124 | `v & 0b10000000` is 128 when v >= 128, else 0 |
| Bits.OrBit | src/chip8.c:72 | for every bit position below the width, bit k of `a \| b` is set iff bit k of a or of b is set |
| Bits.AndBit | src/chip8.c:77 | bit k of `a & b` is set iff bit k of both a and b is set |
| Bits.XorBit | src/chip8.c:82 | bit k of `a ^ b` is set iff bit k of a and of b differ |
| Bits.BitsDetermine | src/chip8.c:69-83 | two values below 2^width with the same bits are equal, so the three bit lemmas fix the operators' results |
| Bits.ByteOperatorExamples | src/chip8.c:69-83 | 0xA5 \| 0x3C = 0xBD, 0xA5 & 0x3C = 0x24, 0xA5 ^ 0x3C = 0x99 |
| Bits.ComposeBytes | src/chip8memory.c:28-29 | `hi << 8 \| lo` on two bytes equals hi * 256 + lo |
| Stack.InBounds | src/chip8stack.c:7-10 | the stack assertion: SP < 16 |
| Stack.Push | src/chip8stack.c:12-17 | requires SP < 16; stores the word at slot SP, SP grows by exactly one without wrapping, other slots, registers and memory unchanged |
| Stack.Pop | src/chip8stack.c:19-24 | requires the decremented 8-bit SP to index a slot; then 1 <= SP <= 16, the result is slot SP-1, SP drops by one, no slot changes |
| Stack.PopPrecondition | src/chip8stack.c:19-22 | pop's assertion holds exactly when 1 <= SP <= 16; from SP = 0 the decrement wraps to 255 |
| Stack.PushPop | src/chip8stack.c:12-24 | push(v) then pop returns v and restores every register, SP included |
| Stack.Lifo | src/chip8stack.c:12-24 | push a, push b, pop, pop yields b then a and restores the registers |
| Stack.PushAll | src/chip8stack.c:12-17 | pushes of n words from SP need SP + n <= 16; they raise SP by n, put the words in slots SP..SP+n-1 in order, and leave the other slots, the other registers and memory unchanged |
| Stack.PushBound | src/chip8stack.c:7-17 | from SP = 0, sixteen pushes are all allowed, leave SP = 16 and the stack equal to the pushed words, and a seventeenth push would violate the assertion |
| Engine.DefaultCharacterSet | src/chip8.c:15-32 | the font table, byte for byte: sixteen glyphs of five rows for the digits 0..F |
| Engine.Init | src/chip8.c:15-42 | the 80-byte font at memory[0..80), every other byte, register, timer and stack slot zero |
| Engine.Load | src/chip8.c:45-53 | requires size + 0x200 < 0x1000; the program at [0x200, 0x200+size), other bytes unchanged, PC = 0x200, nothing else changes |
| Engine.LowByte | src/chip8.c:231-234 | the kk field of an opcode is its y nibble times 16 plus its n nibble |
| Engine.AddWithCarry | src/chip8.c:85-97 | Vx = (Vx + Vy) mod 256; for x != F, VF = 1 iff the sum exceeds 255; for x = F the sum replaces the flag; other registers unchanged |
| Engine.SubWithBorrow | src/chip8.c:99-108 | for x, y != F: VF = 1 iff Vx > Vy strictly, Vx = (Vx - Vy) mod 256. An operand F reads 0 in the comparison and the new flag f in the subtraction: the flag is f = (a > b) with F read as 0, and Vx ends at the difference with F read as f. Registers other than x and F are unchanged |
| Engine.ShiftRight | src/chip8.c:110-114 | for x != F: VF = Vx mod 2, Vx = Vx / 2; for x = F the flag ends at 0; other registers unchanged |
| Engine.SubNegated | src/chip8.c:116-120 | for x, y != F: VF = 1 iff Vy > Vx strictly, Vx = (Vy - Vx) mod 256. An operand F contributes the new flag f = (Vy > Vx) to the subtraction, and for x != F, VF = f. Other registers are unchanged |
| Engine.ShiftLeft | src/chip8.c:122-126 | for x != F: VF is 128 or 0 by the top bit of Vx, Vx = 2 * Vx mod 256; for x = F the flag ends at 0 |
| Engine.ExecuteExtendedEight | src/chip8.c:55-129 | only registers x and F can change; memory, stack, SP, PC, I and timers stay; low nibbles 8..D and F change nothing |
| Engine.StoreRegisters | src/chip8.c:205-213 | the Fx55 loop writes V[k] to memory[I+k] for every k up to x and leaves every other byte |
| Engine.LoadRegisters | src/chip8.c:215-223 | the Fx65 loop sets V[k] to memory[I+k] for every k up to x and leaves every other register |
| Engine.ExecuteExtendedF | src/chip8.c:150-226 | never touches PC, SP or the stack; memory changes only for Fx33/Fx55, I only for Fx1E/Fx29, the timers only for Fx15/Fx18; unlisted low bytes change nothing |
| Engine.ExecuteExtended | src/chip8.c:228-338 | family 0 is a no-op; memory changes only for Fx33/Fx55; the stack and SP change only for 2nnn, and SP by at most one; PC changes only for families 1, 2, 3, 4, 5, 9, B, E |
| Engine.Exec | src/chip8.c:340-359 | memory changes only for Fx33/Fx55, stack and SP only for 2nnn/00EE, PC only for 00EE, jumps, calls and skips, and SP never leaves [0, 16] once inside it |
| Engine.ScreenCallOf | src/chip8.c:303-347 | a framebuffer call is made exactly for 00E0 and the Dxyn family |
| Instructions.ClearScreenOp | src/chip8.c:344-347 | 00E0 leaves the machine state unchanged and requests a clear |
| Instructions.Jump | src/chip8.c:238-241 | 1nnn sets PC to nnn and changes nothing else |
| Instructions.Call | src/chip8.c:244-247 | 2nnn with SP < 16: the old PC goes to slot SP, SP grows by one, PC becomes nnn, and every other slot, register and memory byte is unchanged |
| Instructions.Return | src/chip8.c:350-352 | 00EE from any SP in 1..16 is allowed: SP drops by one and PC becomes the word in that slot, with the slots, memory and other registers unchanged |
| Instructions.CallThenReturn | src/chip8.c:349-352 | after 2nnn (PC = nnn, old PC on the stack, SP one higher), 00EE is allowed and restores every register, PC and SP included, and memory |
| Instructions.ReturnFromEmptyStack | src/chip8stack.c:19-22 | 00EE with SP = 0 violates pop's assertion |
| Instructions.JumpWithOffset | src/chip8.c:292-295 | Bnnn sets PC to nnn + V0, which stays below 0x1100 and so never wraps; nothing else changes |
| Instructions.Skips | src/chip8.c:249-329 | 3xkk, 4xkk, 9xy0, Ex9E, ExA1 add exactly 2 mod 65536 to PC when their condition holds and otherwise change nothing |
| Instructions.SkipEqualFallsIntoLoad | src/chip8.c:261-269 | 5xy0 skips when Vx == Vy and then falls into 6xkk: Vx = y*16 + n, nothing else changes |
| Instructions.LoadImmediate | src/chip8.c:266-269 | 6xkk sets Vx to kk only |
| Instructions.AddImmediate | src/chip8.c:271-274 | 7xkk sets Vx to (Vx + kk) mod 256 and nothing else, no flag |
| Instructions.LoadThenAdd | src/chip8.c:266-274 | 6xkk then 7xkk leaves Vx = 2*kk mod 256 |
| Instructions.AddRegisters | src/chip8.c:85-97 | 8xy4: Vx = (Vx + Vy) mod 256; for x != F, VF is the carry |
| Instructions.AddRegistersExamples | src/chip8.c:85-97 | 200 + 100 gives 44 with VF = 1; 10 + 5 gives 15 with VF = 0 |
| Instructions.SubFallsIntoShift | src/chip8.c:99-114 | 8xy5 for x, y != F: Vx = ((Vx - Vy) mod 256) / 2 and VF = ((Vx - Vy) mod 256) mod 2 |
| Instructions.SubExamples | src/chip8.c:99-114 | 5 - 10 gives Vx = 125, VF = 1; 10 - 5 gives Vx = 2, VF = 1 |
| Instructions.ShiftRightOp | src/chip8.c:110-114 | 8xy6 for x != F: Vx halves and VF is the dropped bit |
| Instructions.SubNegatedOp | src/chip8.c:116-120 | 8xy7 for x, y != F: Vx = (Vy - Vx) mod 256; VF = 1 iff Vy > Vx, so VF = 0 on equal registers |
| Instructions.ShiftLeftOp | src/chip8.c:122-126 | 8xyE for x != F: Vx = 2*Vx mod 256; VF is 0 or 128, and 128 iff Vx >= 128 |
| Instructions.FlagOperandExamples | src/chip8.c:85-126 | 8xF4 with V1 = 200, VF = 100 gives V1 = 44, VF = 1; 8F17 with V1 = 5, VF = 3 gives VF = 4; 8F1E always gives VF = 0 |
| Instructions.LogicOps | src/chip8.c:65-83 | 8xy0..8xy3 change only Vx; 8xy0 copies Vy, and 8xy1, 8xy2, 8xy3 store the byte OR, AND, XOR of Vx and Vy |
| Instructions.LogicOpsBits | src/chip8.c:69-83 | after 8xy1, 8xy2 or 8xy3, each of the eight bits of Vx is the OR, AND or XOR of that bit of the old Vx and Vy |
| Instructions.RandomIsBoolean | src/chip8.c:297-301 | Cxkk sets only Vx, to 0 or 1, and to 1 iff rand() % 255 != 0 and kk != 0 |
| Instructions.LoadIndex | src/chip8.c:287-290 | Annn sets I to nnn only |
| Instructions.Draw | src/chip8.c:303-310 | Dxyn draws (Vx, Vy, I, n) and sets only VF, to 1 on collision and 0 otherwise |
| Instructions.TimersAndKey | src/chip8.c:158-179 | Fx07, Fx0A, Fx15, Fx18 move the delay timer, the awaited key, and Vx into the timers, changing only their target |
| Instructions.AddIndex | src/chip8.c:181-184 | Fx1E sets I to (I + Vx) mod 65536 only |
| Instructions.FontGlyph | src/chip8.c:186-189 | Fx29 sets I to 5*Vx only (Vx = 0xA gives 50); when memory is the initial one and Vx is a digit, the five bytes at the new I are the glyph of digit Vx |
| Instructions.Bcd | src/chip8.c:191-203 | Fx33 writes three decimal digits at I, I+1, I+2 that recombine to Vx; every other byte and all registers unchanged |
| Instructions.BcdExample | src/chip8.c:191-203 | Vx = 195 stores 1, 9, 5 |
| Instructions.BcdOutOfBounds | src/chip8.c:199-201 | Fx33 with I + 2 >= 0x1000 violates the memory assertion |
| Instructions.StoreRegistersOp | src/chip8.c:205-213 | Fx55 writes V0..Vx to memory[I..I+x] and changes nothing else |
| Instructions.LoadRegistersOp | src/chip8.c:215-223 | Fx65 loads memory[I..I+x] into V0..Vx and changes nothing else |
| Instructions.StoreThenLoad | src/chip8.c:205-223 | Fx55 then Fx65 with the same I and x: the load is allowed and changes nothing |
| Instructions.StoreZeroLoad | src/chip8.c:205-223 | Fx55, clearing the registers, then Fx65 restores V0..Vx |
| Instructions.UnhandledIsNoOp | src/chip8.c:236-337 | 0nnn other than 00E0/00EE, 8xy8..8xyD, 8xyF, unlisted ExKK and FxKK cannot fault, change nothing and draw nothing |
| Instructions.Boot | src/chip8.c:35-53 | init then load: font at [0,80), program at 0x200, zero elsewhere, PC = 0x200, SP = I = 0 |
| Driver.Cycle | src/main.c:159-164 | the fetched opcode is memory[PC]*256 + memory[PC+1]; memory changes only for Fx33/Fx55; SP stays within [0, 16] |
| Driver.SkipCycle | src/main.c:159-164 | after a skip instruction the next PC is 4 bytes on when the skip is taken and 2 bytes on otherwise, mod 65536 |
| Driver.StraightLineCycle | src/main.c:159-164 | an instruction of family 6, 7, 8, A, C, D or F leaves PC on the following word |

## Left out

- The SDL window, event polling, rendering, file reading and the `sleep`-based timer countdown of `src/main.c` (lines 19-157). They are host I/O and pacing, outside the engine.
- `chip8_wait_for_key_press` (src/chip8.c:131-148) is a blocking SDL event loop. Fx0A takes the key it would return from `Io.pressedKey`, already converted to a byte.
- `srand(clock())` and `rand()` in Cxkk are nondeterministic. The value of `rand()` comes from `Io.rand`.
- The framebuffer and the keypad are not part of this model. `chip8_screen_clear` and `chip8_screen_draw_sprite` appear only as the `ScreenCall` an instruction makes, and the draw's collision answer comes from `Io.collision`. `chip8_keyboard_is_down` is the predicate `Io.isDown`.
- Dxyn hands the framebuffer a pointer to `memory[I]` without a bounds check. How far past it the draw reads depends on the framebuffer, so no precondition is stated for it.
- Builds with `NDEBUG`, where the assertions vanish. Every assertion is a precondition here.
- Instructions.SubNegatedOp: states the 8xy7 result only for x, y != F. The F cases are stated by `Engine.SubNegated` and worked out for 8F17 in `Instructions.FlagOperandExamples`.
- Instructions.ShiftLeftOp: states the 8xyE result only for x != F. For x = F, `Engine.ShiftLeft` states that VF ends at 0.
