/** The execution engine of src/chip8.c: machine set-up, program loading and
    the transition `(state, opcode) -> state'` of `chip8_exec` with its three
    helpers. The code is modelled as it is written, including the cases that
    fall through into the next one and the flag computations that differ from
    the usual CHIP-8 definitions. */
module Engine {
  import opened Config
  import opened Machine
  import Bits
  import Memory
  import Stack

  /** The font: sixteen 8x5 glyphs for the hexadecimal digits, five rows each. */
  const DefaultCharacterSet: seq<Byte> := [
    0xf0, 0x90, 0x90, 0x90, 0xf0, // 0
    0x20, 0x60, 0x20, 0x20, 0x70, // 1
    0xf0, 0x10, 0xf0, 0x80, 0xf0, // 2
    0xf0, 0x10, 0xf0, 0x10, 0xf0, // 3
    0x90, 0x90, 0xf0, 0x10, 0x10, // 4
    0xf0, 0x80, 0xf0, 0x10, 0xf0, // 5
    0xf0, 0x80, 0xf0, 0x90, 0xf0, // 6
    0xf0, 0x10, 0x20, 0x40, 0x40, // 7
    0xf0, 0x90, 0xf0, 0x90, 0xf0, // 8
    0xf0, 0x90, 0xf0, 0x10, 0xf0, // 9
    0xf0, 0x90, 0xf0, 0x90, 0x90, // A
    0xe0, 0x90, 0xe0, 0x90, 0xe0, // B
    0xf0, 0x80, 0x80, 0x80, 0xf0, // C
    0xe0, 0x90, 0x90, 0x90, 0xe0, // D
    0xf0, 0x80, 0xf0, 0x80, 0xf0, // E
    0xf0, 0x80, 0xf0, 0x80, 0x80  // F
  ]

  // ---------------------------------------------------------------------------
  // Set-up

  /** A zeroed machine whose memory starts with the font. */
  function Init(): (r: Chip8)
    ensures |DefaultCharacterSet| == 16 * DefaultSpriteHeight
    ensures forall j :: 0 <= j < MemorySize ==>
              r.memory[j] == if j < |DefaultCharacterSet| then DefaultCharacterSet[j] else 0
    ensures forall k :: 0 <= k < TotalDataRegisters ==> r.regs.v[k] == 0
    ensures forall k :: 0 <= k < TotalStackDepth ==> r.stack[k] == 0
    ensures r.regs.sp == 0 && r.regs.i == 0 && r.regs.pc == 0
    ensures r.regs.delayTimer == 0 && r.regs.soundTimer == 0
  {
    var z := Zeroed();
    z.(memory := Memory.Copy(z.memory, CharacterSetLoadAddress, DefaultCharacterSet))
  }

  /** Copy a program to 0x200 and point PC at it. The assertion is strict, so
      a program must be at least one byte shorter than the 3584 bytes above
      0x200. */
  function Load(c: Chip8, buf: seq<Byte>): (r: Chip8)
    requires |buf| + ProgramMemoryAddress < MemorySize
    ensures forall j :: 0 <= j < MemorySize ==>
              r.memory[j] == if ProgramMemoryAddress <= j < ProgramMemoryAddress + |buf|
                             then buf[j - ProgramMemoryAddress] else c.memory[j]
    ensures r.regs.pc == ProgramMemoryAddress
    ensures r.regs == c.regs.(pc := r.regs.pc) && r.stack == c.stack
  {
    var c1 := c.(memory := Memory.Copy(c.memory, ProgramMemoryAddress, buf));
    SetPc(c1, ProgramMemoryAddress)
  }

  // ---------------------------------------------------------------------------
  // Opcode fields: `(opcode & 0xf000)`, `(opcode >> 8) & 0xf`,
  // `(opcode >> 4) & 0xf`, `opcode & 0xf`, `opcode & 0xff`, `opcode & 0xfff`,
  // written with division and remainder, which agree with the shifts and masks
  // on unsigned values.

  function Family(op: Word): int { op / 0x1000 }
  function X(op: Word): RegIndex { op / 0x100 % 0x10 }
  function Y(op: Word): RegIndex { op / 0x10 % 0x10 }
  function N(op: Word): int { op % 0x10 }
  function KK(op: Word): Byte { op % 0x100 }
  function NNN(op: Word): Word { op % 0x1000 }

  /** The low byte of an opcode is its y nibble followed by its n nibble. */
  lemma LowByte(op: Word)
    ensures KK(op) == Y(op) * 0x10 + N(op)
  {
    assert op % 0x100 == (op / 0x10) % 0x10 * 0x10 + op % 0x10;
  }

  // ---------------------------------------------------------------------------
  // The arithmetic group 8xyN (chip8_execute_extened_eight). Each case writes
  // registers one after another, so when x or y is F the later steps read the
  // flag the earlier steps wrote.

  /** 8xy4: VF := 0, VF := 1 when the sum exceeds 0xFF, then Vx := sum. The
      flag is written before Vx, so for x = F the truncated sum overwrites it. */
  function AddWithCarry(v: RegFile, x: RegIndex, y: RegIndex): (r: RegFile)
    ensures r[x] == (v[x] as int + v[y] as int) % 0x100
    ensures x != VF ==> r[VF] == if v[x] as int + v[y] as int > 0xFF then 1 else 0
    ensures forall k :: 0 <= k < TotalDataRegisters && k != x && k != VF ==> r[k] == v[k]
  {
    var tmp := v[x] as int + v[y] as int;
    var v1 := v[VF := 0];
    var v2 := if tmp > 0xFF then v1[VF := 1] else v1;
    v2[x := ToByte(tmp)]
  }

  /** 8xy5 up to its missing `break`: VF := 0, VF := 1 only when Vx > Vy
      (strictly), then Vx := Vx - Vy modulo 256. Each step reads the registers
      as the previous one left them, so an operand F reads the flag: 0 in the
      comparison, the new flag in the subtraction. */
  function SubWithBorrow(v: RegFile, x: RegIndex, y: RegIndex): (r: RegFile)
    ensures x != VF && y != VF ==> r[VF] == (if v[x] > v[y] then 1 else 0)
    ensures x != VF && y != VF ==> r[x] == (v[x] as int - v[y] as int) % 0x100
    ensures var a := if x == VF then 0 else v[x] as int;
            var b := if y == VF then 0 else v[y] as int;
            var f := if a > b then 1 else 0;
            && r[x] == ((if x == VF then f else v[x] as int) - (if y == VF then f else v[y] as int)) % 0x100
            && (x != VF ==> r[VF] == f)
    ensures forall k :: 0 <= k < TotalDataRegisters && k != x && k != VF ==> r[k] == v[k]
  {
    var v1 := v[VF := 0];
    var v2 := if v1[x] > v1[y] then v1[VF := 1] else v1;
    v2[x := ToByte(v2[x] as int - v2[y] as int)]
  }

  /** 8xy6: VF := Vx & 1, then Vx := Vx / 2. For x = F the flag is halved to 0. */
  function ShiftRight(v: RegFile, x: RegIndex): (r: RegFile)
    ensures x != VF ==> r[VF] == v[x] % 2 && r[x] == v[x] / 2
    ensures x == VF ==> r[VF] == 0
    ensures forall k :: 0 <= k < TotalDataRegisters && k != x && k != VF ==> r[k] == v[k]
  {
    Bits.AndByteOne(v[x]);
    var v1 := v[VF := Bits.AndByte(v[x], 1)];
    v1[x := v1[x] / 2]
  }

  /** 8xy7: VF := (Vy > Vx), strictly, then Vx := Vy - Vx modulo 256. The
      subtraction reads the registers after the flag is written, so an operand
      F contributes the new flag. */
  function SubNegated(v: RegFile, x: RegIndex, y: RegIndex): (r: RegFile)
    ensures x != VF && y != VF ==> r[VF] == (if v[y] > v[x] then 1 else 0)
    ensures x != VF && y != VF ==> r[x] == (v[y] as int - v[x] as int) % 0x100
    ensures var f := if v[y] > v[x] then 1 else 0;
            && r[x] == ((if y == VF then f else v[y] as int) - (if x == VF then f else v[x] as int)) % 0x100
            && (x != VF ==> r[VF] == f)
    ensures forall k :: 0 <= k < TotalDataRegisters && k != x && k != VF ==> r[k] == v[k]
  {
    var v1 := v[VF := if v[y] > v[x] then 1 else 0];
    v1[x := ToByte(v1[y] as int - v1[x] as int)]
  }

  /** 8xyE: VF := Vx & 0x80, which is 128 or 0 rather than 1 or 0, then
      Vx := Vx * 2 modulo 256. For x = F the doubled flag is 0. */
  function ShiftLeft(v: RegFile, x: RegIndex): (r: RegFile)
    ensures x != VF ==> r[VF] == (if v[x] >= 0x80 then 0x80 else 0) && r[x] == (2 * v[x] as int) % 0x100
    ensures x == VF ==> r[VF] == 0
    ensures forall k :: 0 <= k < TotalDataRegisters && k != x && k != VF ==> r[k] == v[k]
  {
    Bits.AndByteTop(v[x]);
    var v1 := v[VF := Bits.AndByte(v[x], 0x80)];
    v1[x := ToByte(v1[x] as int * 2)]
  }

  /** Dispatch on the low nibble; 8xy5 continues into 8xy6, and the nibbles
      8..D and F have no case. Only the data registers change. */
  function ExecuteExtendedEight(c: Chip8, op: Word): (r: Chip8)
    ensures r.memory == c.memory && r.stack == c.stack
    ensures r.regs == c.regs.(v := r.regs.v)
    ensures forall k :: 0 <= k < TotalDataRegisters && k != X(op) && k != VF ==> r.regs.v[k] == c.regs.v[k]
    ensures N(op) !in {0x0, 0x1, 0x2, 0x3, 0x4, 0x5, 0x6, 0x7, 0xE} ==> r == c
  {
    var x := X(op);
    var y := Y(op);
    var v := c.regs.v;
    var v' :=
      match N(op)
      case 0x0 => v[x := v[y]]
      case 0x1 => v[x := Bits.OrByte(v[x], v[y])]
      case 0x2 => v[x := Bits.AndByte(v[x], v[y])]
      case 0x3 => v[x := Bits.XorByte(v[x], v[y])]
      case 0x4 => AddWithCarry(v, x, y)
      case 0x5 => ShiftRight(SubWithBorrow(v, x, y), x)
      case 0x6 => ShiftRight(v, x)
      case 0x7 => SubNegated(v, x, y)
      case 0xE => ShiftLeft(v, x)
      case _ => v;
    c.(regs := c.regs.(v := v'))
  }

  // ---------------------------------------------------------------------------
  // The loops of Fx55 and Fx65, for i from `i` up to and including `x`.

  /** `memory[base + k] := V[k]` for k in [i, x]; nothing else changes. */
  function StoreRegisters(mem: Memory.Ram, base: nat, v: RegFile, i: nat, x: RegIndex): (r: Memory.Ram)
    requires i <= x + 1 && base + x < MemorySize
    ensures forall j :: 0 <= j < MemorySize ==>
              r[j] == if base + i <= j <= base + x then v[j - base] else mem[j]
    decreases x + 1 - i
  {
    if i > x then mem
    else StoreRegisters(Memory.Set(mem, base + i, v[i]), base, v, i + 1, x)
  }

  /** `V[k] := memory[base + k]` for k in [i, x]; the other registers keep their values. */
  function LoadRegisters(v: RegFile, mem: Memory.Ram, base: nat, i: nat, x: RegIndex): (r: RegFile)
    requires i <= x + 1 && base + x < MemorySize
    ensures forall k :: 0 <= k < TotalDataRegisters ==>
              r[k] == if i <= k <= x then mem[base + k] else v[k]
    decreases x + 1 - i
  {
    if i > x then v
    else LoadRegisters(v[i := Memory.Get(mem, base + i)], mem, base, i + 1, x)
  }

  // ---------------------------------------------------------------------------
  // The group Fxkk (chip8_execute_extended_F).

  /** The memory assertions Fx33, Fx55 and Fx65 reach through set and get. */
  predicate CanExecuteF(c: Chip8, op: Word)
  {
    && (KK(op) == 0x33 ==> c.regs.i + 2 < MemorySize)
    && (KK(op) in {0x55, 0x65} ==> c.regs.i + X(op) < MemorySize)
  }

  /** Dispatch on the low byte. Only Fx33 and Fx55 write memory; nothing here
      touches PC, SP or the stack. */
  function ExecuteExtendedF(c: Chip8, op: Word, io: Io): (r: Chip8)
    requires CanExecuteF(c, op)
    ensures r.stack == c.stack && r.regs.sp == c.regs.sp && r.regs.pc == c.regs.pc
    ensures r.memory != c.memory ==> KK(op) in {0x33, 0x55}
    ensures r.regs.i != c.regs.i ==> KK(op) in {0x1E, 0x29}
    ensures r.regs.delayTimer != c.regs.delayTimer ==> KK(op) == 0x15
    ensures r.regs.soundTimer != c.regs.soundTimer ==> KK(op) == 0x18
    ensures KK(op) !in {0x07, 0x0A, 0x15, 0x18, 0x1E, 0x29, 0x33, 0x55, 0x65} ==> r == c
  {
    var x := X(op);
    var vx := c.regs.v[x];
    var base := c.regs.i;
    match KK(op)
    case 0x07 => SetV(c, x, c.regs.delayTimer)
    case 0x0A => SetV(c, x, io.pressedKey)
    case 0x15 => c.(regs := c.regs.(delayTimer := vx))
    case 0x18 => c.(regs := c.regs.(soundTimer := vx))
    case 0x1E => c.(regs := c.regs.(i := ToWord(base as int + vx as int)))
    case 0x29 => c.(regs := c.regs.(i := ToWord(vx as int * DefaultSpriteHeight)))
    case 0x33 =>
      var hundreds := vx / 100;
      var tens := vx / 10 % 10;
      var units := vx % 10;
      var m1 := Memory.Set(c.memory, base, hundreds);
      var m2 := Memory.Set(m1, base + 1, tens);
      c.(memory := Memory.Set(m2, base + 2, units))
    case 0x55 => c.(memory := StoreRegisters(c.memory, base, c.regs.v, 0, x))
    case 0x65 => c.(regs := c.regs.(v := LoadRegisters(c.regs.v, c.memory, base, 0, x)))
    case _ => c
  }

  // ---------------------------------------------------------------------------
  // The main dispatch (chip8_execute_extended and chip8_exec).

  /** The assertions an opcode other than 00E0 and 00EE can reach. */
  predicate CanExecuteExtended(c: Chip8, op: Word)
  {
    && (Family(op) == 0x2 ==> Stack.CanPush(c))
    && (Family(op) == 0xF ==> CanExecuteF(c, op))
  }

  /** Dispatch on the top nibble. 5xy0 has no `break` and continues into 6xkk;
      the family 0 has no case. */
  function ExecuteExtended(c: Chip8, op: Word, io: Io): (r: Chip8)
    requires CanExecuteExtended(c, op)
    ensures Family(op) == 0 ==> r == c
    ensures r.memory != c.memory ==> Family(op) == 0xF && KK(op) in {0x33, 0x55}
    ensures (r.stack != c.stack || r.regs.sp != c.regs.sp) ==> Family(op) == 0x2
    ensures r.regs.sp <= c.regs.sp + 1
    ensures r.regs.pc != c.regs.pc ==> Family(op) in {0x1, 0x2, 0x3, 0x4, 0x5, 0x9, 0xB, 0xE}
  {
    var x := X(op);
    var y := Y(op);
    var kk := KK(op);
    var v := c.regs.v;
    match Family(op)
    case 0x1 => SetPc(c, NNN(op))
    case 0x2 => SetPc(Stack.Push(c, c.regs.pc), NNN(op))
    case 0x3 => if v[x] == kk then NextInstruction(c) else c
    case 0x4 => if v[x] != kk then NextInstruction(c) else c
    case 0x5 =>
      var c1 := if v[x] == v[y] then NextInstruction(c) else c;
      SetV(c1, x, kk)
    case 0x6 => SetV(c, x, kk)
    case 0x7 => SetV(c, x, ToByte(v[x] as int + kk as int))
    case 0x8 => ExecuteExtendedEight(c, op)
    case 0x9 => if v[x] != v[y] then NextInstruction(c) else c
    case 0xA => c.(regs := c.regs.(i := NNN(op)))
    case 0xB => SetPc(c, ToWord(NNN(op) as int + v[0] as int))
    case 0xC => SetV(c, x, if io.rand % 255 != 0 && kk != 0 then 1 else 0)
    case 0xD => SetV(c, VF, if io.collision then 1 else 0)
    case 0xE =>
      if kk == 0x9E then (if io.isDown(v[x]) then NextInstruction(c) else c)
      else if kk == 0xA1 then (if !io.isDown(v[x]) then NextInstruction(c) else c)
      else c
    case 0xF => ExecuteExtendedF(c, op, io)
    case _ => c
  }

  /** The assertions one instruction can reach: pop for 00EE, push for 2nnn,
      the memory bounds for Fx33, Fx55 and Fx65. */
  predicate CanExec(c: Chip8, op: Word)
  {
    if op == 0x00EE then Stack.CanPop(c)
    else op == 0x00E0 || CanExecuteExtended(c, op)
  }

  /** One instruction. Only Fx33 and Fx55 write memory, only 2nnn and 00EE move
      SP or write the stack, SP never leaves [0, 16] once inside it, and only
      jumps, calls, returns and skips move PC. */
  function Exec(c: Chip8, op: Word, io: Io): (r: Chip8)
    requires CanExec(c, op)
    ensures r.memory != c.memory ==> Family(op) == 0xF && KK(op) in {0x33, 0x55}
    ensures (r.stack != c.stack || r.regs.sp != c.regs.sp) ==> Family(op) == 0x2 || op == 0x00EE
    ensures c.regs.sp <= TotalStackDepth ==> r.regs.sp <= TotalStackDepth
    ensures r.regs.pc != c.regs.pc ==> op == 0x00EE || Family(op) in {0x1, 0x2, 0x3, 0x4, 0x5, 0x9, 0xB, 0xE}
  {
    if op == 0x00E0 then c
    else if op == 0x00EE then
      var (c1, addr) := Stack.Pop(c);
      SetPc(c1, addr)
    else ExecuteExtended(c, op, io)
  }

  /** The framebuffer call an instruction makes: 00E0 clears, Dxyn draws n
      rows read from memory at I at (Vx, Vy); the result of the draw becomes VF. */
  function ScreenCallOf(c: Chip8, op: Word): (r: ScreenCall)
    ensures r != NoScreenCall <==> op == 0x00E0 || Family(op) == 0xD
  {
    if op == 0x00E0 then ClearScreen
    else if Family(op) == 0xD then DrawSprite(c.regs.v[X(op)], c.regs.v[Y(op)], c.regs.i, N(op))
    else NoScreenCall
  }
}
