/** Properties of single instructions and of short instruction sequences,
    stated against the engine of src/chip8.c as it is written. */
module Instructions {
  import opened Config
  import opened Machine
  import Stack
  import Bits
  import opened Engine

  // ---------------------------------------------------------------------------
  // Control flow

  /** 00E0 leaves the machine state alone and asks the framebuffer to clear. */
  lemma ClearScreenOp(c: Chip8, io: Io)
    ensures Exec(c, 0x00E0, io) == c
    ensures ScreenCallOf(c, 0x00E0) == ClearScreen
  {
  }

  /** 1nnn: PC := nnn and nothing else changes. */
  lemma Jump(c: Chip8, op: Word, io: Io)
    requires Family(op) == 0x1
    ensures Exec(c, op, io) == c.(regs := c.regs.(pc := op - 0x1000))
  {
  }

  /** 2nnn: the current PC goes to slot SP, SP grows by one and PC := nnn;
      nothing else changes. */
  lemma Call(c: Chip8, op: Word, io: Io)
    requires Family(op) == 0x2 && Stack.CanPush(c)
    ensures Exec(c, op, io) ==
            c.(stack := c.stack[c.regs.sp := c.regs.pc],
               regs := c.regs.(pc := NNN(op), sp := c.regs.sp + 1))
  {
  }

  /** 00EE from any stack depth 1..16: SP drops by one and PC := the word in
      that slot; the slots, memory and other registers are unchanged. */
  lemma Return(c: Chip8, io: Io)
    requires 1 <= c.regs.sp <= TotalStackDepth
    ensures CanExec(c, 0x00EE)
    ensures Exec(c, 0x00EE, io) ==
            c.(regs := c.regs.(pc := c.stack[c.regs.sp - 1], sp := c.regs.sp - 1))
  {
  }

  /** 2nnn pushes the current PC and jumps to nnn; a following 00EE is allowed
      and brings back PC and SP, leaving every register as it was. */
  lemma CallThenReturn(c: Chip8, op: Word, io: Io, io': Io)
    requires Family(op) == 0x2 && Stack.CanPush(c)
    ensures var called := Exec(c, op, io);
            && called.regs.pc == NNN(op)
            && called.regs.sp == c.regs.sp + 1
            && called.stack[c.regs.sp] == c.regs.pc
            && CanExec(called, 0x00EE)
            && Exec(called, 0x00EE, io').regs == c.regs
            && Exec(called, 0x00EE, io').memory == c.memory
  {
  }

  /** 00EE from an empty stack violates the assertion of pop. */
  lemma ReturnFromEmptyStack(c: Chip8)
    requires c.regs.sp == 0
    ensures !CanExec(c, 0x00EE)
  {
  }

  /** Bnnn: PC := nnn + V0; the sum stays below 0x1000 + 0x100, so the 16-bit
      store never wraps. */
  lemma JumpWithOffset(c: Chip8, op: Word, io: Io)
    requires Family(op) == 0xB
    ensures Exec(c, op, io).regs.pc == NNN(op) + c.regs.v[0] < 0x1100
    ensures Exec(c, op, io) == c.(regs := c.regs.(pc := Exec(c, op, io).regs.pc))
  {
  }

  /** The condition under which a skip instruction skips. */
  predicate SkipTaken(c: Chip8, op: Word, io: Io)
  {
    var vx := c.regs.v[X(op)];
    || (Family(op) == 0x3 && vx == KK(op))
    || (Family(op) == 0x4 && vx != KK(op))
    || (Family(op) == 0x9 && vx != c.regs.v[Y(op)])
    || (Family(op) == 0xE && KK(op) == 0x9E && io.isDown(vx))
    || (Family(op) == 0xE && KK(op) == 0xA1 && !io.isDown(vx))
  }

  /** The skip instructions: 3xkk, 4xkk, 9xy0 (any low nibble), Ex9E, ExA1. */
  predicate IsSkip(op: Word)
  {
    Family(op) in {0x3, 0x4, 0x9} || (Family(op) == 0xE && KK(op) in {0x9E, 0xA1})
  }

  /** A skip instruction adds exactly 2 (mod 65536) to PC when its condition
      holds and otherwise changes nothing; no other state is touched. */
  lemma Skips(c: Chip8, op: Word, io: Io)
    requires IsSkip(op)
    ensures Exec(c, op, io) ==
            if SkipTaken(c, op, io) then c.(regs := c.regs.(pc := (c.regs.pc as int + 2) % 0x1_0000)) else c
  {
  }

  /** 5xy0 falls through into 6xkk: after the conditional skip, Vx is
      overwritten with the low byte of the opcode, which is y * 16 + n. */
  lemma SkipEqualFallsIntoLoad(c: Chip8, op: Word, io: Io)
    requires Family(op) == 0x5
    ensures var r := Exec(c, op, io);
            && r.regs.pc == (if c.regs.v[X(op)] == c.regs.v[Y(op)] then (c.regs.pc as int + 2) % 0x1_0000 else c.regs.pc)
            && r.regs.v[X(op)] == Y(op) * 0x10 + N(op)
            && r == c.(regs := c.regs.(pc := r.regs.pc, v := c.regs.v[X(op) := r.regs.v[X(op)]]))
  {
    LowByte(op);
    var skipped := if c.regs.v[X(op)] == c.regs.v[Y(op)] then NextInstruction(c) else c;
    assert Exec(c, op, io) == SetV(skipped, X(op), KK(op));
  }

  // ---------------------------------------------------------------------------
  // Register loads and arithmetic

  /** 6xkk: Vx := kk. */
  lemma LoadImmediate(c: Chip8, op: Word, io: Io)
    requires Family(op) == 0x6
    ensures Exec(c, op, io) == SetV(c, X(op), KK(op))
  {
  }

  /** 7xkk: Vx := Vx + kk modulo 256; VF is not touched (unless x is F). */
  lemma AddImmediate(c: Chip8, op: Word, io: Io)
    requires Family(op) == 0x7
    ensures Exec(c, op, io) == SetV(c, X(op), (c.regs.v[X(op)] as int + KK(op) as int) % 0x100)
  {
  }

  /** 6xkk followed by 7xkk with the same x and kk leaves Vx = 2 * kk mod 256. */
  lemma LoadThenAdd(c: Chip8, load: Word, add: Word, io: Io)
    requires Family(load) == 0x6 && Family(add) == 0x7
    requires X(load) == X(add) && KK(load) == KK(add)
    ensures Exec(Exec(c, load, io), add, io).regs.v[X(load)] == (2 * KK(load)) % 0x100
  {
  }

  /** 8xy4 writes the flag before Vx: VF is the carry when x is not F, and for
      x = F the truncated sum replaces the carry. */
  lemma AddRegisters(c: Chip8, op: Word, io: Io)
    requires Family(op) == 0x8 && N(op) == 0x4
    ensures var v := c.regs.v; var r := Exec(c, op, io).regs.v;
            && r[X(op)] == (v[X(op)] as int + v[Y(op)] as int) % 0x100
            && (X(op) != VF ==> r[VF] == if v[X(op)] as int + v[Y(op)] as int > 0xFF then 1 else 0)
  {
  }

  /** 8xy4 on 200 + 100 gives 44 with carry; on 10 + 5 gives 15 without. */
  lemma AddRegistersExamples(c: Chip8, io: Io)
    requires c.regs.v[1] == 200 && c.regs.v[2] == 100
    requires c.regs.v[3] == 10 && c.regs.v[4] == 5
    ensures Exec(c, 0x8124, io).regs.v[1] == 44 && Exec(c, 0x8124, io).regs.v[VF] == 1
    ensures Exec(c, 0x8344, io).regs.v[3] == 15 && Exec(c, 0x8344, io).regs.v[VF] == 0
  {
  }

  /** 8xy5 falls through into 8xy6: for x, y not F the result is the halved
      difference, and VF is its lowest bit rather than the borrow. */
  lemma SubFallsIntoShift(c: Chip8, op: Word, io: Io)
    requires Family(op) == 0x8 && N(op) == 0x5
    requires X(op) != VF && Y(op) != VF
    ensures var v := c.regs.v; var r := Exec(c, op, io).regs.v;
            var d := (v[X(op)] as int - v[Y(op)] as int) % 0x100;
            r[X(op)] == d / 2 && r[VF] == d % 2
  {
  }

  /** 5 - 10 with 8xy5 leaves Vx = 125 and VF = 1, where the borrow semantics
      would give 251 and 0; 10 - 5 leaves 2 and 1 instead of 5 and 1. */
  lemma SubExamples(c: Chip8, io: Io)
    requires c.regs.v[1] == 5 && c.regs.v[2] == 10
    ensures Exec(c, 0x8125, io).regs.v[1] == 125 && Exec(c, 0x8125, io).regs.v[VF] == 1
    ensures Exec(c, 0x8215, io).regs.v[2] == 2 && Exec(c, 0x8215, io).regs.v[VF] == 1
  {
    assert Family(0x8125) == 0x8 && X(0x8125) == 1 && Y(0x8125) == 2 && N(0x8125) == 0x5;
    assert Family(0x8215) == 0x8 && X(0x8215) == 2 && Y(0x8215) == 1 && N(0x8215) == 0x5;
    SubFallsIntoShift(c, 0x8125, io);
    SubFallsIntoShift(c, 0x8215, io);
  }

  /** 8xy6: VF := lowest bit of Vx, Vx := Vx / 2. */
  lemma ShiftRightOp(c: Chip8, op: Word, io: Io)
    requires Family(op) == 0x8 && N(op) == 0x6 && X(op) != VF
    ensures var v := c.regs.v; var r := Exec(c, op, io).regs.v;
            r[X(op)] == v[X(op)] / 2 && r[VF] == v[X(op)] % 2
  {
  }

  /** 8xy7: Vx := Vy - Vx mod 256 and VF := 1 only when Vy > Vx strictly, so
      equal registers give VF = 0. */
  lemma SubNegatedOp(c: Chip8, op: Word, io: Io)
    requires Family(op) == 0x8 && N(op) == 0x7 && X(op) != VF && Y(op) != VF
    ensures var v := c.regs.v; var r := Exec(c, op, io).regs.v;
            && r[X(op)] == (v[Y(op)] as int - v[X(op)] as int) % 0x100
            && (r[VF] == 1 <==> v[Y(op)] > v[X(op)])
            && (v[X(op)] == v[Y(op)] ==> r[VF] == 0)
  {
  }

  /** Operands equal to F. 8xF4 adds the old flag, because the sum is taken
      before the flag is cleared. 8Fy7 subtracts the flag it has just written:
      with V1 = 5 and VF = 3 it leaves VF = 5 - 1 = 4. 8FyE leaves VF = 0,
      because the flag is doubled modulo 256 after it is set to 0 or 128. */
  lemma FlagOperandExamples(c: Chip8, io: Io)
    requires c.regs.v[1] == 200 && c.regs.v[VF] == 100
    ensures Exec(c, 0x81F4, io).regs.v[1] == 44 && Exec(c, 0x81F4, io).regs.v[VF] == 1
    ensures var d := SetV(SetV(c, 1, 5), VF, 3); Exec(d, 0x8F17, io).regs.v[VF] == 4
    ensures Exec(c, 0x8F1E, io).regs.v[VF] == 0
  {
    assert Family(0x8F17) == 0x8 && X(0x8F17) == VF && Y(0x8F17) == 1 && N(0x8F17) == 0x7;
  }

  /** 8xyE: Vx := 2 * Vx mod 256 and VF := Vx & 0x80, which is 128 or 0. */
  lemma ShiftLeftOp(c: Chip8, op: Word, io: Io)
    requires Family(op) == 0x8 && N(op) == 0xE && X(op) != VF
    ensures var v := c.regs.v; var r := Exec(c, op, io).regs.v;
            && r[X(op)] == (2 * v[X(op)] as int) % 0x100
            && r[VF] in {0, 0x80}
            && (r[VF] == 0x80 <==> v[X(op)] >= 0x80)
  {
  }

  /** 8xy0..8xy3 change only Vx: to Vy, or to the OR, AND or XOR of Vx and Vy. */
  lemma LogicOps(c: Chip8, op: Word, io: Io)
    requires Family(op) == 0x8 && N(op) in {0x0, 0x1, 0x2, 0x3}
    ensures var r := Exec(c, op, io);
            r == c.(regs := c.regs.(v := c.regs.v[X(op) := r.regs.v[X(op)]]))
    ensures var v := c.regs.v; var r := Exec(c, op, io).regs.v;
            && (N(op) == 0x0 ==> r[X(op)] == v[Y(op)])
            && (N(op) == 0x1 ==> r[X(op)] == Bits.OrByte(v[X(op)], v[Y(op)]))
            && (N(op) == 0x2 ==> r[X(op)] == Bits.AndByte(v[X(op)], v[Y(op)]))
            && (N(op) == 0x3 ==> r[X(op)] == Bits.XorByte(v[X(op)], v[Y(op)]))
  {
  }

  /** 8xy1, 8xy2 and 8xy3 bit by bit: each of the eight bits of the new Vx is
      the OR, AND or XOR of the same bit of Vx and Vy. */
  lemma {:induction false} LogicOpsBits(c: Chip8, op: Word, io: Io, k: nat)
    requires Family(op) == 0x8 && N(op) in {0x1, 0x2, 0x3} && k < 8
    ensures var a := c.regs.v[X(op)]; var b := c.regs.v[Y(op)];
            var r := Exec(c, op, io).regs.v[X(op)];
            Bits.Bit(r, k) == match N(op)
                              case 0x1 => if Bits.Bit(a, k) == 1 || Bits.Bit(b, k) == 1 then 1 else 0
                              case 0x2 => if Bits.Bit(a, k) == 1 && Bits.Bit(b, k) == 1 then 1 else 0
                              case _ => if Bits.Bit(a, k) != Bits.Bit(b, k) then 1 else 0
  {
    var a := c.regs.v[X(op)];
    var b := c.regs.v[Y(op)];
    LogicOps(c, op, io);
    if N(op) == 0x1 {
      Bits.OrBit(a, b, 8, k);
    } else if N(op) == 0x2 {
      Bits.AndBit(a, b, 8, k);
    } else {
      Bits.XorBit(a, b, 8, k);
    }
  }

  /** Cxkk computes `rand() % 255 && kk`, a logical AND, so Vx becomes 0 or 1. */
  lemma RandomIsBoolean(c: Chip8, op: Word, io: Io)
    requires Family(op) == 0xC
    ensures var r := Exec(c, op, io);
            && r.regs.v[X(op)] in {0, 1}
            && (r.regs.v[X(op)] == 1 <==> io.rand % 255 != 0 && KK(op) != 0)
            && r == SetV(c, X(op), r.regs.v[X(op)])
  {
  }

  /** Annn: I := nnn. */
  lemma LoadIndex(c: Chip8, op: Word, io: Io)
    requires Family(op) == 0xA
    ensures Exec(c, op, io) == c.(regs := c.regs.(i := op - 0xA000))
  {
  }

  /** Dxyn passes (Vx, Vy, I, n) to the framebuffer and stores its collision
      answer in VF as 1 or 0. */
  lemma Draw(c: Chip8, op: Word, io: Io)
    requires Family(op) == 0xD
    ensures ScreenCallOf(c, op) == DrawSprite(c.regs.v[X(op)], c.regs.v[Y(op)], c.regs.i, N(op))
    ensures Exec(c, op, io) == SetV(c, VF, if io.collision then 1 else 0)
  {
  }

  // ---------------------------------------------------------------------------
  // The group Fxkk

  /** Fx07, Fx0A, Fx15, Fx18: moves between Vx, the timers and the key. */
  lemma TimersAndKey(c: Chip8, op: Word, io: Io)
    requires Family(op) == 0xF && KK(op) in {0x07, 0x0A, 0x15, 0x18}
    ensures var vx := c.regs.v[X(op)];
            Exec(c, op, io) ==
              match KK(op)
              case 0x07 => SetV(c, X(op), c.regs.delayTimer)
              case 0x0A => SetV(c, X(op), io.pressedKey)
              case 0x15 => c.(regs := c.regs.(delayTimer := vx))
              case _ => c.(regs := c.regs.(soundTimer := vx))
  {
  }

  /** Fx1E: I := I + Vx modulo 65536. */
  lemma AddIndex(c: Chip8, op: Word, io: Io)
    requires Family(op) == 0xF && KK(op) == 0x1E
    ensures Exec(c, op, io) == c.(regs := c.regs.(i := (c.regs.i as int + c.regs.v[X(op)] as int) % 0x1_0000))
  {
  }

  /** Fx29: I := 5 * Vx; for a digit d below 16 of the initial machine, the five
      bytes at I are the rows of the glyph for d. */
  lemma FontGlyph(c: Chip8, op: Word, io: Io)
    requires Family(op) == 0xF && KK(op) == 0x29
    ensures Exec(c, op, io) == c.(regs := c.regs.(i := 5 * c.regs.v[X(op)] as int))
    ensures c.regs.v[X(op)] == 0xA ==> Exec(c, op, io).regs.i == 50
    ensures var r := Exec(c, op, io);
            c.regs.v[X(op)] < 0x10 && c.memory == Init().memory ==>
              forall j :: r.regs.i <= j < r.regs.i + DefaultSpriteHeight ==>
                r.memory[j] == DefaultCharacterSet[j]
  {
    var r := Exec(c, op, io);
    assert r == c.(regs := c.regs.(i := 5 * c.regs.v[X(op)] as int));
  }

  /** Fx33 writes the hundreds, tens and units digits of Vx at I, I+1, I+2;
      each is a decimal digit and together they make up Vx. Nothing else
      changes. */
  lemma Bcd(c: Chip8, op: Word, io: Io)
    requires Family(op) == 0xF && KK(op) == 0x33 && c.regs.i + 2 < MemorySize
    ensures var r := Exec(c, op, io); var i := c.regs.i;
            && r.memory[i] <= 9 && r.memory[i + 1] <= 9 && r.memory[i + 2] <= 9
            && 100 * r.memory[i] + 10 * r.memory[i + 1] + r.memory[i + 2] == c.regs.v[X(op)]
            && (forall j :: 0 <= j < MemorySize && !(i <= j <= i + 2) ==> r.memory[j] == c.memory[j])
            && r == c.(memory := r.memory)
  {
  }

  /** Fx33 with Vx = 195 stores 1, 9, 5. */
  lemma BcdExample(c: Chip8, op: Word, io: Io)
    requires Family(op) == 0xF && KK(op) == 0x33 && c.regs.i + 2 < MemorySize
    requires c.regs.v[X(op)] == 195
    ensures var r := Exec(c, op, io);
            r.memory[c.regs.i] == 1 && r.memory[c.regs.i + 1] == 9 && r.memory[c.regs.i + 2] == 5
  {
  }

  /** Fx33 with I + 2 past the end of memory violates the memory assertion. */
  lemma BcdOutOfBounds(c: Chip8, op: Word)
    requires Family(op) == 0xF && KK(op) == 0x33 && c.regs.i + 2 >= MemorySize
    ensures !CanExec(c, op)
  {
  }

  /** Fx55 copies V0..Vx to memory[I..I+x] and changes nothing else. */
  lemma StoreRegistersOp(c: Chip8, op: Word, io: Io)
    requires Family(op) == 0xF && KK(op) == 0x55 && c.regs.i + X(op) < MemorySize
    ensures var r := Exec(c, op, io);
            && (forall k :: 0 <= k <= X(op) ==> r.memory[c.regs.i + k] == c.regs.v[k])
            && (forall j :: 0 <= j < MemorySize && !(c.regs.i <= j <= c.regs.i + X(op)) ==>
                  r.memory[j] == c.memory[j])
            && r == c.(memory := r.memory)
  {
  }

  /** Fx65 copies memory[I..I+x] to V0..Vx and changes nothing else. */
  lemma LoadRegistersOp(c: Chip8, op: Word, io: Io)
    requires Family(op) == 0xF && KK(op) == 0x65 && c.regs.i + X(op) < MemorySize
    ensures var r := Exec(c, op, io);
            && (forall k :: 0 <= k <= X(op) ==> r.regs.v[k] == c.memory[c.regs.i + k])
            && (forall k :: X(op) < k < TotalDataRegisters ==> r.regs.v[k] == c.regs.v[k])
            && r == c.(regs := c.regs.(v := r.regs.v))
  {
  }

  /** Fx55 followed by Fx65 with the same I and x reloads exactly the values
      just stored, so the second instruction changes nothing. */
  lemma StoreThenLoad(c: Chip8, store: Word, load: Word, io: Io)
    requires Family(store) == 0xF && KK(store) == 0x55
    requires Family(load) == 0xF && KK(load) == 0x65
    requires X(store) == X(load) && c.regs.i + X(store) < MemorySize
    ensures CanExec(Exec(c, store, io), load)
    ensures Exec(Exec(c, store, io), load, io) == Exec(c, store, io)
  {
  }

  /** The same round trip seen from a cleared register file: storing V0..Vx,
      zeroing the registers, and loading brings V0..Vx back. */
  lemma StoreZeroLoad(c: Chip8, store: Word, load: Word, io: Io)
    requires Family(store) == 0xF && KK(store) == 0x55
    requires Family(load) == 0xF && KK(load) == 0x65
    requires X(store) == X(load) && c.regs.i + X(store) < MemorySize
    ensures var s := Exec(c, store, io);
            var z := s.(regs := s.regs.(v := seq(TotalDataRegisters, _ => 0)));
            forall k :: 0 <= k <= X(store) ==> Exec(z, load, io).regs.v[k] == c.regs.v[k]
  {
  }

  // ---------------------------------------------------------------------------
  // Opcodes with no case

  /** The encodings no case of the dispatch matches: 0nnn other than 00E0 and
      00EE, 8xyN for N in 8..D and F, ExKK other than Ex9E and ExA1, and FxKK
      outside the nine handled low bytes. */
  predicate Unhandled(op: Word)
  {
    || (Family(op) == 0x0 && op != 0x00E0 && op != 0x00EE)
    || (Family(op) == 0x8 && N(op) in {0x8, 0x9, 0xA, 0xB, 0xC, 0xD, 0xF})
    || (Family(op) == 0xE && KK(op) !in {0x9E, 0xA1})
    || (Family(op) == 0xF && KK(op) !in {0x07, 0x0A, 0x15, 0x18, 0x1E, 0x29, 0x33, 0x55, 0x65})
  }

  /** An unhandled opcode is a no-op: it cannot fault, changes no state and
      makes no framebuffer call. */
  lemma UnhandledIsNoOp(c: Chip8, op: Word, io: Io)
    requires Unhandled(op)
    ensures CanExec(c, op)
    ensures Exec(c, op, io) == c
    ensures ScreenCallOf(c, op) == NoScreenCall
  {
  }

  // ---------------------------------------------------------------------------
  // Set-up

  /** Loading a program into a fresh machine: font at [0, 80), program at
      0x200, zero elsewhere, PC = 0x200 and everything else zero. */
  lemma Boot(buf: seq<Byte>)
    requires |buf| + ProgramMemoryAddress < MemorySize
    ensures var m := Load(Init(), buf);
            && (forall j :: 0 <= j < |DefaultCharacterSet| ==> m.memory[j] == DefaultCharacterSet[j])
            && (forall j :: 0 <= j < |buf| ==> m.memory[ProgramMemoryAddress + j] == buf[j])
            && (forall j :: |DefaultCharacterSet| <= j < MemorySize && !(ProgramMemoryAddress <= j < ProgramMemoryAddress + |buf|) ==>
                  m.memory[j] == 0)
            && m.regs.pc == ProgramMemoryAddress && m.regs.sp == 0 && m.regs.i == 0
  {
  }
}
