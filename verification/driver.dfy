/** The fetch step of the driver loop (src/main.c): read the big-endian word
    at PC, advance PC by two, and execute the word. Window, events, drawing
    and the timer countdown of that loop are not part of this model. */
module Driver {
  import opened Config
  import opened Machine
  import Memory
  import opened Engine
  import Instructions

  /** The fetch is allowed when both bytes of the instruction lie in memory. */
  predicate CanFetch(c: Chip8)
  {
    Memory.IsInBounds(c.regs.pc) && Memory.IsInBounds(c.regs.pc + 1)
  }

  function Fetch(c: Chip8): Word
    requires CanFetch(c)
  {
    Memory.GetWord(c.memory, c.regs.pc)
  }

  predicate CanCycle(c: Chip8)
  {
    CanFetch(c) && CanExec(NextInstruction(c), Fetch(c))
  }

  /** One iteration of the fetch/advance/execute step. The fetched opcode is
      the pair of bytes at PC with the first byte high. */
  function Cycle(c: Chip8, io: Io): (r: Chip8)
    requires CanCycle(c)
    ensures Fetch(c) == c.memory[c.regs.pc] as int * 0x100 + c.memory[c.regs.pc + 1] as int
    ensures r.memory != c.memory ==> Family(Fetch(c)) == 0xF && KK(Fetch(c)) in {0x33, 0x55}
    ensures c.regs.sp <= TotalStackDepth ==> r.regs.sp <= TotalStackDepth
  {
    Exec(NextInstruction(c), Fetch(c), io)
  }

  /** A skip taken on the instruction at PC makes the next fetch happen four
      bytes further on; a skip not taken, two bytes further on. */
  lemma SkipCycle(c: Chip8, io: Io)
    requires CanCycle(c) && Instructions.IsSkip(Fetch(c))
    ensures Cycle(c, io).regs.pc ==
            (c.regs.pc as int + (if Instructions.SkipTaken(NextInstruction(c), Fetch(c), io) then 4 else 2)) % 0x1_0000
  {
    var a := NextInstruction(c);
    assert a.regs.pc == c.regs.pc + 2;
    Instructions.Skips(a, Fetch(c), io);
    assert Cycle(c, io) == Exec(a, Fetch(c), io);
  }

  /** Instructions that do not jump, call, return or skip leave the next fetch
      at the following word. */
  lemma StraightLineCycle(c: Chip8, io: Io)
    requires CanCycle(c)
    requires Family(Fetch(c)) in {0x6, 0x7, 0x8, 0xA, 0xC, 0xD, 0xF}
    ensures Cycle(c, io).regs.pc == (c.regs.pc as int + 2) % 0x1_0000
  {
    var a := NextInstruction(c);
    assert a.regs.pc == c.regs.pc + 2;
    assert Fetch(c) != 0x00EE;
    assert Cycle(c, io).regs.pc == Exec(a, Fetch(c), io).regs.pc == a.regs.pc;
  }
}
