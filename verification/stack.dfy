/** The call stack (src/chip8stack.c): sixteen word slots indexed by the 8-bit
    register SP. Both operations assert that SP indexes a slot; push asserts
    before it increments, pop asserts after it decrements. */
module Stack {
  import opened Config
  import opened Machine

  /** The bounds assertion on SP. */
  predicate InBounds(sp: Byte)
  {
    sp < TotalStackDepth
  }

  /** Push is allowed while SP indexes a slot. */
  predicate CanPush(c: Chip8)
  {
    InBounds(c.regs.sp)
  }

  /** Pop first decrements the 8-bit SP, wrapping 0 to 255, and then asserts. */
  predicate CanPop(c: Chip8)
  {
    InBounds(ToByte(c.regs.sp - 1))
  }

  /** Store `val` at slot SP and advance SP by one, without wrapping. */
  function Push(c: Chip8, val: Word): (r: Chip8)
    requires CanPush(c)
    ensures r.regs.sp == c.regs.sp + 1 <= TotalStackDepth
    ensures r.stack[c.regs.sp] == val
    ensures forall k :: 0 <= k < TotalStackDepth && k != c.regs.sp ==> r.stack[k] == c.stack[k]
    ensures r.regs == c.regs.(sp := r.regs.sp) && r.memory == c.memory
  {
    c.(stack := c.stack[c.regs.sp := val], regs := c.regs.(sp := ToByte(c.regs.sp + 1)))
  }

  /** Step SP back one slot and return the word stored there; no slot changes. */
  function Pop(c: Chip8): (r: (Chip8, Word))
    requires CanPop(c)
    ensures 1 <= c.regs.sp <= TotalStackDepth
    ensures r.0.regs.sp == c.regs.sp - 1
    ensures r.1 == c.stack[c.regs.sp - 1]
    ensures r.0.stack == c.stack && r.0.memory == c.memory
    ensures r.0.regs == c.regs.(sp := r.0.regs.sp)
  {
    var c1 := c.(regs := c.regs.(sp := ToByte(c.regs.sp - 1)));
    (c1, c1.stack[c1.regs.sp])
  }

  /** The effective precondition of pop: SP between 1 and 16. From SP = 0 the
      decrement wraps to 255 and the assertion fails. */
  lemma PopPrecondition(c: Chip8)
    ensures CanPop(c) <==> 1 <= c.regs.sp <= TotalStackDepth
    ensures c.regs.sp == 0 ==> ToByte(c.regs.sp - 1) == 0xFF
  {
  }

  /** Push then pop returns the pushed word and restores every register. */
  lemma PushPop(c: Chip8, val: Word)
    requires CanPush(c)
    ensures CanPop(Push(c, val))
    ensures Pop(Push(c, val)).1 == val
    ensures Pop(Push(c, val)).0.regs == c.regs
    ensures Pop(Push(c, val)).0.memory == c.memory
  {
  }

  /** Last in, first out: after pushing a then b, pops return b then a. */
  lemma Lifo(c: Chip8, a: Word, b: Word)
    requires c.regs.sp + 1 < TotalStackDepth
    ensures var c2 := Push(Push(c, a), b);
            var (c3, first) := Pop(c2);
            var (c4, second) := Pop(c3);
            first == b && second == a && c4.regs == c.regs
  {
  }

  /** Push the words of `ws` in order; each push finds SP below 16. */
  function PushAll(c: Chip8, ws: seq<Word>): (r: Chip8)
    requires c.regs.sp as int + |ws| <= TotalStackDepth
    ensures r.regs.sp == c.regs.sp as int + |ws|
    ensures forall k :: 0 <= k < TotalStackDepth ==>
              r.stack[k] == if c.regs.sp <= k < c.regs.sp as int + |ws| then ws[k - c.regs.sp] else c.stack[k]
    ensures r.regs == c.regs.(sp := r.regs.sp) && r.memory == c.memory
    decreases |ws|
  {
    if |ws| == 0 then c else PushAll(Push(c, ws[0]), ws[1..])
  }

  /** From an empty stack, sixteen pushes are all allowed and fill every slot
      in order; a seventeenth would violate the assertion. */
  lemma PushBound(c: Chip8, ws: seq<Word>)
    requires c.regs.sp == 0 && |ws| == TotalStackDepth
    ensures var r := PushAll(c, ws);
            && r.regs.sp == TotalStackDepth
            && r.stack == ws
            && !CanPush(r)
  {
  }
}
