/** The machine state: the register file (src/chip8registers.h), the call
    stack's slots (src/chip8stack.h) and the memory, gathered in one record
    as `struct chip8` gathers them. The framebuffer and keypad of that struct
    are not part of this model; the engine reaches them only through the
    collaborator values of `Io` and the requests of `ScreenCall`. */
module Machine {
  import opened Config
  import Memory

  type RegFile = s: seq<Byte> | |s| == TotalDataRegisters witness seq(TotalDataRegisters, _ => 0)

  type StackSlots = s: seq<Word> | |s| == TotalStackDepth witness seq(TotalStackDepth, _ => 0)

  datatype Registers = Registers(
    v: RegFile,          // V0..VF
    sp: Byte,            // 8-bit stack pointer
    i: Word,             // address register I
    pc: Word,            // program counter
    delayTimer: Byte,
    soundTimer: Byte)

  datatype Chip8 = Chip8(memory: Memory.Ram, regs: Registers, stack: StackSlots)

  /** What the collaborators outside the engine answer during one instruction:
      the key `Fx0A` waits for, the value of `rand()`, the collision result of
      a sprite draw, and whether the keypad reports a key as down. */
  datatype Io = Io(pressedKey: Byte, rand: nat, collision: bool, isDown: Byte -> bool)

  /** The call an instruction makes on the framebuffer. */
  datatype ScreenCall =
    | NoScreenCall
    | ClearScreen
    | DrawSprite(x: Byte, y: Byte, spriteAddress: Word, height: int)

  /** The all-zero state `memset` leaves behind. */
  function Zeroed(): Chip8
  {
    Chip8(
      seq(MemorySize, _ => 0),
      Registers(seq(TotalDataRegisters, _ => 0), 0, 0, 0, 0, 0),
      seq(TotalStackDepth, _ => 0))
  }

  /** A copy of `c` with register Vx replaced. */
  function SetV(c: Chip8, x: RegIndex, val: Byte): Chip8
  {
    c.(regs := c.regs.(v := c.regs.v[x := val]))
  }

  /** A copy of `c` with a new program counter. */
  function SetPc(c: Chip8, pc: Word): Chip8
  {
    c.(regs := c.regs.(pc := pc))
  }

  /** `PC += 2` on the 16-bit program counter: the step past one instruction,
      used both by the skips and by the fetch of the driver loop. */
  function NextInstruction(c: Chip8): Chip8
  {
    SetPc(c, ToWord(c.regs.pc as int + 2))
  }
}
