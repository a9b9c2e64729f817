/** Sizes, addresses and the two machine integer types of the interpreter
    (src/config.h). `byte` is an unsigned char and `word` an unsigned short,
    so every store into one of them reduces its value modulo 256 or 65536. */
module Config {

  const MemorySize: int := 0x1000
  const TotalDataRegisters: int := 0x10
  const TotalStackDepth: int := 0x10
  const DefaultSpriteHeight: int := 5
  const CharacterSetLoadAddress: int := 0
  const ProgramMemoryAddress: int := 0x200

  type Byte = b: int | 0 <= b < 0x100
  type Word = w: int | 0 <= w < 0x1_0000

  /** The index of one of the sixteen data registers V0..VF. */
  type RegIndex = x: int | 0 <= x < TotalDataRegisters

  /** Flag register VF. */
  const VF: RegIndex := 0xF

  /** C's conversion of an int to `byte`: reduction modulo 256. */
  function ToByte(n: int): Byte
  {
    n % 0x100
  }

  /** C's conversion of an int to `word`: reduction modulo 65536. */
  function ToWord(n: int): Word
  {
    n % 0x1_0000
  }
}
