/** The 4 KiB byte memory (src/chip8memory.c). Every access is guarded by an
    assertion on the index; here that assertion is the precondition. Get and
    GetWord are pure, so they cannot modify memory. */
module Memory {
  import opened Config
  import Bits

  type Ram = s: seq<Byte> | |s| == MemorySize witness seq(MemorySize, _ => 0)

  /** The bounds assertion of every access. */
  predicate IsInBounds(index: int)
  {
    0 <= index < MemorySize
  }

  function Get(mem: Ram, index: int): Byte
    requires IsInBounds(index)
  {
    mem[index]
  }

  /** Store one byte; a later Get of that index returns it and every other
      index keeps its byte. */
  function Set(mem: Ram, index: int, val: Byte): (r: Ram)
    requires IsInBounds(index)
    ensures Get(r, index) == val
    ensures forall j :: IsInBounds(j) && j != index ==> Get(r, j) == Get(mem, j)
  {
    mem[index := val]
  }

  /** Two consecutive bytes combined as `byte1 << 8 | byte2`: the byte at
      `index` is the high half and the byte after it the low half. */
  function GetWord(mem: Ram, index: int): (r: Word)
    requires IsInBounds(index) && IsInBounds(index + 1)
    ensures r == Get(mem, index) * 0x100 + Get(mem, index + 1)
    ensures r / 0x100 == Get(mem, index) && r % 0x100 == Get(mem, index + 1)
  {
    var byte1 := Get(mem, index);
    var byte2 := Get(mem, index + 1);
    Bits.ComposeBytes(byte1, byte2);
    Bits.Or(byte1 * 0x100, byte2, 16)
  }

  /** The two bounds checks of GetWord hold exactly for 0 <= index <= 0xFFE. */
  lemma GetWordInBounds(index: int)
    ensures IsInBounds(index) && IsInBounds(index + 1) <==> 0 <= index <= 0xFFE
  {
  }

  /** `memcpy(&memory[at], buf, |buf|)`: buf lands at [at, at + |buf|), the
      rest of memory is untouched. */
  function Copy(mem: Ram, at: nat, buf: seq<Byte>): (r: Ram)
    requires at + |buf| <= MemorySize
    ensures forall j :: IsInBounds(j) && at <= j < at + |buf| ==> Get(r, j) == buf[j - at]
    ensures forall j :: IsInBounds(j) && !(at <= j < at + |buf|) ==> Get(r, j) == Get(mem, j)
  {
    mem[..at] + buf + mem[at + |buf|..]
  }
}
