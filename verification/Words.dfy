/** Disk blocks as bytes, and the little-endian 32-bit words that the kernel
    overlays on them (log headers, indirect blocks). */
module Words {

  const BSIZE: nat := 512
  const WORDS_PER_BLOCK: nat := 128
  const WORD_MOD: nat := 0x1_0000_0000

  type Byte = x: int | 0 <= x < 256
  type Word = x: int | 0 <= x < 0x1_0000_0000
  type Block = b: seq<Byte> | |b| == BSIZE witness seq(BSIZE, _ => 0)

  function ZeroBlock(): (b: Block)
    ensures forall i | 0 <= i < BSIZE :: b[i] == 0
  {
    seq(BSIZE, _ => 0)
  }

  /** The i-th entry of `(uint*)b`. */
  function GetWord(b: Block, i: nat): Word
    requires i < WORDS_PER_BLOCK
  {
    b[4 * i] as int + 256 * (b[4 * i + 1] as int) + 65536 * (b[4 * i + 2] as int) + 16777216 * (b[4 * i + 3] as int)
  }

  /** The block after `((uint*)b)[i] = v`. */
  function PutWord(b: Block, i: nat, v: Word): Block
    requires i < WORDS_PER_BLOCK
  {
    b[4 * i := v % 256][4 * i + 1 := v / 256 % 256][4 * i + 2 := v / 65536 % 256][4 * i + 3 := v / 16777216]
  }

  /** Storing a word changes that word and no other. */
  lemma GetPutWord(b: Block, i: nat, v: Word, j: nat)
    requires i < WORDS_PER_BLOCK && j < WORDS_PER_BLOCK
    ensures GetWord(PutWord(b, i, v), j) == if i == j then v else GetWord(b, j)
  {
    if i == j {
      assert v / 256 / 256 == v / 65536 && v / 65536 / 256 == v / 16777216;
      assert v == v % 256 + 256 * (v / 256);
      assert v / 256 == v / 256 % 256 + 256 * (v / 65536);
      assert v / 65536 == v / 65536 % 256 + 256 * (v / 16777216);
    }
  }
}
