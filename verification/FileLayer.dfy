/** fs.c above the log: the block bitmap, inodes with direct and indirect blocks,
    and byte ranges of files.  Blocks are seen as the buffer cache shows them. */
module FileLayer {
  import opened Lists
  import opened Words
  import LogProtocol

  const BPB: nat := 4096
  const NDIRECT: nat := 12
  const NINDIRECT: nat := 128
  const MAXFILE: nat := 140
  const SLOTS: nat := 141
  const IPB: nat := 8

  // ---- bits of a byte ----

  /** x & (1 << k) */
  predicate TestBit(x: nat, k: nat) {
    if k == 0 then x % 2 == 1 else TestBit(x / 2, k - 1)
  }

  /** x with bit k made equal to v: x | (1 << k), or x & ~(1 << k) */
  function PutBit(x: nat, k: nat, v: bool): nat {
    if k == 0 then x - x % 2 + (if v then 1 else 0) else 2 * PutBit(x / 2, k - 1, v) + x % 2
  }

  lemma {:induction false} TestPutBit(x: nat, k: nat, v: bool, j: nat)
    ensures TestBit(PutBit(x, k, v), j) <==> if j == k then v else TestBit(x, j)
  {
    if k == 0 {
      assert PutBit(x, 0, v) / 2 == x / 2;
    } else {
      assert PutBit(x, k, v) / 2 == PutBit(x / 2, k - 1, v) && PutBit(x, k, v) % 2 == x % 2;
      if j > 0 {
        TestPutBit(x / 2, k - 1, v, j - 1);
      }
    }
  }

  function Pow2(n: nat): nat {
    if n == 0 then 1 else 2 * Pow2(n - 1)
  }

  lemma {:induction false} PutBitBound(x: nat, k: nat, v: bool, n: nat)
    requires x < Pow2(n) && k < n
    ensures PutBit(x, k, v) < Pow2(n)
  {
    var p := Pow2(n - 1);
    assert x / 2 < p;
    if k == 0 {
      assert PutBit(x, 0, v) <= 2 * (x / 2) + 1;
    } else {
      PutBitBound(x / 2, k - 1, v, n - 1);
    }
  }

  function PutBitInByte(x: Byte, k: nat, v: bool): (r: Byte)
    requires k < 8
    ensures forall j: nat :: TestBit(r, j) <==> if j == k then v else TestBit(x, j)
  {
    assert Pow2(8) == 256 by { assert Pow2(4) == 16; }
    PutBitBound(x, k, v, 8);
    assert forall j: nat :: TestBit(PutBit(x, k, v), j) <==> if j == k then v else TestBit(x, j) by {
      forall j: nat ensures TestBit(PutBit(x, k, v), j) <==> if j == k then v else TestBit(x, j) {
        TestPutBit(x, k, v, j);
      }
    }
    PutBit(x, k, v)
  }

  // ---- the free map ----

  /** The superblock's geometry: one bit per block from bmapstart on; blocks
      below datastart hold metadata. */
  datatype Super = Super(size: nat, inodestart: nat, bmapstart: nat, datastart: nat)

  ghost predicate Layout(sb: Super, blk: seq<Block>) {
    && 0 < sb.bmapstart && sb.bmapstart + (sb.size + BPB - 1) / BPB <= sb.datastart <= sb.size
    && |blk| == sb.size <= WORD_MOD
  }

  function MapBlock(sb: Super, b: nat): nat {
    b / BPB + sb.bmapstart
  }

  lemma MapBlockBelow(sb: Super, blk: seq<Block>, b: nat)
    requires Layout(sb, blk) && b < sb.size
    ensures MapBlock(sb, b) < sb.datastart && MapBlock(sb, b) < |blk|
  {
  }

  predicate Bit(sb: Super, blk: seq<Block>, b: nat)
    requires MapBlock(sb, b) < |blk|
  {
    TestBit(blk[MapBlock(sb, b)][b % BPB / 8], b % 8)
  }

  function PutBlockBit(data: Block, b: nat, v: bool): Block {
    data[b % BPB / 8 := PutBitInByte(data[b % BPB / 8], b % 8, v)]
  }

  function Mark(sb: Super, blk: seq<Block>, b: nat, v: bool): (r: seq<Block>)
    requires MapBlock(sb, b) < |blk|
    ensures |r| == |blk|
  {
    blk[MapBlock(sb, b) := PutBlockBit(blk[MapBlock(sb, b)], b, v)]
  }

  lemma {:induction false} MarkBits(sb: Super, blk: seq<Block>, b: nat, v: bool, c: nat)
    requires MapBlock(sb, b) < |blk| && MapBlock(sb, c) < |blk|
    ensures Bit(sb, Mark(sb, blk, b, v), c) <==> if c == b then v else Bit(sb, blk, c)
  {
    hide PutBlockBit, TestBit;
    if MapBlock(sb, b) == MapBlock(sb, c) {
      BlockBits(blk[MapBlock(sb, b)], b, v, c);
      assert c % BPB == b % BPB <==> c == b;
    }
  }

  lemma {:induction false} BlockBits(data: Block, b: nat, v: bool, c: nat)
    ensures TestBit(PutBlockBit(data, b, v)[c % BPB / 8], c % 8)
            <==> if c % BPB == b % BPB then v else TestBit(data[c % BPB / 8], c % 8)
  {
    hide TestBit, PutBit;
    LowBits(b);
    LowBits(c);
    SameBit(b % BPB, c % BPB);
  }

  lemma {:induction false} LowBits(b: nat)
    ensures b % 8 == b % BPB % 8
  {
    assert b == 8 * (512 * (b / BPB)) + b % BPB;
  }

  lemma SameBit(x: nat, y: nat)
    ensures x / 8 == y / 8 && x % 8 == y % 8 <==> x == y
  {
  }

  // ---- inodes and the blocks they reference ----

  /** addrs holds NDIRECT direct block numbers and then the indirect block's; 0 is
      no block. */
  datatype Inode = Inode(addrs: seq<nat>, size: nat)

  /** The reference slots of an inode: 0..11 direct, 12 the indirect block, and
      13 + j entry j of the indirect block. */
  function RefAt(blk: seq<Block>, ip: Inode, s: nat): nat {
    if |ip.addrs| != NDIRECT + 1 || s >= SLOTS then 0
    else if s <= NDIRECT then ip.addrs[s]
    else if 0 < ip.addrs[NDIRECT] < |blk| then GetWord(blk[ip.addrs[NDIRECT]], s - NDIRECT - 1)
    else 0
  }

  /** The slot that locates block bn of a file. */
  function SlotOf(bn: nat): nat {
    if bn < NDIRECT then bn else bn + 1
  }

  ghost predicate Shaped(ino: map<nat, Inode>) {
    forall n | n in ino :: |ino[n].addrs| == NDIRECT + 1
  }

  ghost function Ref(blk: seq<Block>, ino: map<nat, Inode>, n: nat, s: nat): nat {
    if n in ino then RefAt(blk, ino[n], s) else 0
  }

  /** Block ownership: every reference of every inode is to a distinct data block
      whose bit is set, and every set bit of the data area belongs to exactly one
      reference.  `owner` names it. */
  ghost predicate Owned(sb: Super, blk: seq<Block>, ino: map<nat, Inode>, owner: map<nat, (nat, nat)>) {
    && (forall n, s: nat | n in ino && s < SLOTS && Ref(blk, ino, n, s) != 0 ::
          Ref(blk, ino, n, s) in owner && owner[Ref(blk, ino, n, s)] == (n, s))
    && (forall b | b in owner :: OwnerOk(sb, blk, ino, owner[b], b))
    && BitsMatch(sb, blk, owner)
  }

  ghost predicate OwnerOk(sb: Super, blk: seq<Block>, ino: map<nat, Inode>, o: (nat, nat), b: nat) {
    sb.datastart <= b < sb.size && o.0 in ino && o.1 < SLOTS && Ref(blk, ino, o.0, o.1) == b
  }

  ghost predicate BitsMatch(sb: Super, blk: seq<Block>, owner: map<nat, (nat, nat)>) {
    forall b: nat | b < sb.size :: BitMatches(sb, blk, owner, b)
  }

  ghost predicate BitMatches(sb: Super, blk: seq<Block>, owner: map<nat, (nat, nat)>, b: nat) {
    MapBlock(sb, b) < |blk| && (Bit(sb, blk, b) <==> b < sb.datastart || b in owner)
  }

  /** One reference changes from nothing to a free block whose bit is now set. */
  lemma {:induction false} AddRef(sb: Super, blk: seq<Block>, ino: map<nat, Inode>, owner: map<nat, (nat, nat)>,
                                  blk': seq<Block>, ino': map<nat, Inode>, n: nat, s: nat, b: nat)
    requires Layout(sb, blk) && Layout(sb, blk') && Shaped(ino) && Shaped(ino') && ino'.Keys == ino.Keys
    requires Owned(sb, blk, ino, owner) && n in ino && s < SLOTS
    requires sb.datastart <= b < sb.size && b !in owner && Ref(blk, ino, n, s) == 0
    requires forall m, t: nat | m in ino && t < SLOTS ::
               Ref(blk', ino', m, t) == if m == n && t == s then b else Ref(blk, ino, m, t)
    requires BitsMatch(sb, blk', owner[b := (n, s)])
    ensures Owned(sb, blk', ino', owner[b := (n, s)])
  {
  }

  /** What balloc does to the blocks: the bit set, the block zeroed. */
  function Allocated(sb: Super, blk: seq<Block>, b: nat): (r: seq<Block>)
    requires MapBlock(sb, b) < |blk| && b < |blk|
    ensures |r| == |blk|
  {
    Mark(sb, blk, b, true)[b := ZeroBlock()]
  }

  lemma {:induction false} AllocatedBit(sb: Super, blk: seq<Block>, b: nat, c: nat)
    requires Layout(sb, blk) && sb.datastart <= b < sb.size && c < sb.size && MapBlock(sb, b) < |blk|
    ensures MapBlock(sb, c) < |blk|
    ensures Bit(sb, Allocated(sb, blk, b), c) <==> c == b || Bit(sb, blk, c)
  {
    MapBlockBelow(sb, blk, c);
    MarkBits(sb, blk, b, true, c);
  }

  lemma {:induction false} AllocatedBits(sb: Super, blk: seq<Block>, owner: map<nat, (nat, nat)>, b: nat, o: (nat, nat))
    requires Layout(sb, blk) && BitsMatch(sb, blk, owner) && sb.datastart <= b < sb.size && MapBlock(sb, b) < |blk|
    ensures BitsMatch(sb, Allocated(sb, blk, b), owner[b := o])
  {
    var blk', owner' := Allocated(sb, blk, b), owner[b := o];
    forall c: nat | c < sb.size ensures BitMatches(sb, blk', owner', c) {
      assert BitMatches(sb, blk, owner, c);
      AllocatedBit(sb, blk, b, c);
    }
  }

  /** Blocks that agree on every indirect block give the same references. */
  lemma {:induction false} SameRefs(sb: Super, blk: seq<Block>, ino: map<nat, Inode>, owner: map<nat, (nat, nat)>, blk': seq<Block>)
    requires Layout(sb, blk) && Layout(sb, blk') && Shaped(ino) && Owned(sb, blk, ino, owner)
    requires forall b | b in owner && owner[b].1 == NDIRECT :: b < |blk| && blk'[b] == blk[b]
    ensures forall m, t: nat | m in ino && t < SLOTS :: Ref(blk', ino, m, t) == Ref(blk, ino, m, t)
  {
    forall m, t: nat | m in ino && t < SLOTS ensures Ref(blk', ino, m, t) == Ref(blk, ino, m, t) {
      var i := Ref(blk, ino, m, NDIRECT);
      if i != 0 {
        assert i in owner && owner[i] == (m, NDIRECT);
      }
    }
  }

  lemma {:induction false} AllocatedRefs(sb: Super, blk: seq<Block>, ino: map<nat, Inode>, owner: map<nat, (nat, nat)>, b: nat)
    requires Layout(sb, blk) && Shaped(ino) && Owned(sb, blk, ino, owner)
    requires sb.datastart <= b < sb.size && b !in owner && MapBlock(sb, b) < |blk|
    ensures Layout(sb, Allocated(sb, blk, b))
    ensures forall c | c in owner :: c < |blk| && Allocated(sb, blk, b)[c] == blk[c]
    ensures forall m, t: nat | m in ino && t < SLOTS :: Ref(Allocated(sb, blk, b), ino, m, t) == Ref(blk, ino, m, t)
  {
    MapBlockBelow(sb, blk, b);
    forall c | c in owner ensures c < |blk| && Allocated(sb, blk, b)[c] == blk[c] {
      assert OwnerOk(sb, blk, ino, owner[c], c);
    }
    SameRefs(sb, blk, ino, owner, Allocated(sb, blk, b));
  }

  /** Storing a fresh zeroed block in slot s of an inode's own table. */
  lemma {:induction false} DirectRefs(blk: seq<Block>, ino: map<nat, Inode>, n: nat, s: nat, b: nat)
    requires Shaped(ino) && n in ino && s <= NDIRECT && ino[n].addrs[s] == 0
    requires 0 < b < |blk| && blk[b] == ZeroBlock()
    ensures var ino' := ino[n := ino[n].(addrs := ino[n].addrs[s := b])];
            && Shaped(ino') && ino'.Keys == ino.Keys
            && forall m, t: nat | m in ino && t < SLOTS ::
                 Ref(blk, ino', m, t) == if m == n && t == s then b else Ref(blk, ino, m, t)
  {
  }

  /** The file layer's state at one moment, for specifications. */
  datatype Files = Files(blk: seq<Block>, ino: map<nat, Inode>, owner: map<nat, (nat, nat)>)

  ghost predicate Sound(sb: Super, f: Files) {
    Layout(sb, f.blk) && Shaped(f.ino) && Owned(sb, f.blk, f.ino, f.owner)
  }

  ghost function FRef(f: Files, n: nat, s: nat): nat {
    Ref(f.blk, f.ino, n, s)
  }

  /** Inodes keep their sizes, and all but n keep everything; owned blocks keep
      their owners and, apart from n's indirect block, their contents. */
  ghost predicate Undisturbed(f: Files, g: Files, n: nat) {
    && g.ino.Keys == f.ino.Keys
    && (forall m | m in f.ino :: g.ino[m].size == f.ino[m].size && (m != n ==> g.ino[m] == f.ino[m]))
    && (forall c | c in f.owner :: c in g.owner && g.owner[c] == f.owner[c])
    && (forall c | c in f.owner && f.owner[c] != (n, NDIRECT) :: c < |f.blk| && c < |g.blk| && g.blk[c] == f.blk[c])
  }

  /** Slot (n, s) went from empty to a fresh zeroed block b. */
  ghost predicate Attached(sb: Super, f: Files, g: Files, n: nat, s: nat, b: nat) {
    && Sound(sb, g) && Undisturbed(f, g, n)
    && b !in f.owner && 0 < b < |g.blk| && g.blk[b] == ZeroBlock()
    && (forall m, t: nat | m in f.ino && t < SLOTS ::
          FRef(g, m, t) == if m == n && t == s then b else FRef(f, m, t))
  }

  /** What bmap(ip, bn) may do: existing references stay, and block bn exists
      after it, zeroed if it did not exist before. */
  ghost predicate Mapped(sb: Super, f: Files, g: Files, n: nat, bn: nat, addr: nat) {
    && Sound(sb, g) && Undisturbed(f, g, n)
    && FRef(g, n, SlotOf(bn)) == addr != 0
    && (bn >= NDIRECT ==> FRef(g, n, NDIRECT) != 0)
    && (forall m, t: nat | m in f.ino && t < SLOTS && FRef(g, m, t) != FRef(f, m, t) ::
          m == n && (t == SlotOf(bn) || (t == NDIRECT && bn >= NDIRECT)) && FRef(f, m, t) == 0)
    && (if FRef(f, n, SlotOf(bn)) == 0
        then addr < |g.blk| && g.blk[addr] == ZeroBlock() && addr !in f.owner
        else g == f)
  }

  lemma {:induction false} AttachedMapped(sb: Super, f: Files, g: Files, n: nat, bn: nat, b: nat)
    requires Sound(sb, f) && n in f.ino && bn < MAXFILE && Attached(sb, f, g, n, SlotOf(bn), b)
    requires FRef(f, n, SlotOf(bn)) == 0 && (bn >= NDIRECT ==> FRef(f, n, NDIRECT) != 0)
    ensures Mapped(sb, f, g, n, bn, b)
  {
  }

  lemma {:induction false} AttachedTwiceMapped(sb: Super, f: Files, g: Files, h: Files, n: nat, bn: nat, i: nat, b: nat)
    requires Sound(sb, f) && n in f.ino && NDIRECT <= bn < MAXFILE && FRef(f, n, NDIRECT) == 0
    requires Attached(sb, f, g, n, NDIRECT, i) && Attached(sb, g, h, n, SlotOf(bn), b)
    requires FRef(g, n, SlotOf(bn)) == 0
    ensures Mapped(sb, f, h, n, bn, b)
  {
  }

  /** balloc followed by storing the block in the inode's own table. */
  lemma {:induction false} DirectAttached(sb: Super, f: Files, n: nat, s: nat, b: nat)
    requires Sound(sb, f) && n in f.ino && s <= NDIRECT && f.ino[n].addrs[s] == 0
    requires b < sb.size && MapBlock(sb, b) < |f.blk| && !Bit(sb, f.blk, b)
    ensures Attached(sb, f, Files(Allocated(sb, f.blk, b), f.ino[n := f.ino[n].(addrs := f.ino[n].addrs[s := b])],
                                  f.owner[b := (n, s)]), n, s, b)
  {
    var blk, ino := Allocated(sb, f.blk, b), f.ino[n := f.ino[n].(addrs := f.ino[n].addrs[s := b])];
    FreshBlock(sb, f, n, s, b);
    hide Allocated;
    DirectRefs(blk, f.ino, n, s, b);
    assert Ref(f.blk, f.ino, n, s) == 0;
    AddRef(sb, f.blk, f.ino, f.owner, blk, ino, n, s, b);
  }

  /** The blocks after `a[j] = b` in block i. */
  function EntryPut(blk: seq<Block>, i: nat, j: nat, b: Word): (r: seq<Block>)
    requires i < |blk| && j < NINDIRECT
    ensures |r| == |blk|
  {
    blk[i := PutWord(blk[i], j, b)]
  }

  /** balloc followed by storing the block number in the indirect block. */
  lemma {:induction false} EntryAttached(sb: Super, f: Files, g: Files, n: nat, j: nat, b: nat)
    requires Sound(sb, f) && n in f.ino && j < NINDIRECT && 0 < f.ino[n].addrs[NDIRECT] < |f.blk|
    requires FRef(f, n, NDIRECT + 1 + j) == 0
    requires b < sb.size && MapBlock(sb, b) < |f.blk| && !Bit(sb, f.blk, b)
    requires g.blk == EntryPut(Allocated(sb, f.blk, b), f.ino[n].addrs[NDIRECT], j, b) && g.ino == f.ino
    requires g.owner == f.owner[b := (n, NDIRECT + 1 + j)]
    ensures Attached(sb, f, g, n, NDIRECT + 1 + j, b)
  {
    var i, s, blk := f.ino[n].addrs[NDIRECT], NDIRECT + 1 + j, Allocated(sb, f.blk, b);
    FreshBlock(sb, f, n, s, b);
    assert Ref(f.blk, f.ino, n, NDIRECT) == i;
    assert OwnerOk(sb, f.blk, f.ino, f.owner[i], i);
    hide Allocated, PutWord, Bit, BitsMatch;
    EntryStored(sb, f.blk, blk, f.ino, f.owner, n, j, b);
    AddRef(sb, f.blk, f.ino, f.owner, g.blk, f.ino, n, s, b);
    EntryUndisturbed(f, g, blk, n, j, b);
    hide Ref, Owned, EntryPut, Undisturbed;
  }

  lemma {:induction false} EntryUndisturbed(f: Files, g: Files, blk: seq<Block>, n: nat, j: nat, b: nat)
    requires n in f.ino && j < NINDIRECT && |f.ino[n].addrs| == NDIRECT + 1 && f.ino[n].addrs[NDIRECT] < |blk| && b < WORD_MOD
    requires f.ino[n].addrs[NDIRECT] in f.owner && f.owner[f.ino[n].addrs[NDIRECT]] == (n, NDIRECT)
    requires g.blk == EntryPut(blk, f.ino[n].addrs[NDIRECT], j, b) && g.ino == f.ino && |blk| == |f.blk|
    requires b !in f.owner && g.owner == f.owner[b := (n, NDIRECT + 1 + j)] && b < |blk| && blk[b] == ZeroBlock()
    requires forall c | c in f.owner :: c < |f.blk| && blk[c] == f.blk[c]
    ensures Undisturbed(f, g, n) && g.blk[b] == ZeroBlock()
  {
  }

  /** A block that balloc hands out: not owned before, zeroed, its bit now set. */
  lemma {:induction false} FreshBlock(sb: Super, f: Files, n: nat, s: nat, b: nat)
    requires Sound(sb, f) && b < sb.size && MapBlock(sb, b) < |f.blk| && !Bit(sb, f.blk, b)
    ensures var blk := Allocated(sb, f.blk, b);
            && sb.datastart <= b && b !in f.owner && Layout(sb, blk) && blk[b] == ZeroBlock()
            && BitsMatch(sb, blk, f.owner[b := (n, s)])
            && (forall c | c in f.owner :: c < |f.blk| && blk[c] == f.blk[c])
            && forall m, t: nat | m in f.ino && t < SLOTS :: Ref(blk, f.ino, m, t) == Ref(f.blk, f.ino, m, t)
  {
    assert BitMatches(sb, f.blk, f.owner, b);
    AllocatedRefs(sb, f.blk, f.ino, f.owner, b);
    AllocatedBits(sb, f.blk, f.owner, b, (n, s));
  }

  // ---- files as byte sequences ----

  function NBlocks(size: nat): nat {
    (size + BSIZE - 1) / BSIZE
  }

  predicate SlotUsed(s: nat, nb: nat) {
    if s < NDIRECT then s < nb else if s == NDIRECT then nb > NDIRECT else s - 1 < nb
  }

  /** No holes: exactly the slots of the first nb blocks are in use. */
  ghost predicate Dense(f: Files, n: nat, nb: nat) {
    nb <= MAXFILE && forall s: nat | s < SLOTS :: FRef(f, n, s) != 0 <==> SlotUsed(s, nb)
  }

  /** Byte i of a file, wherever its block is. */
  ghost function ByteAt(f: Files, n: nat, i: nat): Byte {
    var b := FRef(f, n, SlotOf(i / BSIZE));
    if b < |f.blk| then f.blk[b][i % BSIZE] else 0
  }

  ghost predicate GoodFile(f: Files, n: nat) {
    n in f.ino && f.ino[n].size <= MAXFILE * BSIZE && Dense(f, n, NBlocks(f.ino[n].size))
  }

  ghost function Contents(f: Files, n: nat): seq<Byte>
    requires n in f.ino
  {
    seq(f.ino[n].size, i requires 0 <= i => ByteAt(f, n, i))
  }

  lemma BlockOfByte(i: nat, nb: nat)
    requires i < nb * BSIZE
    ensures i / BSIZE < nb
  {
  }

  /** Data blocks of a dense file are owned, and not as anybody's indirect block. */
  lemma {:induction false} DataBlock(sb: Super, f: Files, n: nat, nb: nat, bn: nat)
    requires Sound(sb, f) && n in f.ino && Dense(f, n, nb) && bn < nb
    ensures SlotOf(bn) < SLOTS
    ensures var b := FRef(f, n, SlotOf(bn));
            sb.datastart <= b < |f.blk| && b in f.owner && f.owner[b] == (n, SlotOf(bn))
  {
  }

  /** bmap on a block at or just past the end keeps a file dense. */
  lemma {:induction false} MappedDense(sb: Super, f: Files, g: Files, n: nat, bn: nat, addr: nat, nb: nat)
    requires Sound(sb, f) && n in f.ino && bn < MAXFILE && Mapped(sb, f, g, n, bn, addr)
    requires Dense(f, n, nb) && bn <= nb
    ensures Dense(g, n, if bn < nb then nb else nb + 1)
    ensures bn < nb ==> g == f
  {
  }

  /** bmap changes no byte of any file. */
  lemma {:induction false} MappedBytes(sb: Super, f: Files, g: Files, n: nat, bn: nat, addr: nat, m: nat, nb: nat, i: nat)
    requires Sound(sb, f) && n in f.ino && bn < MAXFILE && Mapped(sb, f, g, n, bn, addr)
    requires m in f.ino && Dense(f, m, nb) && i < nb * BSIZE && nb <= MAXFILE
    ensures i / BSIZE < MAXFILE && ByteAt(g, m, i) == ByteAt(f, m, i)
  {
    BlockOfByte(i, nb);
    DataBlock(sb, f, m, nb, i / BSIZE);
    var s := SlotOf(i / BSIZE);
    assert FRef(g, m, s) == FRef(f, m, s);
  }

  lemma {:induction false} MappedOthersDense(sb: Super, f: Files, g: Files, n: nat, bn: nat, addr: nat, m: nat)
    requires Sound(sb, f) && n in f.ino && bn < MAXFILE && Mapped(sb, f, g, n, bn, addr)
    requires m in f.ino && m != n && GoodFile(f, m)
    ensures GoodFile(g, m)
  {
  }

  /** Overwriting a data block. */
  function Stored(f: Files, b: nat, data: Block): Files
    requires b < |f.blk|
  {
    f.(blk := f.blk[b := data])
  }

  lemma {:induction false} StoredSound(sb: Super, f: Files, b: nat, data: Block)
    requires Sound(sb, f) && b in f.owner && f.owner[b].1 != NDIRECT && b < |f.blk|
    ensures Sound(sb, Stored(f, b, data))
    ensures forall m, t: nat | m in f.ino && t < SLOTS :: FRef(Stored(f, b, data), m, t) == FRef(f, m, t)
  {
    var g := Stored(f, b, data);
    assert OwnerOk(sb, f.blk, f.ino, f.owner[b], b);
    forall c | c in f.owner && f.owner[c].1 == NDIRECT ensures c < |f.blk| && g.blk[c] == f.blk[c] {
      assert OwnerOk(sb, f.blk, f.ino, f.owner[c], c);
    }
    SameRefs(sb, f.blk, f.ino, f.owner, g.blk);
    StoreKeepsBits(sb, f.blk, f.owner, b, data);
    forall c | c in f.owner ensures OwnerOk(sb, g.blk, g.ino, f.owner[c], c) {
      assert OwnerOk(sb, f.blk, f.ino, f.owner[c], c);
    }
    forall m, t: nat | m in f.ino && t < SLOTS ensures FRef(g, m, t) == FRef(f, m, t) {
      assert Ref(g.blk, f.ino, m, t) == Ref(f.blk, f.ino, m, t);
    }
  }

  lemma {:induction false} StoredBytes(sb: Super, f: Files, n: nat, nbn: nat, bn: nat, data: Block, m: nat, nb: nat, i: nat)
    requires Sound(sb, f) && n in f.ino && Dense(f, n, nbn) && bn < nbn
    requires m in f.ino && Dense(f, m, nb) && i < nb * BSIZE
    ensures SlotOf(bn) < SLOTS && FRef(f, n, SlotOf(bn)) < |f.blk|
    ensures i / BSIZE < MAXFILE
    ensures var g := Stored(f, FRef(f, n, SlotOf(bn)), data);
            ByteAt(g, m, i) == if m == n && i / BSIZE == bn then data[i % BSIZE] else ByteAt(f, m, i)
  {
    BlockOfByte(i, nb);
    DataBlock(sb, f, n, nbn, bn);
    DataBlock(sb, f, m, nb, i / BSIZE);
    StoredSound(sb, f, FRef(f, n, SlotOf(bn)), data);
  }

  // ---- one turn of writei's loop ----

  function Overwrite(b: Block, o: nat, chunk: seq<Byte>): Block
    requires o + |chunk| <= BSIZE
  {
    b[..o] + chunk + b[o + |chunk|..]
  }

  /** File m is the same file, byte for byte, in both states. */
  ghost predicate SameFile(f0: Files, f: Files, m: nat) {
    && GoodFile(f0, m) && GoodFile(f, m) && f.ino[m] == f0.ino[m]
    && forall i: nat | i < f0.ino[m].size :: ByteAt(f, m, i) == ByteAt(f0, m, i)
  }

  ghost predicate OthersSame(f0: Files, f: Files, n: nat) {
    forall m | m in f0.ino && m != n :: SameFile(f0, f, m)
  }

  /** Byte i of the file being written, once everything before off is written. */
  ghost function Expected(f0: Files, n: nat, off0: nat, off: nat, src: seq<Byte>, i: nat): Byte {
    if off0 <= i < off && i - off0 < |src| then src[i - off0] else ByteAt(f0, n, i)
  }

  /** nb blocks exist once everything before off is written. */
  ghost predicate Growing(sb: Super, f0: Files, f: Files, n: nat, off: nat, nb: nat) {
    && n in f0.ino && f.ino.Keys == f0.ino.Keys && Sound(sb, f)
    && var size := f0.ino[n].size;
    && f.ino[n].size == size && Dense(f, n, nb)
    && NBlocks(size) <= nb && off <= nb * BSIZE
    && (nb == NBlocks(size) ==> f.ino[n] == f0.ino[n])
    && (nb > NBlocks(size) ==> (nb - 1) * BSIZE < off)
  }

  /** State of writei's loop: [off0, off) is written and nb blocks exist. */
  ghost predicate Writing(sb: Super, f0: Files, f: Files, n: nat, off0: nat, off: nat, src: seq<Byte>, nb: nat) {
    Growing(sb, f0, f, n, off, nb) && OthersSame(f0, f, n) && Written(f0, f, n, off0, off, src, nb)
  }

  lemma {:induction false} MapKeepsOthers(sb: Super, f0: Files, f: Files, g: Files, n: nat, bn: nat, addr: nat)
    requires Sound(sb, f0) && Sound(sb, f) && f.ino.Keys == f0.ino.Keys && n in f.ino && OthersSame(f0, f, n)
    requires bn < MAXFILE && Mapped(sb, f, g, n, bn, addr)
    ensures OthersSame(f0, g, n)
  {
    forall m | m in f0.ino && m != n ensures SameFile(f0, g, m) {
      assert SameFile(f0, f, m);
      MappedOthersDense(sb, f, g, n, bn, addr, m);
      forall i: nat | i < f0.ino[m].size ensures ByteAt(g, m, i) == ByteAt(f0, m, i) {
        MappedBytes(sb, f, g, n, bn, addr, m, NBlocks(f0.ino[m].size), i);
      }
    }
  }

  lemma {:induction false} StoreKeepsOthers(sb: Super, f0: Files, f: Files, n: nat, nb: nat, bn: nat, data: Block)
    requires Sound(sb, f0) && Sound(sb, f) && f.ino.Keys == f0.ino.Keys && n in f.ino && OthersSame(f0, f, n)
    requires Dense(f, n, nb) && bn < nb
    ensures SlotOf(bn) < SLOTS && FRef(f, n, SlotOf(bn)) < |f.blk|
    ensures OthersSame(f0, Stored(f, FRef(f, n, SlotOf(bn)), data), n)
  {
    DataBlock(sb, f, n, nb, bn);
    var b := FRef(f, n, SlotOf(bn));
    var g := Stored(f, b, data);
    StoredSound(sb, f, b, data);
    forall m | m in f0.ino && m != n ensures SameFile(f0, g, m) {
      assert SameFile(f0, f, m);
      assert forall s: nat | s < SLOTS :: FRef(g, m, s) == FRef(f, m, s);
      forall i: nat | i < f0.ino[m].size ensures ByteAt(g, m, i) == ByteAt(f0, m, i) {
        StoredBytes(sb, f, n, nb, bn, data, m, NBlocks(f0.ino[m].size), i);
      }
    }
  }

  lemma {:induction false} OverwriteAt(b: Block, o: nat, chunk: seq<Byte>, x: nat)
    requires o + |chunk| <= BSIZE && x < BSIZE
    ensures Overwrite(b, o, chunk)[x] == if o <= x < o + |chunk| then chunk[x - o] else b[x]
  {
  }

  lemma InChunk(off: nat, m: nat, i: nat)
    requires off % BSIZE + m <= BSIZE
    ensures off <= i < off + m ==> i / BSIZE == off / BSIZE && i % BSIZE - off % BSIZE == i - off
    ensures i / BSIZE == off / BSIZE ==> i % BSIZE - off % BSIZE == i - off
  {
  }

  /** A chunk stored inside one block replaces exactly its own bytes. */
  lemma {:induction false} ChunkBytes(sb: Super, g: Files, n: nat, off: nat, chunk: seq<Byte>, nb: nat, addr: nat, i: nat)
    requires Sound(sb, g) && n in g.ino && Dense(g, n, nb) && off / BSIZE < nb && i < nb * BSIZE
    requires off % BSIZE + |chunk| <= BSIZE && addr == FRef(g, n, SlotOf(off / BSIZE))
    ensures addr < |g.blk| && i / BSIZE < MAXFILE
    ensures ByteAt(Stored(g, addr, Overwrite(g.blk[addr], off % BSIZE, chunk)), n, i)
         == if off <= i < off + |chunk| then chunk[i - off] else ByteAt(g, n, i)
  {
    var bn, o := off / BSIZE, off % BSIZE;
    DataBlock(sb, g, n, nb, bn);
    var data := Overwrite(g.blk[addr], o, chunk);
    StoredBytes(sb, g, n, nb, bn, data, n, nb, i);
    InChunk(off, |chunk|, i);
    OverwriteAt(g.blk[addr], o, chunk, i % BSIZE);
  }

  ghost predicate Written(f0: Files, f: Files, n: nat, off0: nat, off: nat, src: seq<Byte>, nb: nat) {
    n in f0.ino && forall i: nat | i < nb * BSIZE && (i < f0.ino[n].size || i < off) ::
      ByteAt(f, n, i) == Expected(f0, n, off0, off, src, i)
  }

  lemma {:induction false} WrittenGrows(sb: Super, f0: Files, f: Files, g: Files, n: nat, off0: nat, off: nat, src: seq<Byte>,
                                        nb: nat, nb': nat, addr: nat, m: nat)
    requires n in f0.ino && Shaped(f0.ino) && f0.ino[n].size <= nb * BSIZE && off <= nb * BSIZE
    requires Sound(sb, f) && n in f.ino && Dense(f, n, nb) && off0 <= off && off + m <= off0 + |src|
    requires off / BSIZE < nb' <= MAXFILE && off % BSIZE + m <= BSIZE && nb <= nb'
    requires Mapped(sb, f, g, n, off / BSIZE, addr) && Dense(g, n, nb')
    requires Written(f0, f, n, off0, off, src, nb)
    ensures addr < |g.blk|
    ensures var h := Stored(g, addr, Overwrite(g.blk[addr], off % BSIZE, src[off - off0..off - off0 + m]));
            Written(f0, h, n, off0, off + m, src, nb')
  {
    DataBlock(sb, g, n, nb', off / BSIZE);
    var chunk := src[off - off0..off - off0 + m];
    var h := Stored(g, addr, Overwrite(g.blk[addr], off % BSIZE, chunk));
    forall i: nat | i < nb' * BSIZE && (i < f0.ino[n].size || i < off + m)
      ensures ByteAt(h, n, i) == Expected(f0, n, off0, off + m, src, i)
    {
      ChunkBytes(sb, g, n, off, chunk, nb', addr, i);
      if !(off <= i < off + m) {
        MappedBytes(sb, f, g, n, off / BSIZE, addr, n, nb, i);
      }
    }
  }

  lemma NextOffset(size: nat, nb: nat, off: nat, m: nat)
    requires off % BSIZE + m <= BSIZE && 0 < m && NBlocks(size) <= nb && off <= nb * BSIZE
    requires nb > NBlocks(size) ==> (nb - 1) * BSIZE < off
    ensures off / BSIZE <= nb && size <= nb * BSIZE
    ensures var nb' := if off / BSIZE < nb then nb else nb + 1;
            && off + m <= nb' * BSIZE
            && (nb' > NBlocks(size) ==> (nb' - 1) * BSIZE < off + m)
  {
  }

  lemma {:induction false} GrowStep(sb: Super, f0: Files, f: Files, g: Files, n: nat, off: nat, nb: nat, addr: nat, m: nat, data: Block)
    requires Sound(sb, f0) && n in f0.ino && 0 < m && Growing(sb, f0, f, n, off, nb)
    requires off / BSIZE < MAXFILE && off % BSIZE + m <= BSIZE && Mapped(sb, f, g, n, off / BSIZE, addr)
    ensures var nb' := if off / BSIZE < nb then nb else nb + 1;
            && off / BSIZE < nb' <= MAXFILE && Dense(g, n, nb') && addr < |g.blk|
            && Growing(sb, f0, Stored(g, addr, data), n, off + m, nb')
  {
    var bn := off / BSIZE;
    var nb' := if bn < nb then nb else nb + 1;
    NextOffset(f0.ino[n].size, nb, off, m);
    MappedDense(sb, f, g, n, bn, addr, nb);
    DataBlock(sb, g, n, nb', bn);
    StoredSound(sb, g, addr, data);
    var h := Stored(g, addr, data);
    assert forall s: nat | s < SLOTS :: FRef(h, n, s) == FRef(g, n, s);
  }

  /** One turn of writei's loop: bmap, copy m bytes into the block, log it. */
  lemma {:induction false} WriteStep(sb: Super, f0: Files, f: Files, g: Files, n: nat, off0: nat, off: nat, src: seq<Byte>,
                                     nb: nat, addr: nat, m: nat)
    requires Sound(sb, f0) && n in f0.ino && off0 <= off && 0 < m && off + m <= off0 + |src|
    requires Writing(sb, f0, f, n, off0, off, src, nb)
    requires off / BSIZE < MAXFILE && off % BSIZE + m <= BSIZE && Mapped(sb, f, g, n, off / BSIZE, addr)
    ensures addr < |g.blk|
    ensures var h := Stored(g, addr, Overwrite(g.blk[addr], off % BSIZE, src[off - off0..off - off0 + m]));
            Writing(sb, f0, h, n, off0, off + m, src, if off / BSIZE < nb then nb else nb + 1)
  {
    var nb' := if off / BSIZE < nb then nb else nb + 1;
    GrowStep(sb, f0, f, g, n, off, nb, addr, m, ZeroBlock());
    var data := Overwrite(g.blk[addr], off % BSIZE, src[off - off0..off - off0 + m]);
    GrowStep(sb, f0, f, g, n, off, nb, addr, m, data);
    NextOffset(f0.ino[n].size, nb, off, m);
    WrittenGrows(sb, f0, f, g, n, off0, off, src, nb, nb', addr, m);
    MapKeepsOthers(sb, f0, f, g, n, off / BSIZE, addr);
    StoreKeepsOthers(sb, f0, g, n, nb', off / BSIZE, data);
  }

  /** The file after writing src at off: the bytes there replaced, longer if needed. */
  function Splice(s: seq<Byte>, off: nat, src: seq<Byte>): seq<Byte>
    requires off <= |s|
  {
    s[..off] + src + (if off + |src| < |s| then s[off + |src|..] else [])
  }

  function Resized(f: Files, n: nat, size: nat): Files
    requires n in f.ino
  {
    f.(ino := f.ino[n := f.ino[n].(size := size)])
  }

  lemma {:induction false} ResizedSound(sb: Super, f: Files, n: nat, size: nat)
    requires Sound(sb, f) && n in f.ino
    ensures Sound(sb, Resized(f, n, size)) && Resized(f, n, size).ino.Keys == f.ino.Keys
    ensures forall m, t: nat | m in f.ino && t < SLOTS :: FRef(Resized(f, n, size), m, t) == FRef(f, m, t)
  {
    var g := Resized(f, n, size);
    forall m, t: nat | m in f.ino && t < SLOTS
      ensures FRef(g, m, t) == FRef(f, m, t) == Ref(f.blk, f.ino, m, t) == Ref(g.blk, g.ino, m, t)
    {
    }
    forall c | c in f.owner ensures OwnerOk(sb, g.blk, g.ino, g.owner[c], c) {
      assert OwnerOk(sb, f.blk, f.ino, f.owner[c], c);
    }
  }

  lemma FinalBlocks(size: nat, nb: nat, off: nat)
    requires NBlocks(size) <= nb && off <= nb * BSIZE
    requires nb > NBlocks(size) ==> (nb - 1) * BSIZE < off
    ensures off <= size ==> nb == NBlocks(size)
    ensures off > size ==> nb == NBlocks(off)
  {
  }

  /** The state that writei leaves: the size grows if the write went past it. */
  function Ended(f: Files, n: nat, off: nat, len: nat): Files
    requires n in f.ino
  {
    if len > 0 && off > f.ino[n].size then Resized(f, n, off) else f
  }

  lemma {:induction false} EndedShape(sb: Super, f0: Files, f: Files, n: nat, off: nat, len: nat, nb: nat)
    requires Sound(sb, f0) && n in f0.ino && Growing(sb, f0, f, n, off, nb) && nb <= MAXFILE
    requires f0.ino[n].size <= MAXFILE * BSIZE && (len == 0 ==> off <= f0.ino[n].size)
    ensures var g := Ended(f, n, off, len); var size := f0.ino[n].size;
            && Sound(sb, g) && g.ino.Keys == f0.ino.Keys && GoodFile(g, n)
            && g.ino[n].size == (if off > size then off else size)
            && (off <= size ==> g == f && f.ino[n] == f0.ino[n])
            && forall i: nat | i < MAXFILE * BSIZE :: ByteAt(g, n, i) == ByteAt(f, n, i)
  {
    FinalBlocks(f0.ino[n].size, nb, off);
    ResizedSound(sb, f, n, off);
    var g := Ended(f, n, off, len);
    assert forall s: nat | s < SLOTS :: FRef(g, n, s) == FRef(f, n, s);
  }

  lemma {:induction false} EndedOthers(sb: Super, f0: Files, f: Files, n: nat, off: nat, len: nat)
    requires Sound(sb, f0) && Sound(sb, f) && n in f.ino && f.ino.Keys == f0.ino.Keys && OthersSame(f0, f, n)
    ensures Ended(f, n, off, len).ino.Keys == f0.ino.Keys && Shaped(Ended(f, n, off, len).ino)
    ensures OthersSame(f0, Ended(f, n, off, len), n)
  {
    ResizedSound(sb, f, n, off);
    var g := Ended(f, n, off, len);
    forall m | m in f0.ino && m != n ensures SameFile(f0, g, m) {
      assert SameFile(f0, f, m);
      assert forall s: nat | s < SLOTS :: FRef(g, m, s) == FRef(f, m, s);
      assert forall i: nat | i < f0.ino[m].size :: ByteAt(g, m, i) == ByteAt(f, m, i);
    }
  }

  /** The loop's end state read as a byte sequence. */
  lemma {:induction false} EndedContents(sb: Super, f0: Files, f: Files, n: nat, off0: nat, src: seq<Byte>, nb: nat)
    requires Sound(sb, f0) && n in f0.ino && GoodFile(f0, n) && off0 <= f0.ino[n].size
    requires Growing(sb, f0, f, n, off0 + |src|, nb) && Written(f0, f, n, off0, off0 + |src|, src, nb)
    ensures var g := Ended(f, n, off0 + |src|, |src|);
            && n in g.ino && Shaped(g.ino) && g.ino[n].size <= MAXFILE * BSIZE
            && Contents(g, n) == Splice(Contents(f0, n), off0, src)
  {
    var off := off0 + |src|;
    var g := Ended(f, n, off, |src|);
    EndedShape(sb, f0, f, n, off, |src|, nb);
    NextSize(f0.ino[n].size, nb);
    ContentsSpliced(f0, f, g, n, off0, src, nb);
  }

  lemma {:induction false} ContentsSpliced(f0: Files, f: Files, g: Files, n: nat, off0: nat, src: seq<Byte>, nb: nat)
    requires n in f0.ino && n in f.ino && n in g.ino && Shaped(f0.ino) && Shaped(f.ino) && Shaped(g.ino)
    requires off0 <= f0.ino[n].size <= nb * BSIZE && off0 + |src| <= nb * BSIZE && nb <= MAXFILE
    requires g.ino[n].size == if off0 + |src| > f0.ino[n].size then off0 + |src| else f0.ino[n].size
    requires Written(f0, f, n, off0, off0 + |src|, src, nb)
    requires forall j: nat | j < MAXFILE * BSIZE :: ByteAt(g, n, j) == ByteAt(f, n, j)
    ensures Contents(g, n) == Splice(Contents(f0, n), off0, src)
  {
  }

  lemma NextSize(size: nat, nb: nat)
    requires NBlocks(size) <= nb
    ensures size <= nb * BSIZE
  {
  }

  /** Reading back a range just written gives the bytes written, and the rest of
      the file is what it was. */
  lemma {:induction false} ReadBack(s: seq<Byte>, off: nat, src: seq<Byte>)
    requires off <= |s|
    ensures |Splice(s, off, src)| == if off + |src| > |s| then off + |src| else |s|
    ensures Splice(s, off, src)[off..off + |src|] == src
    ensures Splice(s, off, src)[..off] == s[..off]
    ensures off + |src| <= |s| ==> Splice(s, off, src)[off + |src|..] == s[off + |src|..]
  {
  }

  // ---- truncation ----

  /** Only bitmap blocks differ, and exactly the bits of `gone` were cleared. */
  ghost predicate BitsCleared(sb: Super, blk0: seq<Block>, blk: seq<Block>, gone: set<nat>) {
    && |blk| == |blk0|
    && (forall b: nat | b < |blk| && (b < sb.bmapstart || sb.datastart <= b) :: blk[b] == blk0[b])
    && (forall c: nat | c < sb.size :: BitKept(sb, blk0, blk, gone, c))
  }

  ghost predicate BitKept(sb: Super, blk0: seq<Block>, blk: seq<Block>, gone: set<nat>, c: nat) {
    && MapBlock(sb, c) < |blk| == |blk0|
    && (Bit(sb, blk, c) <==> Bit(sb, blk0, c) && c !in gone)
  }

  lemma {:induction false} ClearOne(sb: Super, blk0: seq<Block>, blk: seq<Block>, gone: set<nat>, b: nat)
    requires Layout(sb, blk0) && BitsCleared(sb, blk0, blk, gone) && b < sb.size && MapBlock(sb, b) < |blk|
    ensures Layout(sb, blk) && BitsCleared(sb, blk0, Mark(sb, blk, b, false), gone + {b})
  {
    var blk', gone' := Mark(sb, blk, b, false), gone + {b};
    MapBlockBelow(sb, blk, b);
    forall c: nat | c < sb.size ensures BitKept(sb, blk0, blk', gone', c) {
      assert BitKept(sb, blk0, blk, gone, c);
      MarkBits(sb, blk, b, false, c);
    }
  }

  lemma {:induction false} NothingCleared(sb: Super, blk: seq<Block>)
    requires Layout(sb, blk)
    ensures BitsCleared(sb, blk, blk, {})
  {
  }

  /** Slots that itrunc has been through after its first loop's i turns, or after
      j turns of its second. */
  predicate Passed(s: nat, i: nat, j: nat) {
    s < i || (NDIRECT < s < NDIRECT + 1 + j)
  }

  /** `gone` is what inode n references from the slots passed so far. */
  ghost predicate GoneSoFar(f: Files, n: nat, i: nat, j: nat, gone: set<nat>) {
    && (forall s: nat | s < SLOTS && Passed(s, i, j) && FRef(f, n, s) != 0 :: FRef(f, n, s) in gone)
    && (forall b | b in gone :: b in f.owner && f.owner[b].0 == n && Passed(f.owner[b].1, i, j))
  }

  lemma {:induction false} GoneNext(sb: Super, f: Files, n: nat, i: nat, j: nat, i': nat, j': nat, gone: set<nat>, s: nat)
    requires Sound(sb, f) && n in f.ino && GoneSoFar(f, n, i, j, gone) && s < SLOTS && !Passed(s, i, j)
    requires forall t: nat :: Passed(t, i', j') <==> Passed(t, i, j) || t == s
    ensures var b := FRef(f, n, s);
            if b == 0 then GoneSoFar(f, n, i', j', gone)
            else b !in gone && sb.datastart <= b < sb.size && GoneSoFar(f, n, i', j', gone + {b})
  {
  }

  function NoAddrs(): (a: seq<nat>)
    ensures |a| == NDIRECT + 1 && forall i | 0 <= i <= NDIRECT :: a[i] == 0
  {
    seq(NDIRECT + 1, _ => 0)
  }

  /** The state that itrunc leaves. */
  ghost function Truncated(f: Files, n: nat, blk: seq<Block>): Files {
    Files(blk, f.ino[n := Inode(NoAddrs(), 0)], map b | b in f.owner && f.owner[b].0 != n :: f.owner[b])
  }

  lemma {:induction false} TruncatedRefs(sb: Super, f: Files, n: nat, blk: seq<Block>, gone: set<nat>)
    requires Sound(sb, f) && n in f.ino && BitsCleared(sb, f.blk, blk, gone)
    ensures forall m, t: nat | m in f.ino && t < SLOTS ::
              FRef(Truncated(f, n, blk), m, t) == if m == n then 0 else FRef(f, m, t)
  {
    var g := Truncated(f, n, blk);
    forall m, t: nat | m in f.ino && t < SLOTS ensures FRef(g, m, t) == if m == n then 0 else FRef(f, m, t) {
      var i := Ref(f.blk, f.ino, m, NDIRECT);
      if m != n && i != 0 {
        assert OwnerOk(sb, f.blk, f.ino, f.owner[i], i);
      }
    }
  }

  lemma {:induction false} TruncatedSound(sb: Super, f: Files, n: nat, blk: seq<Block>, gone: set<nat>)
    requires Sound(sb, f) && n in f.ino && BitsCleared(sb, f.blk, blk, gone)
    requires forall b :: b in gone <==> b in f.owner && f.owner[b].0 == n
    ensures Sound(sb, Truncated(f, n, blk))
  {
    var g := Truncated(f, n, blk);
    TruncatedRefs(sb, f, n, blk, gone);
    assert Shaped(g.ino);
    forall m, t: nat | m in g.ino && t < SLOTS && Ref(g.blk, g.ino, m, t) != 0
      ensures Ref(g.blk, g.ino, m, t) in g.owner && g.owner[Ref(g.blk, g.ino, m, t)] == (m, t)
    {
      assert FRef(g, m, t) == FRef(f, m, t) == Ref(f.blk, f.ino, m, t);
    }
    forall b | b in g.owner ensures OwnerOk(sb, g.blk, g.ino, g.owner[b], b) {
      assert OwnerOk(sb, f.blk, f.ino, f.owner[b], b);
      assert FRef(g, g.owner[b].0, g.owner[b].1) == FRef(f, g.owner[b].0, g.owner[b].1);
    }
    forall c: nat | c < sb.size ensures BitMatches(sb, g.blk, g.owner, c) {
      assert BitMatches(sb, f.blk, f.owner, c);
      assert BitKept(sb, f.blk, blk, gone, c);
    }
  }

  lemma {:induction false} TruncatedFiles(sb: Super, f: Files, n: nat, blk: seq<Block>, gone: set<nat>)
    requires Sound(sb, f) && n in f.ino && BitsCleared(sb, f.blk, blk, gone) && forall m | m in f.ino :: GoodFile(f, m)
    ensures var g := Truncated(f, n, blk);
            && Contents(g, n) == [] && (forall m | m in g.ino :: GoodFile(g, m))
            && forall m | m in g.ino && m != n :: g.ino[m] == f.ino[m] && Contents(g, m) == Contents(f, m)
  {
    var g := Truncated(f, n, blk);
    TruncatedRefs(sb, f, n, blk, gone);
    assert GoodFile(g, n) by {
      assert forall s: nat | s < SLOTS :: FRef(g, n, s) == 0;
    }
    forall m | m in g.ino && m != n ensures GoodFile(g, m) && Contents(g, m) == Contents(f, m) {
      assert GoodFile(f, m);
      assert forall s: nat | s < SLOTS :: FRef(g, m, s) == FRef(f, m, s);
      forall i: nat | i < f.ino[m].size ensures ByteAt(g, m, i) == ByteAt(f, m, i) {
        BlockOfByte(i, NBlocks(f.ino[m].size));
        DataBlock(sb, f, m, NBlocks(f.ino[m].size), i / BSIZE);
      }
    }
  }

  // ---- how many blocks are left ----

  ghost predicate MapFull(sb: Super, blk: seq<Block>) {
    forall c: nat | c < sb.size :: MapBlock(sb, c) < |blk| && Bit(sb, blk, c)
  }

  /** The clear bits among the first n of the free map. */
  function ClearBits(sb: Super, blk: seq<Block>, n: nat): nat {
    if n == 0 then 0
    else ClearBits(sb, blk, n - 1) + if MapBlock(sb, n - 1) < |blk| && !Bit(sb, blk, n - 1) then 1 else 0
  }

  function FreeBits(sb: Super, blk: seq<Block>): nat {
    ClearBits(sb, blk, sb.size)
  }

  ghost function Below(owner: map<nat, (nat, nat)>, n: nat): set<nat> {
    set c | c in owner && c < n
  }

  lemma {:induction false} ClearCount(sb: Super, blk: seq<Block>, owner: map<nat, (nat, nat)>, n: nat)
    requires BitsMatch(sb, blk, owner) && n <= sb.size && forall b | b in owner :: sb.datastart <= b < sb.size
    ensures ClearBits(sb, blk, n) + |Below(owner, n)| == if n <= sb.datastart then 0 else n - sb.datastart
  {
    hide Bit, MapBlock;
    if n == 0 {
      assert Below(owner, 0) == {};
    } else {
      ClearCount(sb, blk, owner, n - 1);
      assert BitMatches(sb, blk, owner, n - 1);
      if n - 1 in owner {
        assert Below(owner, n) == Below(owner, n - 1) + {n - 1};
      } else {
        assert Below(owner, n) == Below(owner, n - 1);
      }
    }
  }

  /** Blocks of the data area that belong to nobody. */
  ghost function Left(sb: Super, owner: map<nat, (nat, nat)>): int {
    sb.size - sb.datastart - |owner|
  }

  /** The clear bits of the map are exactly the blocks that are left. */
  lemma {:induction false} LeftAreClear(sb: Super, f: Files)
    requires Sound(sb, f)
    ensures FreeBits(sb, f.blk) == Left(sb, f.owner)
  {
    forall c | c in f.owner ensures sb.datastart <= c < sb.size {
      assert OwnerOk(sb, f.blk, f.ino, f.owner[c], c);
    }
    ClearCount(sb, f.blk, f.owner, sb.size);
    assert Below(f.owner, sb.size) == f.owner.Keys;
    assert |f.owner| == |f.owner.Keys|;
  }

  lemma {:induction false} ClearMeans(sb: Super, blk: seq<Block>, n: nat)
    ensures ClearBits(sb, blk, n) > 0 <==> exists c: nat :: c < n && MapBlock(sb, c) < |blk| && !Bit(sb, blk, c)
  {
    if n > 0 {
      ClearMeans(sb, blk, n - 1);
    }
  }

  /** balloc finds a block exactly when one is left. */
  lemma {:induction false} LeftMeans(sb: Super, f: Files)
    requires Sound(sb, f)
    ensures Left(sb, f.owner) >= 0 && (Left(sb, f.owner) == 0 <==> MapFull(sb, f.blk))
  {
    LeftAreClear(sb, f);
    ClearMeans(sb, f.blk, sb.size);
    assert forall c: nat | c < sb.size :: MapBlock(sb, c) < |f.blk| by {
      forall c: nat | c < sb.size ensures MapBlock(sb, c) < |f.blk| {
        MapBlockBelow(sb, f.blk, c);
      }
    }
  }

  lemma {:induction false} NotFull(sb: Super, f: Files, b: nat, found: bool)
    requires Sound(sb, f)
    requires found ==> b < sb.size && MapBlock(sb, b) < |f.blk| && !Bit(sb, f.blk, b)
    ensures found ==> !MapFull(sb, f.blk) && b !in f.owner
  {
    if found {
      assert BitMatches(sb, f.blk, f.owner, b);
    }
  }

  /** Blocks that bmap has to allocate for block bn of a file. */
  ghost function MapNeed(f: Files, n: nat, bn: nat): nat {
    if FRef(f, n, SlotOf(bn)) != 0 then 0
    else if bn >= NDIRECT && FRef(f, n, NDIRECT) == 0 then 2
    else 1
  }

  /** Blocks that a file of nb0 blocks needs to have nb: its data, and the indirect block
      if it is the first to reach it. */
  function Need(nb0: nat, nb: nat): nat {
    if nb <= nb0 then 0 else nb - nb0 + if nb0 <= NDIRECT < nb then 1 else 0
  }

  /** Blocks that a write up to `end` adds to a file of `size` bytes. */
  function NewBlocks(size: nat, end: nat): nat {
    Need(NBlocks(size), NBlocks(if end > size then end else size))
  }

  lemma {:induction false} TurnNeeds(sb: Super, f0: Files, f: Files, n: nat, off0: nat, off: nat, src: seq<Byte>, nb: nat, nb0: nat)
    requires Writing(sb, f0, f, n, off0, off, src, nb) && off / BSIZE < MAXFILE && nb0 <= nb
    ensures var nb' := if off / BSIZE < nb then nb else nb + 1;
            && MapNeed(f, n, off / BSIZE) == Need(nb, nb') && Need(nb0, nb) + Need(nb, nb') == Need(nb0, nb')
  {
    assert off / BSIZE <= nb;
  }

  lemma {:induction false} NewBlocksSum(size: nat, e1: nat, e2: nat)
    ensures e1 <= e2 ==>
              NewBlocks(size, e1) + NewBlocks(if e1 > size then e1 else size, e2) == NewBlocks(size, e2)
  {
    assert forall a: nat, b: nat | a <= b :: NBlocks(a) <= NBlocks(b);
  }

  lemma NothingNew(size: nat, end: nat)
    ensures end <= size ==> NewBlocks(size, end) == 0
  {
  }

  lemma NothingNeeded(nb: nat)
    ensures Need(nb, nb) == 0
  {
  }

  lemma NeedGrows(nb0: nat, nb: nat, nb': nat)
    requires nb <= nb'
    ensures Need(nb0, nb) <= Need(nb0, nb')
  {
  }

  /** A turn that cannot be paid for means that the whole write cannot. */
  lemma {:induction false} TurnTooMuch(sb: Super, f0: Files, f: Files, n: nat, off0: nat, off: nat, src: seq<Byte>, nb: nat)
    requires Writing(sb, f0, f, n, off0, off, src, nb) && off0 <= off < off0 + |src| && off / BSIZE < MAXFILE
    requires n in f0.ino && MapNeed(f, n, off / BSIZE) > 0
    ensures Need(NBlocks(f0.ino[n].size), nb) + MapNeed(f, n, off / BSIZE) <= NewBlocks(f0.ino[n].size, off0 + |src|)
  {
    var nb0 := NBlocks(f0.ino[n].size);
    TurnNeeds(sb, f0, f, n, off0, off, src, nb, nb0);
    WritingNew(sb, f0, f, n, off0, off, src, nb);
    var end := off0 + |src|;
    assert nb + 1 <= NBlocks(end) && end > f0.ino[n].size;
    NeedGrows(nb0, nb + 1, NBlocks(end));
  }

  /** The account of one turn, o0 being the number of owned blocks before the write. */
  lemma {:induction false} PayTurn(sb: Super, f0: Files, f: Files, n: nat, off0: nat, off: nat, src: seq<Byte>, nb: nat, o0: nat)
    requires Writing(sb, f0, f, n, off0, off, src, nb) && off0 <= off < off0 + |src| && off / BSIZE < MAXFILE
    requires n in f0.ino && NBlocks(f0.ino[n].size) <= nb && |f.owner| == o0 + Need(NBlocks(f0.ino[n].size), nb) && Sound(sb, f)
    ensures |f.owner| + MapNeed(f, n, off / BSIZE)
            == o0 + Need(NBlocks(f0.ino[n].size), if off / BSIZE < nb then nb else nb + 1)
    ensures Left(sb, f.owner) < MapNeed(f, n, off / BSIZE) ==>
              sb.size - sb.datastart - o0 < NewBlocks(f0.ino[n].size, off0 + |src|)
  {
    hide Writing, Sound, MapNeed, Need, NewBlocks, NBlocks;
    LeftMeans(sb, f);
    TurnNeeds(sb, f0, f, n, off0, off, src, nb, NBlocks(f0.ino[n].size));
    if MapNeed(f, n, off / BSIZE) > 0 {
      TurnTooMuch(sb, f0, f, n, off0, off, src, nb);
    }
  }

  lemma {:induction false} AllPaid(sb: Super, f0: Files, f: Files, n: nat, off0: nat, src: seq<Byte>, nb: nat)
    requires Writing(sb, f0, f, n, off0, off0 + |src|, src, nb) && n in f0.ino
    ensures Need(NBlocks(f0.ino[n].size), nb) == NewBlocks(f0.ino[n].size, off0 + |src|)
  {
    FinalBlocks(f0.ino[n].size, nb, off0 + |src|);
  }

  // ---- what is logged ----

  /** Every block that was changed was logged. */
  ghost predicate Journaled(blk0: seq<Block>, blk: seq<Block>, logged: set<nat>) {
    |blk| == |blk0| && forall k: nat | k < |blk| && blk[k] != blk0[k] :: k in logged
  }

  lemma {:induction false} JournaledChain(b0: seq<Block>, b1: seq<Block>, b2: seq<Block>, l1: set<nat>, l2: set<nat>)
    requires Journaled(b0, b1, l1) && Journaled(b1, b2, l2) && l1 <= l2
    ensures Journaled(b0, b2, l2)
  {
  }

  lemma JournaledSelf(blk: seq<Block>, logged: set<nat>)
    ensures Journaled(blk, blk, logged)
  {
  }

  lemma {:induction false} EntryJournaled(blk0: seq<Block>, blk: seq<Block>, i: nat, j: nat, b: Word, logged: set<nat>)
    requires Journaled(blk0, blk, logged) && i < |blk| && j < NINDIRECT
    ensures Journaled(blk0, EntryPut(blk, i, j, b), logged + {i})
  {
  }

  lemma JournaledMore(blk0: seq<Block>, blk: seq<Block>, logged: set<nat>, k: nat)
    requires Journaled(blk0, blk, logged)
    ensures Journaled(blk0, blk, logged + {k})
  {
  }

  /** The log grew, and covers every change. */
  ghost predicate Extends(blk0: seq<Block>, blk: seq<Block>, log0: set<nat>, log: set<nat>) {
    log0 <= log && Journaled(blk0, blk, log)
  }

  lemma ExtendsSelf(blk: seq<Block>, log: set<nat>)
    ensures Extends(blk, blk, log, log)
  {
  }

  lemma {:induction false} ExtendsChain(b0: seq<Block>, b1: seq<Block>, b2: seq<Block>, l0: set<nat>, l1: set<nat>, l2: set<nat>)
    requires Extends(b0, b1, l0, l1) && Extends(b1, b2, l1, l2)
    ensures Extends(b0, b2, l0, l2)
  {
    JournaledChain(b0, b1, b2, l1, l2);
  }

  lemma ExtendsMore(blk0: seq<Block>, blk: seq<Block>, log0: set<nat>, log: set<nat>, k: nat)
    requires Extends(blk0, blk, log0, log)
    ensures Extends(blk0, blk, log0, log + {k})
  {
  }

  ghost function Indirect(f: Files, n: nat): set<nat> {
    if FRef(f, n, NDIRECT) == 0 then {} else {FRef(f, n, NDIRECT)}
  }

  /** 1 if the indirect block was allocated on the way from f to g. */
  ghost function NewIndirect(f: Files, g: Files, n: nat): nat {
    if FRef(f, n, NDIRECT) == 0 && FRef(g, n, NDIRECT) != 0 then 1 else 0
  }

  /** Blocks of the free map. */
  ghost predicate MapBlocks(sb: Super, maps: set<nat>) {
    sb.size <= BPB ==> maps <= {sb.bmapstart}
  }

  /** What bmap logs: a block of the free map for each block it allocates, the block it
      returns, and the indirect block. */
  ghost predicate MapLogs(sb: Super, f: Files, g: Files, n: nat, bn: nat, addr: nat, log0: set<nat>, log: set<nat>,
                          maps: set<nat>) {
    && log0 <= log <= log0 + maps + {addr} + Indirect(g, n)
    && MapBlocks(sb, maps)
    && |maps| <= (if FRef(f, n, SlotOf(bn)) == 0 then 1 else 0) + NewIndirect(f, g, n)
  }

  lemma {:induction false} DirectLogs(sb: Super, f: Files, g: Files, n: nat, bn: nat, b: nat, log: set<nat>)
    requires FRef(f, n, SlotOf(bn)) == 0 && MapBlocks(sb, {MapBlock(sb, b)})
    ensures MapLogs(sb, f, g, n, bn, b, log, log + {MapBlock(sb, b), b}, {MapBlock(sb, b)})
  {
  }

  /** A block that exists: bmap changes and logs nothing. */
  lemma {:induction false} HitMapped(sb: Super, f: Files, n: nat, bn: nat, log: set<nat>)
    requires Sound(sb, f) && n in f.ino && bn < MAXFILE
    requires FRef(f, n, SlotOf(bn)) != 0 && (bn >= NDIRECT ==> FRef(f, n, NDIRECT) != 0)
    ensures Mapped(sb, f, f, n, bn, FRef(f, n, SlotOf(bn)))
    ensures MapLogs(sb, f, f, n, bn, FRef(f, n, SlotOf(bn)), log, log, {}) && Journaled(f.blk, f.blk, log)
  {
    assert forall c | c in f.owner :: OwnerOk(sb, f.blk, f.ino, f.owner[c], c);
  }

  lemma {:induction false} IndirectRef(sb: Super, f: Files, n: nat)
    requires Sound(sb, f) && n in f.ino
    ensures |f.ino[n].addrs| == NDIRECT + 1 && FRef(f, n, NDIRECT) == f.ino[n].addrs[NDIRECT]
  {
  }

  lemma {:induction false} EntryRef(sb: Super, f: Files, n: nat, j: nat)
    requires Sound(sb, f) && n in f.ino && j < NINDIRECT
    ensures |f.ino[n].addrs| == NDIRECT + 1
    ensures 0 < f.ino[n].addrs[NDIRECT] < |f.blk| ==>
              FRef(f, n, NDIRECT + 1 + j) == GetWord(f.blk[f.ino[n].addrs[NDIRECT]], j)
  {
  }

  lemma {:induction false} NoIndirect(sb: Super, f: Files, n: nat, j: nat)
    requires Sound(sb, f) && n in f.ino && j < NINDIRECT && FRef(f, n, NDIRECT) == 0
    ensures FRef(f, n, NDIRECT + 1 + j) == 0
  {
  }

  lemma {:induction false} AttachedIndirect(sb: Super, f: Files, g: Files, n: nat, i: nat, j: nat)
    requires Sound(sb, f) && n in f.ino && j < NINDIRECT && FRef(f, n, NDIRECT) == 0 && Attached(sb, f, g, n, NDIRECT, i)
    ensures Sound(sb, g) && n in g.ino && |g.ino[n].addrs| == NDIRECT + 1
    ensures g.ino[n].addrs[NDIRECT] == i == FRef(g, n, NDIRECT) && 0 < i < |g.blk|
    ensures FRef(f, n, NDIRECT + 1 + j) == 0 && FRef(g, n, NDIRECT + 1 + j) == 0
  {
    NoIndirect(sb, f, n, j);
    IndirectRef(sb, g, n);
  }

  lemma {:induction false} AttachedEntry(sb: Super, g: Files, h: Files, n: nat, j: nat, b: nat)
    requires n in g.ino && j < NINDIRECT && Attached(sb, g, h, n, NDIRECT + 1 + j, b)
    ensures Sound(sb, h) && n in h.ino && FRef(h, n, NDIRECT) == FRef(g, n, NDIRECT)
  {
  }

  /** The indirect block i is there, as it was or as just allocated. */
  ghost predicate IndirectReady(sb: Super, f: Files, g: Files, n: nat, i: nat, log0: set<nat>, log1: set<nat>, maps: set<nat>) {
    && FRef(g, n, NDIRECT) == i && Journaled(f.blk, g.blk, log1) && MapBlocks(sb, maps)
    && if FRef(f, n, NDIRECT) == 0
       then Attached(sb, f, g, n, NDIRECT, i) && maps == {MapBlock(sb, i)} && log1 == log0 + {MapBlock(sb, i), i}
       else g == f && maps == {} && log1 == log0
  }

  lemma {:induction false} ReadyEntries(sb: Super, f: Files, g: Files, n: nat, j: nat, i: nat,
                                        log0: set<nat>, log1: set<nat>, maps: set<nat>)
    requires Sound(sb, f) && Sound(sb, g) && n in f.ino && n in g.ino && j < NINDIRECT
    requires IndirectReady(sb, f, g, n, i, log0, log1, maps) && |g.ino[n].addrs| == NDIRECT + 1
    requires 0 < i == g.ino[n].addrs[NDIRECT] < |g.blk|
    ensures FRef(g, n, NDIRECT + 1 + j) == FRef(f, n, NDIRECT + 1 + j) == GetWord(g.blk[i], j)
    ensures FRef(f, n, NDIRECT) == 0 ==> FRef(f, n, NDIRECT + 1 + j) == 0
    ensures FRef(f, n, NDIRECT + 1 + j) != 0 ==>
              && Mapped(sb, f, g, n, NDIRECT + j, FRef(f, n, NDIRECT + 1 + j)) && Journaled(f.blk, g.blk, log1)
              && MapLogs(sb, f, g, n, NDIRECT + j, FRef(f, n, NDIRECT + 1 + j), log0, log1, maps) && log1 == log0
    ensures MapNeed(f, n, NDIRECT + j)
            == if FRef(f, n, NDIRECT + 1 + j) != 0 then 0 else if FRef(f, n, NDIRECT) == 0 then 2 else 1
  {
    hide Sound, Attached, FRef, Mapped, MapLogs, Journaled, GetWord;
    EntryRef(sb, g, n, j);
    if FRef(f, n, NDIRECT) == 0 {
      AttachedIndirect(sb, f, g, n, i, j);
    } else if FRef(f, n, NDIRECT + 1 + j) != 0 {
      HitMapped(sb, f, n, NDIRECT + j, log0);
    }
  }

  lemma {:induction false} EntryMapped(sb: Super, f: Files, g: Files, h: Files, n: nat, j: nat, i: nat, b: nat,
                                       log0: set<nat>, log1: set<nat>, log2: set<nat>, maps: set<nat>)
    requires Sound(sb, f) && n in f.ino && n in g.ino && j < NINDIRECT && FRef(f, n, NDIRECT + 1 + j) == 0
    requires IndirectReady(sb, f, g, n, i, log0, log1, maps) && i != 0 && FRef(g, n, NDIRECT + 1 + j) == 0
    requires Attached(sb, g, h, n, NDIRECT + 1 + j, b) && Journaled(g.blk, h.blk, log2)
    requires log2 == log1 + {MapBlock(sb, b), b} + {i} && MapBlocks(sb, {MapBlock(sb, b)})
    ensures Mapped(sb, f, h, n, NDIRECT + j, b) && Journaled(f.blk, h.blk, log2)
    ensures MapLogs(sb, f, h, n, NDIRECT + j, b, log0, log2, maps + {MapBlock(sb, b)})
  {
    hide Sound, Attached, FRef, Mapped, MapLogs, Journaled, MapBlocks;
    JournaledChain(f.blk, g.blk, h.blk, log1, log2);
    AttachedEntry(sb, g, h, n, j, b);
    if FRef(f, n, NDIRECT) == 0 {
      AttachedTwiceMapped(sb, f, g, h, n, NDIRECT + j, i, b);
    } else {
      AttachedMapped(sb, f, h, n, NDIRECT + j, b);
    }
    IndirectLogs(sb, f, h, n, j, i, b, log0, log1, log2, maps);
  }

  lemma {:induction false} IndirectLogs(sb: Super, f: Files, h: Files, n: nat, j: nat, i: nat, b: nat,
                                        log0: set<nat>, log1: set<nat>, log2: set<nat>, maps: set<nat>)
    requires FRef(f, n, NDIRECT + 1 + j) == 0 && FRef(h, n, NDIRECT) == i != 0 && j < NINDIRECT
    requires if FRef(f, n, NDIRECT) == 0 then maps == {MapBlock(sb, i)} && log1 == log0 + {MapBlock(sb, i), i}
             else maps == {} && log1 == log0
    requires log2 == log1 + {MapBlock(sb, b), b} + {i}
    requires MapBlocks(sb, maps) && MapBlocks(sb, {MapBlock(sb, b)})
    ensures MapLogs(sb, f, h, n, NDIRECT + j, b, log0, log2, maps + {MapBlock(sb, b)})
  {
    CountUnion(maps, {MapBlock(sb, b)});
  }

  /** What writei's loop has logged: data blocks, blocks of the free map and the
      indirect block; nm data blocks are new. */
  ghost predicate LoopLogs(sb: Super, f0: Files, f: Files, n: nat, log0: set<nat>, log: set<nat>,
                           data: set<nat>, maps: set<nat>, nd: nat, nm: nat) {
    && log0 <= log <= log0 + data + maps + Indirect(f, n)
    && MapBlocks(sb, maps) && |data| <= nd && |maps| <= nm + NewIndirect(f0, f, n)
    && Indirect(f0, n) <= Indirect(f, n)
  }

  /** An indirect block stays, and a store to a data block leaves the inode alone. */
  lemma {:induction false} MappedIndirect(sb: Super, f: Files, g: Files, h: Files, n: nat, bn: nat, addr: nat)
    requires n in f.ino && bn < MAXFILE && Mapped(sb, f, g, n, bn, addr) && h.ino == g.ino
    ensures Indirect(f, n) <= Indirect(g, n) == Indirect(h, n)
  {
    assert FRef(f, n, NDIRECT) != 0 ==> FRef(g, n, NDIRECT) == FRef(f, n, NDIRECT);
    assert FRef(h, n, NDIRECT) == FRef(g, n, NDIRECT);
  }

  lemma {:induction false} LoopLogsNext(sb: Super, f0: Files, f: Files, g: Files, h: Files, n: nat, bn: nat, addr: nat,
                                        log0: set<nat>, log: set<nat>, log': set<nat>, data: set<nat>, maps: set<nat>,
                                        more: set<nat>, nd: nat, nb0: nat, nb: nat)
    requires nb0 <= nb && (FRef(f, n, SlotOf(bn)) == 0 <==> bn >= nb)
    requires LoopLogs(sb, f0, f, n, log0, log, data, maps, nd, nb - nb0) && MapLogs(sb, f, g, n, bn, addr, log, log', more)
    requires Indirect(f, n) <= Indirect(g, n) == Indirect(h, n)
    ensures LoopLogs(sb, f0, h, n, log0, log', data + {addr}, maps + more, nd + 1, (if bn < nb then nb else nb + 1) - nb0)
  {
    hide FRef, SlotOf, Indirect, NewIndirect;
    CountUnion(maps, more);
    CountUnion(data, {addr});
    NewIndirectSum(f0, f, g, h, n);
  }

  lemma {:induction false} NewIndirectSum(f0: Files, f: Files, g: Files, h: Files, n: nat)
    requires Indirect(f0, n) <= Indirect(f, n) <= Indirect(g, n) == Indirect(h, n)
    ensures NewIndirect(f0, f, n) + NewIndirect(f, g, n) == NewIndirect(f0, h, n)
  {
    assert forall e: Files :: Indirect(e, n) == {} <==> FRef(e, n, NDIRECT) == 0;
  }

  /** Blocks that the bytes off0 .. off - 1 lie in. */
  function Started(off0: nat, off: nat): nat
    requires off0 <= off
  {
    if off == off0 then 0 else (off - 1) / BSIZE - off0 / BSIZE + 1
  }

  lemma StartedNext(off0: nat, off: nat, m: nat)
    requires off0 <= off && (off == off0 || off % BSIZE == 0) && 0 < m && off % BSIZE + m <= BSIZE
    ensures Started(off0, off + m) == Started(off0, off) + 1
  {
  }

  /** filewrite's largest transaction, in bytes. */
  const CHUNK: nat := (LogProtocol.MAXOPBLOCKS - 1 - 1 - 2) / 2 * BSIZE

  /** filewrite's reckoning (file.c): an inode, an indirect block, two blocks for writes
      that are not aligned, and two for each block of data. */
  function WriteBudget(len: nat): nat {
    2 * NBlocks(len) + 4
  }

  /** How many of len bytes at off0 filewrite gets into the file: all, or the chunks that
      fit below its largest size. */
  function Fitting(off0: nat, len: nat): nat {
    if off0 + len <= MAXFILE * BSIZE then len
    else if off0 > MAXFILE * BSIZE then 0
    else (MAXFILE * BSIZE - off0) / CHUNK * CHUNK
  }

  /** i bytes are whole chunks, or all there is. */
  predicate Whole(i: nat, len: nat) {
    i % CHUNK == 0 || i == len
  }

  lemma {:induction false} Chunks(room: nat, q: nat)
    ensures room / CHUNK >= q <==> CHUNK * q <= room
    ensures room / CHUNK * CHUNK <= room
  {
    assert CHUNK == 1536;
    var d, r := room / 1536, room % 1536;
    assert room == 1536 * d + r && 0 <= r < 1536;
    assert d >= q ==> 1536 * d >= 1536 * q;
    assert d < q ==> 1536 * q >= 1536 * d + 1536;
  }

  /** After i bytes in whole chunks, the next chunk fits or i is all that fits. */
  lemma {:induction false} FitsNow(off0: nat, len: nat, i: nat, m: nat)
    requires i + m <= len && Whole(i, len) && i <= Fitting(off0, len) && (m == CHUNK || (i + m == len && m < CHUNK))
    ensures Fitting(off0, len) <= len && Whole(i + m, len)
    ensures m > 0 && off0 + i + m <= MAXFILE * BSIZE ==> i + m <= Fitting(off0, len)
    ensures m > 0 && off0 + i + m > MAXFILE * BSIZE ==> i == Fitting(off0, len)
    ensures i == len ==> i == Fitting(off0, len)
  {
    if off0 + len > MAXFILE * BSIZE >= off0 {
      var room := MAXFILE * BSIZE - off0;
      var q := i / CHUNK;
      Chunks(room, q);
      Chunks(room, q + 1);
      assert CHUNK == 1536;
      assert i % 1536 == 0 && i == 1536 * q;
      FitsStep(len, i, m, room, q, room / 1536);
    }
    WholeNext(len, i, m);
  }

  lemma {:induction false} FitsStep(len: nat, i: nat, m: nat, room: nat, q: nat, d: nat)
    requires i == 1536 * q <= 1536 * d <= room < len && i + m <= len && (m == 1536 || (i + m == len && m < 1536))
    requires (d >= q + 1 <==> 1536 * (q + 1) <= room)
    ensures m > 0 && i + m <= room ==> i + m <= 1536 * d
    ensures m > 0 && i + m > room ==> i == 1536 * d
    ensures i != len
  {
    assert d <= q ==> 1536 * d <= 1536 * q;
    assert d >= q + 1 ==> 1536 * d >= 1536 * q + 1536;
  }

  lemma {:induction false} WholeNext(len: nat, i: nat, m: nat)
    requires Whole(i, len) && i + m <= len && (m == CHUNK || (i + m == len && m < CHUNK))
    ensures Whole(i + m, len)
  {
    assert CHUNK == 1536;
    if m == 1536 && i != len {
      assert i == 1536 * (i / 1536);
      assert i + m == 1536 * (i / 1536 + 1);
    }
  }

  lemma FitsFirst(off0: nat, len: nat)
    ensures Whole(0, len) && 0 <= Fitting(off0, len) <= len
  {
    if off0 + len > MAXFILE * BSIZE >= off0 {
      Chunks(MAXFILE * BSIZE - off0, 0);
    }
  }

  lemma ChunkBudget(len: nat)
    requires len <= CHUNK
    ensures WriteBudget(len) <= LogProtocol.MAXOPBLOCKS && NBlocks(len) + 4 <= 7
  {
  }

  lemma {:induction false} StartedBound(size: nat, nb: nat, off0: nat, len: nat)
    requires off0 <= size && NBlocks(size) <= nb && (nb > NBlocks(size) ==> (nb - 1) * BSIZE < off0 + len)
    ensures Started(off0, off0 + len) <= NBlocks(len) + 1
    ensures Started(off0, off0 + len) + (nb - NBlocks(size)) <= 2 * NBlocks(len) + 1
  {
  }

  lemma {:induction false} LogBound(sb: Super, f0: Files, f: Files, n: nat, log0: set<nat>, log: set<nat>,
                                    data: set<nat>, maps: set<nat>, nd: nat, nm: nat, ib: nat, len: nat)
    requires LoopLogs(sb, f0, f, n, log0, log, data, maps, nd, nm)
    requires nd <= NBlocks(len) + 1 && nd + nm <= 2 * NBlocks(len) + 1
    ensures |log + {ib} - log0| <= WriteBudget(len)
    ensures sb.size <= BPB ==> |log + {ib} - log0| <= NBlocks(len) + 4
  {
    var all := data + maps + Indirect(f, n) + {ib};
    CountUnion(data, maps);
    CountUnion(data + maps, Indirect(f, n));
    CountUnion(data + maps + Indirect(f, n), {ib});
    CountSubset(log + {ib} - log0, all);
    if sb.size <= BPB {
      CountSubset(maps, {sb.bmapstart});
    }
  }

  lemma {:induction false} NothingLogged(sb: Super, f: Files, n: nat, log: set<nat>, off: nat)
    ensures LoopLogs(sb, f, f, n, log, log, {}, {}, Started(off, off), 0)
  {
  }

  lemma NoneLogged(log: set<nat>)
    ensures log - log == {}
  {
  }

  /** The block at off is new to the file exactly when it is past the nb there are. */
  lemma {:induction false} WritingNew(sb: Super, f0: Files, f: Files, n: nat, off0: nat, off: nat, src: seq<Byte>, nb: nat)
    requires Writing(sb, f0, f, n, off0, off, src, nb) && off / BSIZE < MAXFILE
    ensures FRef(f, n, SlotOf(off / BSIZE)) == 0 <==> off / BSIZE >= nb
  {
  }

  lemma {:induction false} MappedInRange(sb: Super, f: Files, g: Files, n: nat, bn: nat, addr: nat)
    requires Mapped(sb, f, g, n, bn, addr) && n in f.ino && bn < MAXFILE
    ensures n in g.ino && addr < |g.blk|
  {
    hide Sound;
    MappedSound(sb, f, g, n, bn, addr);
    RefInRange(sb, g, n, SlotOf(bn));
  }

  lemma {:induction false} MappedSound(sb: Super, f: Files, g: Files, n: nat, bn: nat, addr: nat)
    requires Mapped(sb, f, g, n, bn, addr)
    ensures Sound(sb, g)
  {
  }

  /** The block that bmap returned is written and logged. */
  lemma {:induction false} ChunkLogs(sb: Super, f: Files, g: Files, n: nat, bn: nat, addr: nat, log0: set<nat>, log: set<nat>,
                                     maps: set<nat>, data: Block)
    requires MapLogs(sb, f, g, n, bn, addr, log0, log, maps) && Journaled(f.blk, g.blk, log) && addr < |g.blk|
    ensures MapLogs(sb, f, g, n, bn, addr, log0, log + {addr}, maps)
    ensures Journaled(f.blk, g.blk[addr := data], log + {addr})
  {
  }

  /** One turn of writei's loop keeps what the loop knows: the bytes, the log, the blocks changed. */
  lemma {:induction false} WriteTurn(sb: Super, f0: Files, f: Files, g: Files, h: Files, n: nat, off0: nat, off: nat,
                                     src: seq<Byte>, nb0: nat, nb: nat, addr: nat, m: nat, log0: set<nat>, log: set<nat>,
                                     log': set<nat>, data: set<nat>, maps: set<nat>, more: set<nat>)
    requires Sound(sb, f0) && n in f0.ino && n in f.ino && off0 <= off && 0 < m && off + m <= off0 + |src| && nb0 <= nb
    requires off / BSIZE < MAXFILE && off % BSIZE + m <= BSIZE && (off == off0 || off % BSIZE == 0)
    requires Writing(sb, f0, f, n, off0, off, src, nb) && Mapped(sb, f, g, n, off / BSIZE, addr) && addr < |g.blk|
    requires h == Stored(g, addr, Overwrite(g.blk[addr], off % BSIZE, src[off - off0..off - off0 + m]))
    requires LoopLogs(sb, f0, f, n, log0, log, data, maps, Started(off0, off), nb - nb0)
    requires MapLogs(sb, f, g, n, off / BSIZE, addr, log, log', more)
    requires Journaled(f0.blk, f.blk, log) && Journaled(f.blk, h.blk, log')
    ensures var nb' := if off / BSIZE < nb then nb else nb + 1;
            && Writing(sb, f0, h, n, off0, off + m, src, nb')
            && LoopLogs(sb, f0, h, n, log0, log', data + {addr}, maps + more, Started(off0, off + m), nb' - nb0)
    ensures Journaled(f0.blk, h.blk, log')
  {
    hide Writing, Mapped, Sound, LoopLogs, Journaled, Started, Overwrite, Indirect, FRef, NewIndirect, MapBlocks;
    WriteStep(sb, f0, f, g, n, off0, off, src, nb, addr, m);
    WritingNew(sb, f0, f, n, off0, off, src, nb);
    MappedIndirect(sb, f, g, h, n, off / BSIZE, addr);
    LoopLogsNext(sb, f0, f, g, h, n, off / BSIZE, addr, log0, log, log', data, maps, more, Started(off0, off), nb0, nb);
    JournaledChain(f0.blk, f.blk, h.blk, log, log');
    StartedNext(off0, off, m);
  }

  /** How much a whole writei logs, with and without its inode. */
  lemma {:induction false} WriteLogs(sb: Super, f0: Files, f: Files, n: nat, off0: nat, src: seq<Byte>, nb: nat,
                                     log0: set<nat>, log: set<nat>, data: set<nat>, maps: set<nat>, ib: nat)
    requires n in f0.ino && off0 <= f0.ino[n].size && Writing(sb, f0, f, n, off0, off0 + |src|, src, nb)
    requires nb >= NBlocks(f0.ino[n].size)
    requires LoopLogs(sb, f0, f, n, log0, log, data, maps, Started(off0, off0 + |src|), nb - NBlocks(f0.ino[n].size))
    ensures log0 <= log
    ensures |log - log0| <= |log + {ib} - log0| <= WriteBudget(|src|)
    ensures sb.size <= BPB ==> |log + {ib} - log0| <= NBlocks(|src|) + 4
  {
    var nb0 := NBlocks(f0.ino[n].size);
    StartedBound(f0.ino[n].size, nb, off0, |src|);
    LogBound(sb, f0, f, n, log0, log, data, maps, Started(off0, off0 + |src|), nb - nb0, ib, |src|);
    CountSubset(log - log0, log + {ib} - log0);
  }

  class FileSys {
    const sb: Super
    var blk: seq<Block>
    var ino: map<nat, Inode>
    var dino: map<nat, Inode>
    ghost var owner: map<nat, (nat, nat)>
    ghost var logged: set<nat>

    /** A formatted disk: only metadata is marked in use, and every inode is empty. */
    constructor (sb: Super, blk: seq<Block>, inums: set<nat>)
      requires Layout(sb, blk) && BitsMatch(sb, blk, map[])
      ensures Valid() && this.sb == sb && ino.Keys == inums && forall n | n in inums :: Contents(Snap(), n) == []
    {
      this.sb, this.blk, owner, logged := sb, blk, map[], {};
      ino := map n | n in inums :: Inode(NoAddrs(), 0);
      dino := map n | n in inums :: Inode(NoAddrs(), 0);
    }

    ghost function Snap(): Files
      reads this
    {
      Files(blk, ino, owner)
    }

    ghost predicate Full()
      reads this
    {
      MapFull(sb, blk)
    }

    /** balloc's scan of one bitmap block. */
    method ScanMap(b: nat) returns (bi: nat)
      requires Layout(sb, blk) && b % BPB == 0 && b < sb.size
      ensures bi <= BPB && MapBlock(sb, b) < |blk|
      ensures bi < BPB && b + bi < sb.size ==> MapBlock(sb, b + bi) < |blk| && !Bit(sb, blk, b + bi)
      ensures forall c: nat | b <= c < b + bi && c < sb.size :: MapBlock(sb, c) < |blk| && Bit(sb, blk, c)
    {
      MapBlockBelow(sb, blk, b);
      var data := blk[MapBlock(sb, b)];
      bi := 0;
      while bi < BPB && b + bi < sb.size
        invariant bi <= BPB
        invariant forall c: nat | b <= c < b + bi && c < sb.size :: MapBlock(sb, c) < |blk| && Bit(sb, blk, c)
      {
        SameMapBlock(b, bi);
        if !TestBit(data[bi / 8], bi % 8) {
          return;
        }
        bi := bi + 1;
      }
    }

    /** balloc: the first block whose bit is clear, now marked and zeroed; it
        panics exactly when every bit is set. */
    method BAlloc() returns (ok: bool, b: nat)
      requires Layout(sb, blk)
      modifies this`blk, this`logged
      ensures ok ==> b < sb.size == |old(blk)| && MapBlock(sb, b) < |old(blk)| && !Bit(sb, old(blk), b)
      ensures ok ==> blk == Allocated(sb, old(blk), b)
      ensures ok ==> forall c: nat | c < b :: MapBlock(sb, c) < |old(blk)| && Bit(sb, old(blk), c)
      ensures ok ==> logged == old(logged) + {MapBlock(sb, b), b} && Journaled(old(blk), blk, logged)
      ensures !ok ==> blk == old(blk) && Full()
    {
      ok, b := false, 0;
      while b < sb.size
        invariant b % BPB == 0 && blk == old(blk) && logged == old(logged)
        invariant forall c: nat | c < b && c < sb.size :: MapBlock(sb, c) < |blk| && Bit(sb, blk, c)
        decreases sb.size - b
      {
        var bi := ScanMap(b);
        if bi < BPB && b + bi < sb.size {
          b, ok := b + bi, true;
          blk := Mark(sb, blk, b, true);
          logged := logged + {MapBlock(sb, b)};
          blk := blk[b := ZeroBlock()];
          logged := logged + {b};
          return;
        }
        b := b + BPB;
      }
    }

    /** bmap's `ip->addrs[s] = balloc(ip->dev)`. */
    method AllocDirect(n: nat, s: nat) returns (ok: bool, b: nat)
      requires Sound(sb, Snap()) && n in ino && s <= NDIRECT && ino[n].addrs[s] == 0
      modifies this`blk, this`ino, this`owner, this`logged
      ensures ok ==> Attached(sb, old(Snap()), Snap(), n, s, b)
      ensures (ok <==> Left(sb, old(owner)) > 0) && (ok ==> |owner| == |old(owner)| + 1)
      ensures ok ==> logged == old(logged) + {MapBlock(sb, b), b} && Journaled(old(blk), blk, logged)
      ensures ok ==> MapBlocks(sb, {MapBlock(sb, b)})
      ensures !ok ==> Full()
    {
      hide Journaled, MapFull, Attached, FRef, Mark, ClearBits, BitsMatch, Owned;
      ghost var f := Snap();
      LeftMeans(sb, f);
      ok, b := BAlloc();
      NotFull(sb, f, b, ok);
      if !ok { return; }
      DirectAttached(sb, f, n, s, b);
      ino := ino[n := ino[n].(addrs := ino[n].addrs[s := b])];
      owner := owner[b := (n, s)];
    }

    /** bmap's `a[j] = balloc(ip->dev)` in the indirect block. */
    method AllocEntry(n: nat, j: nat) returns (ok: bool, b: nat)
      requires Sound(sb, Snap()) && n in ino && j < NINDIRECT && ino[n].addrs[NDIRECT] != 0
      requires FRef(Snap(), n, NDIRECT + 1 + j) == 0
      modifies this`blk, this`owner, this`logged
      ensures ok ==> Attached(sb, old(Snap()), Snap(), n, NDIRECT + 1 + j, b)
      ensures (ok <==> Left(sb, old(owner)) > 0) && (ok ==> |owner| == |old(owner)| + 1)
      ensures ok ==> logged == old(logged) + {MapBlock(sb, b), b} + {ino[n].addrs[NDIRECT]} && Journaled(old(blk), blk, logged)
      ensures ok ==> MapBlocks(sb, {MapBlock(sb, b)})
      ensures !ok ==> Full()
    {
      hide Journaled, GetWord, PutWord, Bit, BitsMatch, Owned, ZeroBlock, Attached, FRef, Mark, MapFull;
      ghost var f := Snap();
      LeftMeans(sb, f);
      ok, b := BAlloc();
      NotFull(sb, f, b, ok);
      if !ok { return; }
      IndirectInRange(sb, f, n);
      var i := ino[n].addrs[NDIRECT];
      EntryJournaled(f.blk, blk, i, j, b, logged);
      blk := EntryPut(blk, i, j, b);
      logged := logged + {i};
      owner := owner[b := (n, NDIRECT + 1 + j)];
      EntryAttached(sb, f, Snap(), n, j, b);
    }

    /** bmap: the block number of the bn-th block of a file, allocating what is
        missing.  It panics for bn out of range and when the disk is full. */
    method BMap(n: nat, bn: nat) returns (ok: bool, addr: nat, ghost maps: set<nat>)
      requires Sound(sb, Snap()) && n in ino
      modifies this`blk, this`ino, this`owner, this`logged
      ensures bn >= MAXFILE ==> !ok
      ensures bn < MAXFILE && !ok ==> Full() && FRef(old(Snap()), n, SlotOf(bn)) == 0
      ensures bn < MAXFILE ==> (ok <==> Left(sb, old(owner)) >= MapNeed(old(Snap()), n, bn))
      ensures ok ==> |owner| == |old(owner)| + MapNeed(old(Snap()), n, bn)
      ensures ok ==> Mapped(sb, old(Snap()), Snap(), n, bn, addr)
      ensures ok ==> MapLogs(sb, old(Snap()), Snap(), n, bn, addr, old(logged), logged, maps)
      ensures ok ==> Journaled(old(blk), blk, logged)
      ensures ok && FRef(old(Snap()), n, SlotOf(bn)) != 0 ==> logged == old(logged)
    {
      hide Mapped, MapLogs, Attached, Journaled, MapFull, BitsMatch, Owned, Bit;
      ok, maps := true, {};
      LeftMeans(sb, Snap());
      ghost var f, log := Snap(), logged;
      if bn < NDIRECT {
        addr := ino[n].addrs[bn];
        assert FRef(f, n, bn) == addr;
        if addr == 0 {
          ok, addr := AllocDirect(n, bn);
          if ok {
            AttachedMapped(sb, f, Snap(), n, bn, addr);
            DirectLogs(sb, f, Snap(), n, bn, addr, log);
            maps := {MapBlock(sb, addr)};
          }
        } else {
          HitMapped(sb, f, n, bn, log);
        }
        return;
      }
      var j := bn - NDIRECT;
      if j < NINDIRECT {
        ok, addr, maps := BMapIndirect(n, j);
        return;
      }
      ok, addr := false, 0;
    }

    method BMapIndirect(n: nat, j: nat) returns (ok: bool, addr: nat, ghost maps: set<nat>)
      requires Sound(sb, Snap()) && n in ino && j < NINDIRECT
      modifies this`blk, this`ino, this`owner, this`logged
      ensures !ok ==> Full() && FRef(old(Snap()), n, NDIRECT + 1 + j) == 0
      ensures ok <==> Left(sb, old(owner)) >= MapNeed(old(Snap()), n, NDIRECT + j)
      ensures ok ==> |owner| == |old(owner)| + MapNeed(old(Snap()), n, NDIRECT + j)
      ensures ok ==> Mapped(sb, old(Snap()), Snap(), n, NDIRECT + j, addr)
      ensures ok ==> MapLogs(sb, old(Snap()), Snap(), n, NDIRECT + j, addr, old(logged), logged, maps)
      ensures ok ==> Journaled(old(blk), blk, logged)
      ensures ok && FRef(old(Snap()), n, NDIRECT + 1 + j) != 0 ==> logged == old(logged)
    {
      hide Sound, Attached, FRef, Mapped, MapLogs, Journaled, MapFull, GetWord, IndirectReady;
      ghost var f, log0 := Snap(), logged;
      LeftMeans(sb, f);
      var i;
      ok, i, maps := LoadIndirect(n);
      if !ok {
        addr := 0;
        NoIndirect(sb, f, n, j);
        return;
      }
      ghost var g, log1 := Snap(), logged;
      ReadyEntries(sb, f, g, n, j, i, log0, log1, maps);
      addr := GetWord(blk[i], j);
      if addr == 0 {
        ok, addr := AllocEntry(n, j);
        if !ok { return; }
        EntryMapped(sb, f, g, Snap(), n, j, i, addr, log0, log1, logged, maps);
        maps := maps + {MapBlock(sb, addr)};
      }
    }

    /** bmap's loading of the indirect block, which it allocates if there is none. */
    method LoadIndirect(n: nat) returns (ok: bool, i: nat, ghost maps: set<nat>)
      requires Sound(sb, Snap()) && n in ino
      modifies this`blk, this`ino, this`owner, this`logged
      ensures !ok ==> Full() && FRef(old(Snap()), n, NDIRECT) == 0 && Left(sb, old(owner)) == 0
      ensures ok ==> Sound(sb, Snap()) && n in ino && |ino[n].addrs| == NDIRECT + 1 && 0 < i == ino[n].addrs[NDIRECT] < |blk|
      ensures ok ==> IndirectReady(sb, old(Snap()), Snap(), n, i, old(logged), logged, maps)
      ensures ok ==> |owner| == |old(owner)| + if FRef(old(Snap()), n, NDIRECT) == 0 then 1 else 0
    {
      hide Sound, Attached, FRef, MapFull, Journaled;
      ok, maps := true, {};
      ghost var f := Snap();
      LeftMeans(sb, f);
      IndirectRef(sb, f, n);
      JournaledSelf(blk, logged);
      i := ino[n].addrs[NDIRECT];
      if i == 0 {
        ok, i := AllocDirect(n, NDIRECT);
        if !ok { return; }
        AttachedIndirect(sb, f, Snap(), n, i, 0);
        maps := {MapBlock(sb, i)};
      } else {
        IndirectInRange(sb, f, n);
      }
    }

    /** Between calls: ownership, no holes in any file, and every inode on disk
        equal to the one in memory. */
    ghost predicate Valid()
      reads this
    {
      && Sound(sb, Snap()) && dino == ino
      && forall n | n in ino :: GoodFile(Snap(), n)
    }

    /** readi: the slice of the file that the range covers.  It never allocates. */
    method ReadI(n: nat, off0: nat, n0: nat) returns (r: int, dst: seq<Byte>)
      requires Valid() && n in ino && off0 < WORD_MOD && n0 < WORD_MOD
      modifies this`blk, this`ino, this`owner, this`logged
      ensures Snap() == old(Snap()) && logged == old(logged)
      ensures off0 > ino[n].size || off0 + n0 >= WORD_MOD ==> r == -1 && dst == []
      ensures off0 <= ino[n].size && off0 + n0 < WORD_MOD ==>
                var end := if off0 + n0 > ino[n].size then ino[n].size else off0 + n0;
                dst == Contents(Snap(), n)[off0..end] && r == |dst|
    {
      dst := [];
      if off0 > ino[n].size || (off0 + n0) % WORD_MOD < off0 {
        return -1, [];
      }
      var cnt := n0;
      if off0 + cnt > ino[n].size {
        cnt := ino[n].size - off0;
      }
      ghost var f := Snap();
      var tot, off := 0, off0;
      while tot < cnt
        invariant tot <= cnt && off == off0 + tot && off0 + cnt <= f.ino[n].size && Snap() == f && logged == old(logged)
        invariant dst == Contents(f, n)[off0..off]
      {
        var m;
        m, dst := ReadChunk(n, off, cnt - tot, dst, off0);
        tot, off := tot + m, off + m;
      }
      r := cnt;
    }

    /** One turn of readi's loop. */
    method ReadChunk(n: nat, off: nat, left: nat, dst0: seq<Byte>, ghost off0: nat) returns (m: nat, dst: seq<Byte>)
      requires Valid() && n in ino && 0 < left && off + left <= ino[n].size
      requires off0 <= off && dst0 == Contents(Snap(), n)[off0..off]
      modifies this`blk, this`ino, this`owner, this`logged
      ensures Snap() == old(Snap()) && logged == old(logged) && 0 < m <= left
      ensures dst == Contents(Snap(), n)[off0..off + m]
    {
      hide Sound, Mapped, GoodFile;
      ghost var f := Snap();
      ReadHit(sb, f, n, off);
      var ok, addr;
      ghost var maps;
      ok, addr, maps := BMap(n, off / BSIZE);
      MappedHit(sb, f, Snap(), n, off / BSIZE, addr);
      m := if left < BSIZE - off % BSIZE then left else BSIZE - off % BSIZE;
      dst := dst0 + blk[addr][off % BSIZE..off % BSIZE + m];
      ReadBytes(sb, f, n, off, m);
    }

    /** One turn of writei's loop: bmap, copy the chunk into the block, log it. */
    method WriteChunk(n: nat, off: nat, chunk: seq<Byte>)
      returns (ok: bool, ghost g: Files, ghost addr: nat, ghost maps: set<nat>)
      requires Sound(sb, Snap()) && n in ino && off / BSIZE < MAXFILE && off % BSIZE + |chunk| <= BSIZE
      modifies this`blk, this`ino, this`owner, this`logged
      ensures !ok ==> Full()
      ensures ok ==> Mapped(sb, old(Snap()), g, n, off / BSIZE, addr) && addr < |g.blk|
      ensures ok <==> Left(sb, old(owner)) >= MapNeed(old(Snap()), n, off / BSIZE)
      ensures ok ==> |owner| == |old(owner)| + MapNeed(old(Snap()), n, off / BSIZE)
      ensures ok ==> Snap() == Stored(g, addr, Overwrite(g.blk[addr], off % BSIZE, chunk))
      ensures ok ==> MapLogs(sb, old(Snap()), g, n, off / BSIZE, addr, old(logged), logged, maps)
      ensures ok ==> Journaled(old(blk), blk, logged)
    {
      hide Sound, Mapped, MapLogs, Journaled, MapNeed, MapFull, Overwrite;
      var b;
      ghost var f, log := Snap(), logged;
      ok, b, maps := BMap(n, off / BSIZE);
      addr, g := b, Snap();
      if !ok { return; }
      MappedInRange(sb, f, g, n, off / BSIZE, b);
      ghost var data := Overwrite(blk[b], off % BSIZE, chunk);
      ChunkLogs(sb, f, g, n, off / BSIZE, b, log, logged, maps, data);
      blk := blk[b := Overwrite(blk[b], off % BSIZE, chunk)];
      logged := logged + {b};
    }

    /** writei's loop. */
    method WriteLoop(n: nat, src: seq<Byte>, off0: nat, ghost f0: Files, ghost nb0: nat)
      returns (ok: bool, ghost nb: nat, ghost data: set<nat>, ghost maps: set<nat>)
      requires Sound(sb, f0) && n in f0.ino && off0 + |src| <= MAXFILE * BSIZE && f0 == Snap()
      requires Writing(sb, f0, Snap(), n, off0, off0, src, nb0) && nb0 == NBlocks(f0.ino[n].size)
      modifies this`blk, this`ino, this`owner, this`logged
      ensures !ok ==> Full()
      ensures ok ==> Writing(sb, f0, Snap(), n, off0, off0 + |src|, src, nb) && nb >= nb0
      ensures ok <==> Left(sb, old(owner)) >= NewBlocks(f0.ino[n].size, off0 + |src|)
      ensures ok ==> |owner| == |old(owner)| + NewBlocks(f0.ino[n].size, off0 + |src|)
      ensures ok ==> LoopLogs(sb, f0, Snap(), n, old(logged), logged, data, maps, Started(off0, off0 + |src|), nb - nb0)
      ensures ok ==> Journaled(old(blk), blk, logged)
    {
      hide Writing, Mapped, Sound, LoopLogs, MapLogs, Journaled, Started, MapNeed, Need, NewBlocks, NBlocks,
        Overwrite, MapFull;
      ok, nb, data, maps := true, nb0, {}, {};
      var tot, off := 0, off0;
      NothingLogged(sb, f0, n, logged, off0);
      NothingNeeded(nb0);
      JournaledSelf(blk, logged);
      while tot < |src|
        invariant tot <= |src| && off == off0 + tot && ok && nb >= nb0
        invariant off == off0 || off % BSIZE == 0 || tot == |src|
        invariant Writing(sb, f0, Snap(), n, off0, off, src, nb)
        invariant LoopLogs(sb, f0, Snap(), n, old(logged), logged, data, maps, Started(off0, off), nb - nb0)
        invariant Journaled(old(blk), blk, logged)
        invariant |owner| == |old(owner)| + Need(nb0, nb)
      {
        ghost var f, log := Snap(), logged;
        WritingSound(sb, f0, f, n, off0, off, src, nb);
        BlockOfByte(off, MAXFILE);
        PayTurn(sb, f0, f, n, off0, off, src, nb, |old(owner)|);
        var m := if |src| - tot < BSIZE - off % BSIZE then |src| - tot else BSIZE - off % BSIZE;
        ghost var g, addr, more;
        ok, g, addr, more := WriteChunk(n, off, src[tot..tot + m]);
        if !ok { return; }
        WriteTurn(sb, f0, f, g, Snap(), n, off0, off, src, nb0, nb, addr, m, old(logged), log, logged, data, maps, more);
        data, maps := data + {addr}, maps + more;
        nb := if off / BSIZE < nb then nb else nb + 1;
        tot, off := tot + m, off + m;
      }
      WritingSound(sb, f0, Snap(), n, off0, off, src, nb);
      LeftMeans(sb, Snap());
      AllPaid(sb, f0, Snap(), n, off0, src, nb);
    }

    /** IBLOCK: the block that holds inode n. */
    function InodeBlock(n: nat): nat {
      n / IPB + sb.inodestart
    }

    /** writei: the file becomes its old contents with [off, off + |src|) replaced
        by src, grown if needed; no other file changes; and although iupdate runs
        only when the size grows, the inode on disk is the one in memory.  Whatever it
        changes it logs, and it logs no more than WriteBudget says. */
    method WriteI(n: nat, src: seq<Byte>, off0: nat) returns (ok: bool, r: int)
      requires Valid() && n in ino && off0 < WORD_MOD && |src| < WORD_MOD
      modifies this`blk, this`ino, this`dino, this`owner, this`logged
      ensures !ok ==> Full()
      ensures ok ==> Valid()
      ensures off0 > old(ino)[n].size || off0 + |src| > MAXFILE * BSIZE <==> ok && r == -1
      ensures !ok <==> && off0 <= old(ino)[n].size && off0 + |src| <= MAXFILE * BSIZE
                       && FreeBits(sb, old(blk)) < NewBlocks(old(ino)[n].size, off0 + |src|)
      ensures ok && r != -1 ==>
                FreeBits(sb, blk) == FreeBits(sb, old(blk)) - NewBlocks(old(ino)[n].size, off0 + |src|)
      ensures r == -1 ==> Snap() == old(Snap()) && logged == old(logged)
      ensures ok && r != -1 ==> r == |src| && FileWritten(old(Snap()), Snap(), n, off0, src)
      ensures ok ==> old(logged) <= logged && Journaled(old(blk), blk, logged)
      ensures ok ==> dino == old(dino) || InodeBlock(n) in logged
      ensures ok ==> |logged - old(logged)| <= WriteBudget(|src|)
      ensures ok && sb.size <= BPB ==> |logged - old(logged)| <= NBlocks(|src|) + 4
    {
      hide Writing, Sound, GoodFile, FileWritten, LoopLogs, Journaled, Started, NewBlocks, FreeBits;
      ok, r := true, -1;
      JournaledSelf(blk, logged);
      NoneLogged(logged);
      if off0 > ino[n].size || (off0 + |src|) % WORD_MOD < off0 {
        return;
      }
      if off0 + |src| > MAXFILE * BSIZE {
        return;
      }
      ghost var f0, log0 := Snap(), logged;
      StartWriting(sb, f0, n, off0, src);
      LeftAreClear(sb, f0);
      ghost var nb, data, maps;
      r := 0;
      ok, nb, data, maps := WriteLoop(n, src, off0, f0, NBlocks(ino[n].size));
      if !ok { return; }
      var off := off0 + |src|;
      ghost var f := Snap();
      WritingSound(sb, f0, f, n, off0, off, src, nb);
      WriteEnded(sb, f0, f, Ended(f, n, off, |src|), n, off0, src, nb);
      WriteLogs(sb, f0, f, n, off0, src, nb, log0, logged, data, maps, InodeBlock(n));
      if |src| > 0 && off > ino[n].size {
        ino := ino[n := ino[n].(size := off)];
        dino := dino[n := ino[n]];
        JournaledMore(f0.blk, blk, logged, InodeBlock(n));
        logged := logged + {InodeBlock(n)};
      }
      LeftAreClear(sb, Snap());
      r := |src|;
    }

    /** filewrite on a file: the range goes in by transactions of at most CHUNK bytes, each
        of which logs at most MAXOPBLOCKS distinct blocks, and at most 7 if the free map
        is one block.  Together they are one write, as far as they get; `short
        filewrite' cannot happen. */
    method FileWrite(n: nat, src: seq<Byte>, off0: nat) returns (ok: bool, r: int, off: nat, ghost txs: seq<set<nat>>)
      requires Valid() && n in ino && off0 < WORD_MOD && |src| < WORD_MOD
      modifies this`blk, this`ino, this`dino, this`owner, this`logged
      ensures !ok ==> Full()
      ensures ok ==> Valid() && n in ino && off0 <= off <= off0 + |src|
      ensures ok ==> WrittenSoFar(old(Snap()), Snap(), n, off0, src, off - off0)
      ensures ok ==> off == off0 + if off0 <= old(ino)[n].size then Fitting(off0, |src|) else 0
      ensures !ok <==> off0 <= old(ino)[n].size
                       && FreeBits(sb, old(blk)) < NewBlocks(old(ino)[n].size, off0 + Fitting(off0, |src|))
      ensures ok ==> r == if off == off0 + |src| then |src| else -1
      ensures ok ==> (r == |src| <==> src == [] || (off0 <= old(ino)[n].size && off0 + |src| <= MAXFILE * BSIZE))
      ensures forall t | t in txs :: |t| <= LogProtocol.MAXOPBLOCKS && (sb.size <= BPB ==> |t| <= 7)
    {
      hide FileWritten, Contents, Journaled, Sound, GoodFile, WrittenSoFar, WriteBudget, NBlocks,
        NewBlocks, FreeBits, Fitting, Whole;
      ok, off, txs := true, off0, [];
      var i := 0;
      ghost var f0 := Snap();
      NoneWritten(f0, n, off0, src);
      NothingNew(f0.ino[n].size, off0);
      FitsFirst(off0, |src|);
      while i < |src|
        invariant ok && Valid() && n in ino && i <= |src| && off == off0 + i && off < WORD_MOD
        invariant WrittenSoFar(f0, Snap(), n, off0, src, i)
        invariant i > 0 ==> off0 <= f0.ino[n].size && off <= MAXFILE * BSIZE
        invariant i <= Fitting(off0, |src|) <= |src| && Whole(i, |src|)
        invariant off0 <= f0.ino[n].size ==>
                    FreeBits(sb, blk) == FreeBits(sb, f0.blk) - NewBlocks(f0.ino[n].size, off0 + i)
        invariant forall t | t in txs :: |t| <= LogProtocol.MAXOPBLOCKS && (sb.size <= BPB ==> |t| <= 7)
      {
        var n1 := if |src| - i > CHUNK then CHUNK else |src| - i;
        OffsetInside(f0, Snap(), n, off0, src, i);
        FitsNow(off0, |src|, i, n1);
        NewBlocksSum(f0.ino[n].size, off0 + i, off0 + i + n1);
        NewBlocksSum(f0.ino[n].size, off0 + i + n1, off0 + Fitting(off0, |src|));
        ChunkBudget(n1);
        logged := {};
        ghost var f := Snap();
        var w;
        ok, w := WriteI(n, src[i..i + n1], off);
        if !ok { return ok, -1, off, txs; }
        assert logged - {} == logged;
        txs := txs + [logged];
        if w < 0 {
          break;
        }
        MoreWritten(f0, f, Snap(), n, off0, src, i, n1);
        off := off + w;
        i := i + w;
      }
      r := if i == |src| then |src| else -1;
    }

    /** bfree: clears the bit; it panics exactly when the bit is clear already. */
    method BFree(b: nat) returns (ok: bool)
      requires Layout(sb, blk) && b < sb.size
      modifies this`blk, this`logged
      ensures MapBlock(sb, b) < |old(blk)|
      ensures ok <==> Bit(sb, old(blk), b)
      ensures blk == if ok then Mark(sb, old(blk), b, false) else old(blk)
      ensures logged == if ok then old(logged) + {MapBlock(sb, b)} else old(logged)
      ensures Journaled(old(blk), blk, logged)
    {
      MapBlockBelow(sb, blk, b);
      ok := TestBit(blk[MapBlock(sb, b)][b % BPB / 8], b % 8);
      if ok {
        blk := Mark(sb, blk, b, false);
        logged := logged + {MapBlock(sb, b)};
      }
    }

    /** bfree of what slot s of the inode held, if anything. */
    method FreeSlot(b: nat, ghost f: Files, ghost n: nat, ghost s: nat, ghost i: nat, ghost j: nat,
                    ghost i': nat, ghost j': nat, ghost gone: set<nat>) returns (ok: bool, ghost gone': set<nat>)
      requires Sound(sb, f) && n in f.ino && s < SLOTS && b == FRef(f, n, s) && !Passed(s, i, j)
      requires GoneSoFar(f, n, i, j, gone) && BitsCleared(sb, f.blk, blk, gone)
      requires forall t: nat :: Passed(t, i', j') <==> Passed(t, i, j) || t == s
      modifies this`blk, this`logged
      ensures ok && GoneSoFar(f, n, i', j', gone') && BitsCleared(sb, f.blk, blk, gone')
      ensures Extends(old(blk), blk, old(logged), logged)
    {
      GoneNext(sb, f, n, i, j, i', j', gone, s);
      ok, gone' := true, gone;
      if b != 0 {
        assert BitMatches(sb, f.blk, f.owner, b) && BitKept(sb, f.blk, blk, gone, b);
        ClearOne(sb, f.blk, blk, gone, b);
        ok := BFree(b);
        gone' := gone + {b};
      }
    }

    /** itrunc's first loop. */
    method FreeDirect(n: nat, ghost f: Files) returns (ok: bool, ghost gone: set<nat>)
      requires Sound(sb, f) && n in f.ino && f == Snap()
      modifies this`blk, this`ino, this`logged
      ensures ok && GoneSoFar(f, n, NDIRECT, 0, gone) && BitsCleared(sb, f.blk, blk, gone)
      ensures Extends(old(blk), blk, old(logged), logged)
      ensures n in ino && ino == f.ino[n := ino[n]] && ino[n].size == f.ino[n].size && |ino[n].addrs| == NDIRECT + 1
      ensures (forall t | 0 <= t < NDIRECT :: ino[n].addrs[t] == 0) && ino[n].addrs[NDIRECT] == f.ino[n].addrs[NDIRECT]
    {
      hide Extends;
      ok, gone := true, {};
      ExtendsSelf(blk, logged);
      NothingCleared(sb, blk);
      for i := 0 to NDIRECT
        invariant ok && GoneSoFar(f, n, i, 0, gone) && BitsCleared(sb, f.blk, blk, gone)
        invariant Extends(old(blk), blk, old(logged), logged)
        invariant n in ino && ino == f.ino[n := ino[n]] && ino[n].size == f.ino[n].size && |ino[n].addrs| == NDIRECT + 1
        invariant forall t | 0 <= t <= NDIRECT :: ino[n].addrs[t] == if t < i then 0 else f.ino[n].addrs[t]
      {
        ghost var b1, l1 := blk, logged;
        ok, gone := FreeSlot(ino[n].addrs[i], f, n, i, i, 0, i + 1, 0, gone);
        ExtendsChain(old(blk), b1, blk, old(logged), l1, logged);
        if ino[n].addrs[i] != 0 {
          ino := ino[n := ino[n].(addrs := ino[n].addrs[i := 0])];
        }
      }
    }

    /** itrunc's second half: the indirect block's entries, then the block itself. */
    method FreeIndirect(n: nat, i: nat, ghost f: Files, ghost gone0: set<nat>) returns (ok: bool, ghost gone: set<nat>)
      requires Sound(sb, f) && n in f.ino && i == f.ino[n].addrs[NDIRECT] != 0
      requires GoneSoFar(f, n, NDIRECT, 0, gone0) && BitsCleared(sb, f.blk, blk, gone0)
      modifies this`blk, this`logged
      ensures ok && GoneSoFar(f, n, NDIRECT + 1, NINDIRECT, gone) && BitsCleared(sb, f.blk, blk, gone)
      ensures Extends(old(blk), blk, old(logged), logged)
    {
      hide Extends;
      ok, gone := true, gone0;
      ExtendsSelf(blk, logged);
      IndirectInRange(sb, f, n);
      assert OwnerOk(sb, f.blk, f.ino, f.owner[i], i) by { assert Ref(f.blk, f.ino, n, NDIRECT) == i; }
      var a := blk[i];
      for j := 0 to NINDIRECT
        invariant ok && GoneSoFar(f, n, NDIRECT, j, gone) && BitsCleared(sb, f.blk, blk, gone)
        invariant Extends(old(blk), blk, old(logged), logged)
      {
        assert GetWord(a, j) == FRef(f, n, NDIRECT + 1 + j);
        ghost var b1, l1 := blk, logged;
        ok, gone := FreeSlot(GetWord(a, j), f, n, NDIRECT + 1 + j, NDIRECT, j, NDIRECT, j + 1, gone);
        ExtendsChain(old(blk), b1, blk, old(logged), l1, logged);
      }
      ghost var b1, l1 := blk, logged;
      ok, gone := FreeSlot(i, f, n, NDIRECT, NDIRECT, NINDIRECT, NDIRECT + 1, NINDIRECT, gone);
      ExtendsChain(old(blk), b1, blk, old(logged), l1, logged);
    }

    /** itrunc: the file becomes empty and exactly its blocks become free.  It
        never hits bfree's panic. */
    method ITrunc(n: nat) returns (ok: bool)
      requires Valid() && n in ino
      modifies this
      ensures ok && Valid() && Snap() == Truncated(old(Snap()), n, blk)
      ensures forall m | m in old(ino) && m != n :: m in ino && Contents(Snap(), m) == Contents(old(Snap()), m)
      ensures Extends(old(blk), blk, old(logged), logged) && InodeBlock(n) in logged
      ensures exists gone :: BitsCleared(sb, old(blk), blk, gone)
                && forall b :: b in gone <==> b in old(owner) && old(owner)[b].0 == n
    {
      hide Sound, GoodFile, GoneSoFar, BitsCleared, Contents, Extends;
      ghost var f := Snap();
      ghost var gone;
      ok, gone := FreeDirect(n, f);
      ghost var b1, l1 := blk, logged;
      if ino[n].addrs[NDIRECT] != 0 {
        ok, gone := FreeIndirect(n, ino[n].addrs[NDIRECT], f, gone);
        ExtendsChain(f.blk, b1, blk, old(logged), l1, logged);
        ino := ino[n := ino[n].(addrs := ino[n].addrs[NDIRECT := 0])];
      }
      ino := ino[n := ino[n].(size := 0)];
      dino := dino[n := ino[n]];
      ExtendsMore(f.blk, blk, old(logged), logged, InodeBlock(n));
      logged := logged + {InodeBlock(n)};
      owner := Truncated(f, n, blk).owner;
      assert ino[n].addrs == NoAddrs();
      assert Snap() == Truncated(f, n, blk) && dino == ino;
      TruncDone(sb, f, n, blk, gone);
    }
  }

  lemma {:induction false} TruncDone(sb: Super, f: Files, n: nat, blk: seq<Block>, gone: set<nat>)
    requires Sound(sb, f) && n in f.ino && BitsCleared(sb, f.blk, blk, gone) && forall m | m in f.ino :: GoodFile(f, m)
    requires if f.ino[n].addrs[NDIRECT] == 0 then GoneSoFar(f, n, NDIRECT, 0, gone)
             else GoneSoFar(f, n, NDIRECT + 1, NINDIRECT, gone)
    ensures var g := Truncated(f, n, blk);
            && Sound(sb, g) && (forall m | m in g.ino :: GoodFile(g, m))
            && (forall b :: b in gone <==> b in f.owner && f.owner[b].0 == n)
            && forall m | m in f.ino && m != n :: m in g.ino && Contents(g, m) == Contents(f, m)
  {
    AllGone(sb, f, n, gone);
    TruncatedSound(sb, f, n, blk, gone);
    TruncatedFiles(sb, f, n, blk, gone);
  }

  /** At the end of itrunc, `gone` is everything the inode owned. */
  lemma {:induction false} AllGone(sb: Super, f: Files, n: nat, gone: set<nat>)
    requires Sound(sb, f) && n in f.ino
    requires if f.ino[n].addrs[NDIRECT] == 0 then GoneSoFar(f, n, NDIRECT, 0, gone)
             else GoneSoFar(f, n, NDIRECT + 1, NINDIRECT, gone)
    ensures forall b :: b in gone <==> b in f.owner && f.owner[b].0 == n
  {
    forall b | b in f.owner && f.owner[b].0 == n ensures b in gone {
      assert OwnerOk(sb, f.blk, f.ino, f.owner[b], b);
      assert FRef(f, n, f.owner[b].1) == b;
    }
  }

  /** Effect of a successful write on the files. */
  ghost predicate FileWritten(f0: Files, g: Files, n: nat, off: nat, src: seq<Byte>) {
    && n in f0.ino && g.ino.Keys == f0.ino.Keys
    && off <= f0.ino[n].size && Contents(g, n) == Splice(Contents(f0, n), off, src)
    && forall m | m in f0.ino && m != n :: g.ino[m] == f0.ino[m] && Contents(g, m) == Contents(f0, m)
  }

  /** The first i bytes of src are written at off0; nothing is if off0 is past the end. */
  ghost predicate WrittenSoFar(f0: Files, f: Files, n: nat, off0: nat, src: seq<Byte>, i: nat)
    requires i <= |src|
  {
    n in f0.ino && if off0 <= f0.ino[n].size then FileWritten(f0, f, n, off0, src[..i]) else f == f0 && i == 0
  }

  lemma {:induction false} NoneWritten(f: Files, n: nat, off0: nat, src: seq<Byte>)
    requires n in f.ino && GoodFile(f, n)
    ensures WrittenSoFar(f, f, n, off0, src, 0)
  {
    if off0 <= f.ino[n].size {
      var s := Contents(f, n);
      assert src[..0] == [];
      assert s[..off0] + s[off0..] == s;
    }
  }

  lemma {:induction false} OffsetInside(f0: Files, f: Files, n: nat, off0: nat, src: seq<Byte>, i: nat)
    requires i <= |src| && WrittenSoFar(f0, f, n, off0, src, i) && n in f.ino && GoodFile(f, n) && GoodFile(f0, n)
    ensures off0 <= f0.ino[n].size <==> off0 + i <= f.ino[n].size
    ensures off0 <= f0.ino[n].size ==> f.ino[n].size == if off0 + i > f0.ino[n].size then off0 + i else f0.ino[n].size
  {
    assert |Contents(f, n)| == f.ino[n].size;
  }

  lemma {:induction false} SpliceChain(s: seq<Byte>, off: nat, a: seq<Byte>, b: seq<Byte>)
    requires off <= |s|
    ensures off + |a| <= |Splice(s, off, a)| && Splice(Splice(s, off, a), off + |a|, b) == Splice(s, off, a + b)
  {
  }

  lemma {:induction false} MoreWritten(f0: Files, f: Files, g: Files, n: nat, off0: nat, src: seq<Byte>, i: nat, m: nat)
    requires i + m <= |src| && WrittenSoFar(f0, f, n, off0, src, i) && off0 <= f0.ino[n].size
    requires FileWritten(f, g, n, off0 + i, src[i..i + m])
    ensures n in g.ino && WrittenSoFar(f0, g, n, off0, src, i + m)
  {
    SpliceChain(Contents(f0, n), off0, src[..i], src[i..i + m]);
    assert src[..i + m] == src[..i] + src[i..i + m];
  }

  lemma {:induction false} WritingSound(sb: Super, f0: Files, f: Files, n: nat, off0: nat, off: nat, src: seq<Byte>, nb: nat)
    requires Writing(sb, f0, f, n, off0, off, src, nb)
    ensures Sound(sb, f) && n in f0.ino && n in f.ino && f.ino[n].size == f0.ino[n].size
  {
  }

  lemma {:induction false} RefInRange(sb: Super, f: Files, n: nat, s: nat)
    requires Sound(sb, f) && n in f.ino && s < SLOTS && FRef(f, n, s) != 0
    ensures FRef(f, n, s) < |f.blk|
  {
  }

  lemma {:induction false} StartWriting(sb: Super, f0: Files, n: nat, off0: nat, src: seq<Byte>)
    requires Sound(sb, f0) && (forall m | m in f0.ino :: GoodFile(f0, m)) && n in f0.ino && off0 <= f0.ino[n].size
    ensures Writing(sb, f0, f0, n, off0, off0, src, NBlocks(f0.ino[n].size))
  {
  }

  /** Everything writei promises about the state it leaves. */
  lemma {:induction false} WriteEnded(sb: Super, f0: Files, f: Files, g: Files, n: nat, off0: nat, src: seq<Byte>, nb: nat)
    requires Sound(sb, f0) && GoodFile(f0, n) && off0 <= f0.ino[n].size
    requires Writing(sb, f0, f, n, off0, off0 + |src|, src, nb) && n in f.ino && g == Ended(f, n, off0 + |src|, |src|)
    ensures Sound(sb, g) && (forall m | m in g.ino :: GoodFile(g, m))
    ensures FileWritten(f0, g, n, off0, src)
    ensures g.ino == if off0 + |src| <= f0.ino[n].size then f0.ino else f0.ino[n := g.ino[n]]
  {
    hide Growing, Written, OthersSame, Dense, Contents, Owned, Layout;
    WrittenParts(sb, f0, f, n, off0, src, nb);
    EndedShape(sb, f0, f, n, off0 + |src|, |src|, nb);
    EndedContents(sb, f0, f, n, off0, src, nb);
    EndedOthers(sb, f0, f, n, off0 + |src|, |src|);
    OthersGood(f0, g, n);
  }

  lemma {:induction false} WrittenParts(sb: Super, f0: Files, f: Files, n: nat, off0: nat, src: seq<Byte>, nb: nat)
    requires Writing(sb, f0, f, n, off0, off0 + |src|, src, nb)
    ensures nb <= MAXFILE && Sound(sb, f) && n in f.ino && f.ino.Keys == f0.ino.Keys
  {
  }

  lemma {:induction false} OthersGood(f0: Files, g: Files, n: nat)
    requires Shaped(f0.ino) && Shaped(g.ino) && g.ino.Keys == f0.ino.Keys && OthersSame(f0, g, n)
    ensures forall m | m in g.ino && m != n :: GoodFile(g, m) && GoodFile(f0, m) && g.ino[m] == f0.ino[m]
    ensures forall m | m in g.ino && m != n :: Contents(g, m) == Contents(f0, m)
  {
  }

  lemma {:induction false} MappedHit(sb: Super, f: Files, g: Files, n: nat, bn: nat, addr: nat)
    requires Mapped(sb, f, g, n, bn, addr) && FRef(f, n, SlotOf(bn)) != 0
    ensures g == f && addr == FRef(f, n, SlotOf(bn))
  {
  }

  /** A block below the file's size exists. */
  lemma {:induction false} ReadHit(sb: Super, f: Files, n: nat, off: nat)
    requires Sound(sb, f) && n in f.ino && GoodFile(f, n) && off < f.ino[n].size
    ensures off / BSIZE < MAXFILE && SlotOf(off / BSIZE) < SLOTS
    ensures 0 < FRef(f, n, SlotOf(off / BSIZE)) < |f.blk|
  {
  }

  lemma {:induction false} ReadBytes(sb: Super, f: Files, n: nat, off: nat, m: nat)
    requires Sound(sb, f) && n in f.ino && GoodFile(f, n) && off + m <= f.ino[n].size && 0 < m && off % BSIZE + m <= BSIZE
    ensures off / BSIZE < MAXFILE && SlotOf(off / BSIZE) < SLOTS && FRef(f, n, SlotOf(off / BSIZE)) < |f.blk|
    ensures f.blk[FRef(f, n, SlotOf(off / BSIZE))][off % BSIZE..off % BSIZE + m] == Contents(f, n)[off..off + m]
  {
    ReadHit(sb, f, n, off);
    var u := f.blk[FRef(f, n, SlotOf(off / BSIZE))][off % BSIZE..off % BSIZE + m];
    var v := Contents(f, n)[off..off + m];
    forall i: nat | i < m ensures u[i] == v[i] {
      InChunk(off, m, off + i);
      assert v[i] == ByteAt(f, n, off + i);
    }
  }

  lemma {:induction false} IndirectInRange(sb: Super, f: Files, n: nat)
    requires Sound(sb, f) && n in f.ino && f.ino[n].addrs[NDIRECT] != 0
    ensures 0 < f.ino[n].addrs[NDIRECT] < |f.blk|
  {
    var i := f.ino[n].addrs[NDIRECT];
    assert Ref(f.blk, f.ino, n, NDIRECT) == i;
    assert OwnerOk(sb, f.blk, f.ino, f.owner[i], i);
  }

  /** Combines the allocation of b with the store of its number. */
  lemma {:induction false} EntryStored(sb: Super, blk0: seq<Block>, blk: seq<Block>, ino: map<nat, Inode>,
                                       owner: map<nat, (nat, nat)>, n: nat, j: nat, b: nat)
    requires Layout(sb, blk0) && Layout(sb, blk) && Shaped(ino) && Owned(sb, blk0, ino, owner) && n in ino && j < NINDIRECT
    requires sb.datastart <= b < sb.size && b !in owner
    requires forall m, t: nat | m in ino && t < SLOTS :: Ref(blk, ino, m, t) == Ref(blk0, ino, m, t)
    requires BitsMatch(sb, blk, owner[b := (n, NDIRECT + 1 + j)])
    requires sb.datastart <= ino[n].addrs[NDIRECT] < |blk| && ino[n].addrs[NDIRECT] in owner
    ensures var blk' := EntryPut(blk, ino[n].addrs[NDIRECT], j, b);
            && (forall m, t: nat | m in ino && t < SLOTS ::
                  Ref(blk', ino, m, t) == if m == n && t == NDIRECT + 1 + j then b else Ref(blk0, ino, m, t))
            && BitsMatch(sb, blk', owner[b := (n, NDIRECT + 1 + j)])
  {
    hide PutWord, GetWord, Bit;
    var i := ino[n].addrs[NDIRECT];
    var blk' := EntryPut(blk, i, j, b);
    StoreKeepsBits(sb, blk, owner[b := (n, NDIRECT + 1 + j)], i, PutWord(blk[i], j, b));
    OwnIndirect(sb, blk0, ino, owner, n);
    hide Owned, BitsMatch;
    forall m, t: nat | m in ino && t < SLOTS
      ensures Ref(blk', ino, m, t) == if m == n && t == NDIRECT + 1 + j then b else Ref(blk0, ino, m, t)
    {
      assert Ref(blk, ino, m, t) == Ref(blk0, ino, m, t);
      if m == n && t > NDIRECT {
        GetPutWord(blk[i], j, b, t - NDIRECT - 1);
      }
    }
  }

  /** No two inodes share an indirect block. */
  lemma {:induction false} OwnIndirect(sb: Super, blk: seq<Block>, ino: map<nat, Inode>, owner: map<nat, (nat, nat)>, n: nat)
    requires Layout(sb, blk) && Shaped(ino) && Owned(sb, blk, ino, owner) && n in ino && ino[n].addrs[NDIRECT] != 0
    ensures forall m | m in ino && m != n :: ino[m].addrs[NDIRECT] != ino[n].addrs[NDIRECT]
  {
    assert Ref(blk, ino, n, NDIRECT) == ino[n].addrs[NDIRECT];
    forall m | m in ino && m != n ensures ino[m].addrs[NDIRECT] != ino[n].addrs[NDIRECT] {
      assert Ref(blk, ino, m, NDIRECT) == ino[m].addrs[NDIRECT];
    }
  }

  /** Changing a data block leaves the bitmap alone. */
  lemma {:induction false} StoreKeepsBits(sb: Super, blk: seq<Block>, owner: map<nat, (nat, nat)>, i: nat, data: Block)
    requires Layout(sb, blk) && BitsMatch(sb, blk, owner) && sb.datastart <= i < |blk|
    ensures BitsMatch(sb, blk[i := data], owner)
  {
    var blk' := blk[i := data];
    forall c: nat | c < sb.size ensures BitMatches(sb, blk', owner, c) {
      assert BitMatches(sb, blk, owner, c);
      MapBlockBelow(sb, blk, c);
    }
  }

  lemma SameMapBlock(b: nat, bi: nat)
    requires b % BPB == 0 && bi < BPB
    ensures (b + bi) / BPB == b / BPB && (b + bi) % BPB == bi && (b + bi) % 8 == bi % 8
  {
  }
}
