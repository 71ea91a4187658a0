/** The buffer cache: NBUF buffers on one circular most-recently-used list, in
    front of a disk that is written one block at a time.  Links are buffer
    indices; index NBUF is the list head. */
module BufferCache {
  import opened Lists
  import opened Words
  import opened LogProtocol

  const NBUF: nat := 30
  const HEAD: nat := NBUF
  const ROOTDEV: nat := 1

  datatype Buf = Buf(dev: nat, blockno: nat, valid: bool, dirty: bool, refcnt: nat, locked: bool, data: Block)

  // ---- the circular list ----

  function After(ring: seq<nat>, i: nat): nat
    requires i < |ring|
  {
    if i + 1 == |ring| then ring[0] else ring[i + 1]
  }

  ghost predicate LinkedAt(next: seq<nat>, prev: seq<nat>, ring: seq<nat>, i: nat)
    requires i < |ring|
  {
    var b, c := ring[i], After(ring, i);
    b < |next| == |prev| && c < |next| && next[b] == c && prev[c] == b
  }

  /** The links visit exactly `ring`, in order, and close. */
  ghost predicate Chain(next: seq<nat>, prev: seq<nat>, ring: seq<nat>) {
    |ring| > 0 && Distinct(ring) && forall i: nat | i < |ring| :: LinkedAt(next, prev, ring, i)
  }

  /** Taking ring[i] out: its neighbours are linked to each other. */
  lemma {:induction false} Unlink(next: seq<nat>, prev: seq<nat>, ring: seq<nat>, i: nat)
    requires Chain(next, prev, ring) && 0 < i < |ring|
    ensures var b := ring[i];
            && b < |next| == |prev| && next[b] < |prev| && prev[b] < |next|
            && Chain(next[prev[b] := next[b]], prev[next[b] := prev[b]], ring[..i] + ring[i + 1..])
  {
    assert LinkedAt(next, prev, ring, i - 1) && LinkedAt(next, prev, ring, i);
    var b, r := ring[i], ring[..i] + ring[i + 1..];
    var n, p := next[prev[b] := next[b]], prev[next[b] := prev[b]];
    forall j: nat | j < |r| ensures LinkedAt(n, p, r, j) {
      var o := if j < i then j else j + 1;
      assert LinkedAt(next, prev, ring, o);
      assert r[j] == ring[o];
      assert j != i - 1 ==> After(r, j) == After(ring, o) && r[j] != ring[i - 1] && After(ring, o) != next[b];
    }
  }

  /** Putting b between ring[0] and its successor. */
  lemma {:induction false} LinkFront(next: seq<nat>, prev: seq<nat>, ring: seq<nat>, b: nat)
    requires Chain(next, prev, ring) && b !in ring && b < |next|
    ensures var h := ring[0];
            && h < |next| == |prev| && next[h] < |prev|
            && Chain(next[b := next[h]][h := b], prev[b := h][next[h] := b], [h, b] + ring[1..])
  {
    assert LinkedAt(next, prev, ring, 0);
    var h, r := ring[0], [ring[0], b] + ring[1..];
    var n, p := next[b := next[h]][h := b], prev[b := h][next[h] := b];
    forall j: nat | j < |r| ensures LinkedAt(n, p, r, j) {
      if j > 1 {
        assert LinkedAt(next, prev, ring, j - 1);
        assert r[j] == ring[j - 1] && After(r, j) == After(ring, j - 1);
        assert After(r, j) != next[h];
      }
    }
  }

  // ---- contents ----

  /** At most one buffer per disk block; the initial identity (0, 0) is shared. */
  ghost predicate UniqueIdentity(bufs: seq<Buf>) {
    forall i, j | 0 <= i < j < |bufs| && bufs[i].dev == bufs[j].dev && bufs[i].blockno == bufs[j].blockno ::
      bufs[i].dev == 0 && bufs[i].blockno == 0
  }

  ghost predicate BufOk(b: Buf, view: Disk) {
    && (b.valid ==> b.dev == ROOTDEV && b.blockno < |view|)
    && (b.dirty ==> b.valid)
    && (b.locked ==> b.refcnt > 0)
    && (b.valid && !b.locked ==> b.data == view[b.blockno])
  }

  ghost function Pinned(bufs: seq<Buf>): set<nat> {
    set i | 0 <= i < |bufs| && bufs[i].dirty :: bufs[i].blockno
  }

  /** view is what a reader gets: the disk, except where a pinned buffer is ahead of it. */
  ghost predicate Coherent(bufs: seq<Buf>, disk: Disk, view: Disk) {
    && UniqueIdentity(bufs)
    && |disk| == |view|
    && (forall i | 0 <= i < |bufs| :: BufOk(bufs[i], view))
    && (forall k: nat | k < |disk| && disk[k] != view[k] :: k in Pinned(bufs))
  }

  predicate Is(b: Buf, dev: nat, blockno: nat) {
    b.dev == dev && b.blockno == blockno
  }

  predicate Recyclable(b: Buf) {
    b.refcnt == 0 && !b.dirty
  }

  /** Changing a buffer in place, without changing which block it pins. */
  lemma {:induction false} TouchCoherent(bufs: seq<Buf>, disk: Disk, view: Disk, b: nat, nb: Buf)
    requires Coherent(bufs, disk, view) && b < |bufs| && BufOk(nb, view)
    requires Is(nb, bufs[b].dev, bufs[b].blockno) && nb.dirty == bufs[b].dirty
    ensures Coherent(bufs[b := nb], disk, view) && Pinned(bufs[b := nb]) == Pinned(bufs)
  {
    var c := bufs[b := nb];
    assert forall i | 0 <= i < |c| :: c[i].dirty == bufs[i].dirty && c[i].blockno == bufs[i].blockno;
  }

  /** Giving a clean, unreferenced buffer to an uncached block loses nothing. */
  lemma {:induction false} RecycleCoherent(bufs: seq<Buf>, disk: Disk, view: Disk, b: nat, nb: Buf)
    requires Coherent(bufs, disk, view) && b < |bufs| && Recyclable(bufs[b])
    requires !nb.valid && !nb.dirty && BufOk(nb, view)
    requires forall i | 0 <= i < |bufs| :: !Is(bufs[i], nb.dev, nb.blockno)
    ensures Coherent(bufs[b := nb], disk, view) && Pinned(bufs[b := nb]) == Pinned(bufs)
  {
    var c := bufs[b := nb];
    assert forall i | 0 <= i < |c| && c[i].dirty :: c[i] == bufs[i];
    assert forall i | 0 <= i < |c| && bufs[i].dirty :: c[i] == bufs[i];
  }

  /** Writing a buffer through to the disk unpins its block and no other. */
  lemma {:induction false} WriteCoherent(bufs: seq<Buf>, disk: Disk, view: Disk, b: nat)
    requires Coherent(bufs, disk, view) && b < |bufs| && bufs[b].valid
    ensures var k := bufs[b].blockno; var c := bufs[b := bufs[b].(dirty := false)];
            && k < |disk|
            && Coherent(c, disk[k := bufs[b].data], view[k := bufs[b].data])
            && Pinned(c) == Pinned(bufs) - {k}
  {
    var k, c := bufs[b].blockno, bufs[b := bufs[b].(dirty := false)];
    assert BufOk(bufs[b], view);
    OthersElsewhere(bufs, view, b);
    assert forall i | 0 <= i < |c| && c[i].dirty :: c[i] == bufs[i] && c[i].blockno != k;
    assert forall i | 0 <= i < |c| && bufs[i].dirty && bufs[i].blockno != k :: c[i] == bufs[i];
    forall i | 0 <= i < |c| ensures BufOk(c[i], view[k := bufs[b].data]) {
      assert BufOk(bufs[i], view);
    }
  }

  /** log_write's B_DIRTY pins the block and makes the buffer what readers see. */
  lemma {:induction false} PinCoherent(bufs: seq<Buf>, disk: Disk, view: Disk, b: nat)
    requires Coherent(bufs, disk, view) && b < |bufs| && bufs[b].valid
    ensures var k := bufs[b].blockno; var c := bufs[b := bufs[b].(dirty := true)];
            && k < |disk|
            && Coherent(c, disk, view[k := bufs[b].data])
            && Pinned(c) == Pinned(bufs) + {k}
  {
    var k, c := bufs[b].blockno, bufs[b := bufs[b].(dirty := true)];
    assert BufOk(bufs[b], view);
    OthersElsewhere(bufs, view, b);
    assert c[b].dirty && c[b].blockno == k;
    assert forall i | 0 <= i < |c| && i != b :: c[i] == bufs[i];
    forall i | 0 <= i < |c| ensures BufOk(c[i], view[k := bufs[b].data]) {
      assert BufOk(bufs[i], view);
    }
  }

  lemma {:induction false} OthersElsewhere(bufs: seq<Buf>, view: Disk, b: nat)
    requires UniqueIdentity(bufs) && b < |bufs| && bufs[b].valid
    requires forall i | 0 <= i < |bufs| :: BufOk(bufs[i], view)
    ensures forall i | 0 <= i < |bufs| && i != b && bufs[i].valid :: bufs[i].blockno != bufs[b].blockno
  {
  }

  /** The block is cached, or some buffer can be recycled for it. */
  ghost predicate Obtainable(bufs: seq<Buf>, blockno: nat) {
    exists i :: 0 <= i < |bufs| && (Is(bufs[i], ROOTDEV, blockno) || Recyclable(bufs[i]))
  }

  /** Some process holds the block's buffer. */
  ghost predicate LockedFor(bufs: seq<Buf>, blockno: nat) {
    exists i :: 0 <= i < |bufs| && Is(bufs[i], ROOTDEV, blockno) && bufs[i].locked
  }

  /** What bread comes to. */
  datatype Read = Got(b: nat) | Waits(b: nat) | Panicked

  class Cache {
    var bufs: seq<Buf>
    var next: seq<nat>
    var prev: seq<nat>
    var disk: Disk
    ghost var order: seq<nat>
    ghost var view: Disk
    ghost var writes: seq<Write>

    ghost predicate ListOk()
      reads this
    {
      && |next| == |prev| == NBUF + 1 && |order| == NBUF
      && (forall i | 0 <= i < NBUF :: order[i] < NBUF)
      && (forall i: nat | i < NBUF :: i in order)
      && Chain(next, prev, [HEAD] + order)
    }

    ghost predicate Valid()
      reads this
    {
      |bufs| == NBUF && ListOk() && Coherent(bufs, disk, view)
    }

    /** binit at power-on: buffers are empty and form one ring; readers see the disk. */
    constructor (d: Disk)
      ensures Valid() && disk == d && view == d && writes == []
      ensures forall i | 0 <= i < NBUF :: bufs[i] == Buf(0, 0, false, false, 0, false, ZeroBlock())
      ensures forall i | 0 <= i < NBUF :: order[i] == NBUF - 1 - i
    {
      bufs := seq(NBUF, _ => Buf(0, 0, false, false, 0, false, ZeroBlock()));
      disk, view, writes := d, d, [];
      var n: seq<nat>, p: seq<nat> := seq(NBUF + 1, _ => HEAD), seq(NBUF + 1, _ => HEAD);
      ghost var o: seq<nat> := [];
      var b := 0;
      assert LinkedAt(n, p, [HEAD] + o, 0);
      while b < NBUF
        invariant b <= NBUF && |n| == |p| == NBUF + 1 && |o| == b
        invariant Chain(n, p, [HEAD] + o)
        invariant forall i | 0 <= i < b :: o[i] == b - 1 - i
        invariant forall i: nat :: i < b <==> i in o
      {
        LinkFront(n, p, [HEAD] + o, b);
        assert [HEAD, b] + ([HEAD] + o)[1..] == [HEAD] + ([b] + o);
        var f := n[HEAD];
        n := n[b := f];
        p := p[b := HEAD];
        p := p[f := b];
        n := n[HEAD := b];
        o := [b] + o;
        b := b + 1;
      }
      next, prev, order := n, p, o;
    }

    /** bget: the buffer of a block, a recycled one if the block is not cached, or
        -1 where the kernel panics because no buffer is left. */
    method BGet(dev: nat, blockno: nat) returns (b: int)
      requires Valid()
      modifies this`bufs
      ensures Valid() && Pinned(bufs) == old(Pinned(bufs))
      ensures b < 0 ==> bufs == old(bufs)
      ensures b < 0 <==> forall i | 0 <= i < NBUF :: !Is(old(bufs)[i], dev, blockno) && !Recyclable(old(bufs)[i])
      ensures b >= 0 ==> b < NBUF && Is(bufs[b], dev, blockno) && bufs == old(bufs)[b := bufs[b]]
      ensures b >= 0 && Is(old(bufs)[b], dev, blockno) ==>
                bufs[b] == old(bufs)[b].(refcnt := old(bufs)[b].refcnt + 1)
      ensures b >= 0 && !Is(old(bufs)[b], dev, blockno) ==>
                && (forall i | 0 <= i < NBUF :: !Is(old(bufs)[i], dev, blockno))
                && Recyclable(old(bufs)[b]) && !bufs[b].valid && !bufs[b].dirty
                && bufs[b].refcnt == 1 && !bufs[b].locked
    {
      b := FindCached(dev, blockno);
      if b >= 0 {
        var nb := bufs[b].(refcnt := bufs[b].refcnt + 1);
        assert BufOk(bufs[b], view);
        TouchCoherent(bufs, disk, view, b, nb);
        bufs := bufs[b := nb];
        return;
      }
      b := FindVictim();
      if b >= 0 {
        var nb := Buf(dev, blockno, false, false, 1, false, bufs[b].data);
        RecycleCoherent(bufs, disk, view, b, nb);
        bufs := bufs[b := nb];
      }
    }

    /** bget's first scan, from the most recently used end. */
    method FindCached(dev: nat, blockno: nat) returns (b: int)
      requires Valid()
      ensures b >= 0 ==> b < NBUF && Is(bufs[b], dev, blockno)
      ensures b < 0 ==> forall i | 0 <= i < NBUF :: !Is(bufs[i], dev, blockno)
    {
      ghost var ring := [HEAD] + order;
      ghost var j := 0;
      assert LinkedAt(next, prev, ring, 0);
      var c := next[HEAD];
      while c != HEAD
        invariant j <= NBUF && c == After(ring, j) && c <= NBUF
        invariant forall t | 0 <= t < j :: !Is(bufs[order[t]], dev, blockno)
        decreases NBUF - j
      {
        if bufs[c].dev == dev && bufs[c].blockno == blockno {
          return c;
        }
        j := j + 1;
        assert LinkedAt(next, prev, ring, j);
        c := next[c];
      }
      b := -1;
      forall i | 0 <= i < NBUF ensures !Is(bufs[i], dev, blockno) {
        assert i in order;
      }
    }

    /** bget's second scan, from the least recently used end: the victim is the
        least recently used buffer that is neither referenced nor dirty. */
    method FindVictim() returns (b: int)
      requires Valid()
      ensures b >= 0 ==> b < NBUF && Recyclable(bufs[b])
      ensures b >= 0 ==> exists j :: 0 <= j < NBUF && order[j] == b
                           && forall t | j < t < NBUF :: !Recyclable(bufs[order[t]])
      ensures b < 0 ==> forall i | 0 <= i < NBUF :: !Recyclable(bufs[i])
    {
      ghost var ring := [HEAD] + order;
      ghost var j := NBUF;
      assert LinkedAt(next, prev, ring, NBUF);
      var c := prev[HEAD];
      while c != HEAD
        invariant 0 <= j <= NBUF && c == ring[j] && c <= NBUF
        invariant forall t | j <= t < NBUF :: !Recyclable(bufs[order[t]])
        decreases j
      {
        if bufs[c].refcnt == 0 && !bufs[c].dirty {
          assert order[j - 1] == c;
          return c;
        }
        j := j - 1;
        assert LinkedAt(next, prev, ring, j);
        c := prev[c];
      }
      b := -1;
      forall i | 0 <= i < NBUF ensures !Recyclable(bufs[i]) {
        assert i in order;
      }
    }

    /** bread: a locked buffer holding what readers see in that block.  While another
        process holds the buffer the caller keeps a reference and waits; Resume is the
        rest of the call. */
    method BRead(blockno: nat) returns (r: Read)
      requires Valid()
      modifies this`bufs
      ensures Valid() && Pinned(bufs) == old(Pinned(bufs))
      ensures r.Waits? <==> LockedFor(old(bufs), blockno)
      ensures r.Panicked? <==> !LockedFor(old(bufs), blockno) && (blockno >= |disk| || !Obtainable(old(bufs), blockno))
      ensures !r.Panicked? ==> r.b < NBUF && bufs == old(bufs)[r.b := bufs[r.b]] && Is(bufs[r.b], ROOTDEV, blockno)
      ensures r.Waits? ==> old(bufs)[r.b].locked
                           && bufs[r.b] == old(bufs)[r.b].(refcnt := old(bufs)[r.b].refcnt + 1)
      ensures r.Got? ==> bufs[r.b].locked && bufs[r.b].valid && bufs[r.b].data == view[blockno]
      ensures r.Got? && Is(old(bufs)[r.b], ROOTDEV, blockno) ==>
                bufs[r.b].refcnt == old(bufs)[r.b].refcnt + 1 && bufs[r.b].dirty == old(bufs)[r.b].dirty
      ensures r.Got? && !Is(old(bufs)[r.b], ROOTDEV, blockno) ==>
                && Recyclable(old(bufs)[r.b]) && bufs[r.b].refcnt == 1 && !bufs[r.b].dirty
                && forall i | 0 <= i < NBUF :: !Is(old(bufs)[i], ROOTDEV, blockno)
    {
      var c := BGet(ROOTDEV, blockno);
      if c < 0 {
        return Panicked;
      }
      if bufs[c].locked {
        return Waits(c);
      }
      var ok := Resume(c);
      r := if ok then Got(c) else Panicked;
    }

    /** The rest of bread once nobody holds the buffer: it is locked, and read if it has
        not been read yet; iderw panics on a block beyond the disk. */
    method Resume(b: nat) returns (ok: bool)
      requires Valid() && b < NBUF && !bufs[b].locked && bufs[b].refcnt > 0 && bufs[b].dev == ROOTDEV
      modifies this`bufs
      ensures Valid() && Pinned(bufs) == old(Pinned(bufs))
      ensures ok <==> old(bufs)[b].blockno < |disk|
      ensures bufs == if ok then old(bufs)[b := old(bufs)[b].(locked := true, valid := true,
                                                              data := view[old(bufs)[b].blockno])]
                      else old(bufs)
    {
      assert BufOk(bufs[b], view);
      ok := true;
      if bufs[b].valid {
        Hold(b, bufs[b].data);
      } else if bufs[b].blockno < |disk| {
        Hold(b, disk[bufs[b].blockno]);
      } else {
        ok := false;
      }
    }

    /** acquiresleep on a buffer, with its data valid afterwards. */
    method Hold(b: nat, data: Block)
      requires Valid() && b < NBUF && !bufs[b].locked && bufs[b].refcnt > 0
      requires bufs[b].dev == ROOTDEV && bufs[b].blockno < |disk|
      requires data == if bufs[b].valid then bufs[b].data else disk[bufs[b].blockno]
      modifies this`bufs
      ensures Valid() && Pinned(bufs) == old(Pinned(bufs))
      ensures bufs == old(bufs)[b := old(bufs)[b].(locked := true, valid := true, data := data)]
      ensures data == view[bufs[b].blockno]
    {
      assert BufOk(bufs[b], view);
      var nb := bufs[b].(locked := true, valid := true, data := data);
      if !bufs[b].valid {
        UnreadMeansUnpinned(bufs, disk, view, b);
      }
      TouchCoherent(bufs, disk, view, b, nb);
      bufs := bufs[b := nb];
    }

    /** The holder changes the buffer's contents. */
    method Store(b: nat, data: Block)
      requires Valid() && b < NBUF && bufs[b].locked
      modifies this`bufs
      ensures Valid() && Pinned(bufs) == old(Pinned(bufs))
      ensures bufs == old(bufs)[b := old(bufs)[b].(data := data)]
    {
      assert BufOk(bufs[b], view);
      var nb := bufs[b].(data := data);
      TouchCoherent(bufs, disk, view, b, nb);
      bufs := bufs[b := nb];
    }

    /** bwrite: one block write; the buffer is clean afterwards. */
    method BWrite(b: nat)
      requires Valid() && b < NBUF && bufs[b].locked && bufs[b].valid
      modifies this`bufs, this`disk, this`view, this`writes
      ensures Valid() && Pinned(bufs) == old(Pinned(bufs)) - {bufs[b].blockno}
      ensures bufs == old(bufs)[b := old(bufs)[b].(dirty := false)]
      ensures bufs[b].blockno < |old(disk)|
      ensures disk == old(disk)[bufs[b].blockno := bufs[b].data]
      ensures view == old(view)[bufs[b].blockno := bufs[b].data]
      ensures writes == old(writes) + [Write(bufs[b].blockno, bufs[b].data)]
    {
      WriteCoherent(bufs, disk, view, b);
      var k := bufs[b].blockno;
      disk := disk[k := bufs[b].data];
      view := view[k := bufs[b].data];
      writes := writes + [Write(k, bufs[b].data)];
      bufs := bufs[b := bufs[b].(dirty := false)];
    }

    /** The B_DIRTY of log_write: readers see the buffer, the disk is unchanged. */
    method Pin(b: nat)
      requires Valid() && b < NBUF && bufs[b].locked && bufs[b].valid
      modifies this`bufs, this`view
      ensures Valid() && Pinned(bufs) == old(Pinned(bufs)) + {bufs[b].blockno}
      ensures bufs == old(bufs)[b := old(bufs)[b].(dirty := true)]
      ensures bufs[b].blockno < |old(view)|
      ensures view == old(view)[bufs[b].blockno := bufs[b].data]
    {
      PinCoherent(bufs, disk, view, b);
      view := view[bufs[b].blockno := bufs[b].data];
      bufs := bufs[b := bufs[b].(dirty := true)];
    }

    /** brelse: the last reference moves the buffer to the front of the list. */
    method BRelse(b: nat)
      requires Valid() && b < NBUF && bufs[b].locked
      requires bufs[b].valid ==> bufs[b].data == view[bufs[b].blockno]
      modifies this`bufs, this`next, this`prev, this`order
      ensures Valid() && Pinned(bufs) == old(Pinned(bufs))
      ensures old(bufs)[b].refcnt > 0
      ensures bufs == old(bufs)[b := old(bufs)[b].(locked := false, refcnt := old(bufs)[b].refcnt - 1)]
      ensures bufs[b].refcnt > 0 ==> order == old(order)
      ensures bufs[b].refcnt == 0 ==>
                exists i :: 0 <= i < NBUF && old(order)[i] == b
                  && order == [b] + old(order)[..i] + old(order)[i + 1..]
    {
      assert BufOk(bufs[b], view);
      var nb := bufs[b].(locked := false, refcnt := bufs[b].refcnt - 1);
      TouchCoherent(bufs, disk, view, b, nb);
      bufs := bufs[b := nb];
      if bufs[b].refcnt == 0 {
        MoveToFront(b);
      }
    }

    method MoveToFront(b: nat)
      requires ListOk() && b < NBUF
      modifies this`next, this`prev, this`order
      ensures ListOk()
      ensures exists i :: 0 <= i < NBUF && old(order)[i] == b
                && order == [b] + old(order)[..i] + old(order)[i + 1..]
    {
      assert b in order;
      ghost var i :| 0 <= i < NBUF && order[i] == b;
      MoveToFrontChain(next, prev, order, i);
      prev := prev[next[b] := prev[b]];
      next := next[prev[b] := next[b]];
      var f := next[HEAD];
      next := next[b := f];
      prev := prev[b := HEAD];
      prev := prev[f := b];
      next := next[HEAD := b];
      order := [b] + order[..i] + order[i + 1..];
    }
  }

  lemma {:induction false} MoveToFrontChain(next: seq<nat>, prev: seq<nat>, order: seq<nat>, i: nat)
    requires Chain(next, prev, [HEAD] + order) && i < |order| && |next| == |prev| == NBUF + 1
    ensures var b := order[i];
            && b < |next| && next[b] < |next| && prev[b] < |next|
            && var p, n := prev[next[b] := prev[b]], next[prev[b] := next[b]];
            && n[HEAD] < |next|
            && var r := [b] + order[..i] + order[i + 1..];
            && Chain(n[b := n[HEAD]][HEAD := b], p[b := HEAD][n[HEAD] := b], [HEAD] + r)
            && forall k: nat | k in order :: k in r
  {
    var b, ring := order[i], [HEAD] + order;
    OutOfRest(order, i);
    hide Chain;
    assert ring[i + 1] == b;
    Unlink(next, prev, ring, i + 1);
    var rest := order[..i] + order[i + 1..];
    assert ring[..i + 1] + ring[i + 2..] == [HEAD] + rest;
    var p, n := prev[next[b] := prev[b]], next[prev[b] := next[b]];
    LinkFront(n, p, [HEAD] + rest, b);
    assert [HEAD, b] + ([HEAD] + rest)[1..] == [HEAD] + ([b] + order[..i] + order[i + 1..]);
  }

  lemma {:induction false} OutOfRest(order: seq<nat>, i: nat)
    requires i < |order| && Distinct([HEAD] + order)
    ensures order[i] !in [HEAD] + (order[..i] + order[i + 1..])
    ensures forall k: nat | k in order :: k in [order[i]] + order[..i] + order[i + 1..]
  {
    var rest := order[..i] + order[i + 1..];
    assert forall j | 0 <= j < |order| :: order[j] == ([HEAD] + order)[j + 1];
    assert ([HEAD] + order)[0] == HEAD != order[i];
    assert forall j | 0 <= j < |rest| :: rest[j] == order[if j < i then j else j + 1];
    assert order == order[..i] + [order[i]] + order[i + 1..];
  }

  /** A buffer that has not been read yet belongs to a block the disk is current for. */
  lemma {:induction false} UnreadMeansUnpinned(bufs: seq<Buf>, disk: Disk, view: Disk, b: nat)
    requires Coherent(bufs, disk, view) && b < |bufs| && !bufs[b].valid
    requires bufs[b].dev == ROOTDEV && bufs[b].blockno < |disk|
    ensures disk[bufs[b].blockno] == view[bufs[b].blockno]
  {
  }
}
