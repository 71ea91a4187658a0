/** The user-level allocator: a circular, address-ordered, fully coalesced free
    list threaded through the memory obtained from sbrk.  Addresses and sizes are
    in units of one 8-byte Header. */
module Umalloc {
  import opened Words

  const HEADER_BYTES: nat := 8
  const INT_LIMIT: nat := 0x8000_0000
  const KERN_UNITS: nat := 0x1000_0000   // KERNBASE, in headers
  const MAX_REQUEST: nat := 0x7FFF_FFF0
  const MIN_CORE: nat := 4096

  datatype Blk = Blk(addr: nat, units: nat)

  datatype Option<T> = None | Some(value: T)

  predicate In(b: Blk, u: nat) {
    b.addr <= u < b.addr + b.units
  }

  predicate Covers(bs: seq<Blk>, u: nat) {
    exists i :: 0 <= i < |bs| && In(bs[i], u)
  }

  // ---- the list in memory ----

  function After(bs: seq<Blk>, i: nat): Blk
    requires i < |bs|
  {
    if i + 1 == |bs| then bs[0] else bs[i + 1]
  }

  predicate LinkedAt(ptr: map<nat, nat>, size: map<nat, nat>, bs: seq<Blk>, i: nat)
    requires i < |bs|
  {
    var a := bs[i].addr;
    a in ptr && a in size && size[a] == bs[i].units && ptr[a] == After(bs, i).addr
  }

  /** Following ptr from the first block visits exactly bs and returns to it. */
  ghost predicate Linked(ptr: map<nat, nat>, size: map<nat, nat>, bs: seq<Blk>) {
    forall i: nat | i < |bs| :: LinkedAt(ptr, size, bs, i)
  }

  /** Block i ends strictly before block i + 1: ordered, and nothing left to merge. */
  predicate Gap(bs: seq<Blk>, i: nat)
    requires i + 1 < |bs|
  {
    bs[i].addr + bs[i].units < bs[i + 1].addr && bs[i + 1].units > 0
  }

  ghost predicate Canonical(bs: seq<Blk>) {
    |bs| > 0 && bs[0].units == 0 && forall i: nat | i + 1 < |bs| :: Gap(bs, i)
  }

  lemma {:induction false} Ordered(bs: seq<Blk>, i: nat, j: nat)
    requires Canonical(bs) && i < j < |bs|
    ensures bs[i].addr + bs[i].units < bs[j].addr
    decreases j
  {
    assert Gap(bs, j - 1);
    if i < j - 1 {
      Ordered(bs, i, j - 1);
    }
  }

  lemma {:induction false} AllOrdered(bs: seq<Blk>)
    requires Canonical(bs)
    ensures forall i, j | 0 <= i < j < |bs| :: bs[i].addr + bs[i].units < bs[j].addr
  {
    forall i, j | 0 <= i < j < |bs| ensures bs[i].addr + bs[i].units < bs[j].addr {
      Ordered(bs, i, j);
    }
  }

  /** The last block that starts below a. */
  function Pred(bs: seq<Blk>, a: nat, n: nat): (t: nat)
    requires 0 < n <= |bs| && bs[0].addr < a
    ensures t < n && bs[t].addr < a
    ensures forall i | t < i < n :: a <= bs[i].addr
  {
    if n == 1 || bs[n - 1].addr < a then n - 1 else Pred(bs, a, n - 1)
  }

  // ---- four ways to change the list ----

  function Inserted(bs: seq<Blk>, t: nat, b: Blk): seq<Blk>
    requires t < |bs|
  {
    bs[..t + 1] + [b] + bs[t + 1..]
  }

  function Merged(bs: seq<Blk>, i: nat): seq<Blk>
    requires i + 1 < |bs|
  {
    bs[..i] + [Blk(bs[i].addr, bs[i].units + bs[i + 1].units)] + bs[i + 2..]
  }

  function Removed(bs: seq<Blk>, i: nat): seq<Blk>
    requires i < |bs|
  {
    bs[..i] + bs[i + 1..]
  }

  function Shrunk(bs: seq<Blk>, i: nat, n: nat): seq<Blk>
    requires i < |bs| && n <= bs[i].units
  {
    bs[i := Blk(bs[i].addr, bs[i].units - n)]
  }

  ghost predicate DistinctAddrs(bs: seq<Blk>) {
    forall i, j | 0 <= i < j < |bs| :: bs[i].addr != bs[j].addr
  }

  lemma {:induction false} InsertLinked(ptr: map<nat, nat>, size: map<nat, nat>, bs: seq<Blk>, t: nat, b: Blk)
    requires Linked(ptr, size, bs) && DistinctAddrs(bs) && t < |bs|
    requires forall i | 0 <= i < |bs| :: bs[i].addr != b.addr
    requires b.addr in size && size[b.addr] == b.units
    ensures bs[t].addr in ptr
    ensures Linked(ptr[b.addr := ptr[bs[t].addr]][bs[t].addr := b.addr], size, Inserted(bs, t, b))
  {
    assert LinkedAt(ptr, size, bs, t);
    var cs := Inserted(bs, t, b);
    var p := ptr[b.addr := ptr[bs[t].addr]][bs[t].addr := b.addr];
    forall i: nat | i < |cs| ensures LinkedAt(p, size, cs, i) {
      var o := if i <= t then i else i - 1;
      assert LinkedAt(ptr, size, bs, o);
      assert i != t + 1 ==> cs[i] == bs[o];
      assert i != t ==> After(cs, i) == After(bs, o);
    }
  }

  lemma {:induction false} MergeLinked(ptr: map<nat, nat>, size: map<nat, nat>, bs: seq<Blk>, i: nat)
    requires Linked(ptr, size, bs) && DistinctAddrs(bs) && i + 1 < |bs|
    ensures var a, c := bs[i].addr, bs[i + 1].addr;
            && a in size && c in size && c in ptr
            && Linked(ptr[a := ptr[c]], size[a := size[a] + size[c]], Merged(bs, i))
  {
    assert LinkedAt(ptr, size, bs, i) && LinkedAt(ptr, size, bs, i + 1);
    var a, c, cs := bs[i].addr, bs[i + 1].addr, Merged(bs, i);
    var p, z := ptr[a := ptr[c]], size[a := size[a] + size[c]];
    forall j: nat | j < |cs| ensures LinkedAt(p, z, cs, j) {
      var o := if j <= i then j else j + 1;
      assert LinkedAt(ptr, size, bs, o);
      assert j != i ==> cs[j] == bs[o] && After(cs, j).addr == After(bs, o).addr;
    }
  }

  lemma {:induction false} RemoveLinked(ptr: map<nat, nat>, size: map<nat, nat>, bs: seq<Blk>, i: nat)
    requires Linked(ptr, size, bs) && DistinctAddrs(bs) && 0 < i < |bs|
    ensures bs[i].addr in ptr
    ensures Linked(ptr[bs[i - 1].addr := ptr[bs[i].addr]], size, Removed(bs, i))
  {
    assert LinkedAt(ptr, size, bs, i) && LinkedAt(ptr, size, bs, i - 1);
    var cs, p := Removed(bs, i), ptr[bs[i - 1].addr := ptr[bs[i].addr]];
    forall j: nat | j < |cs| ensures LinkedAt(p, size, cs, j) {
      var o := if j < i then j else j + 1;
      assert LinkedAt(ptr, size, bs, o);
      assert cs[j] == bs[o];
      assert j != i - 1 ==> After(cs, j) == After(bs, o);
    }
  }

  lemma {:induction false} ShrinkLinked(ptr: map<nat, nat>, size: map<nat, nat>, bs: seq<Blk>, i: nat, n: nat)
    requires Linked(ptr, size, bs) && DistinctAddrs(bs) && i < |bs| && n <= bs[i].units
    ensures bs[i].addr in size && size[bs[i].addr] == bs[i].units
    ensures Linked(ptr, size[bs[i].addr := bs[i].units - n], Shrunk(bs, i, n))
  {
    assert LinkedAt(ptr, size, bs, i);
    var cs, z := Shrunk(bs, i, n), size[bs[i].addr := bs[i].units - n];
    forall j: nat | j < |cs| ensures LinkedAt(ptr, z, cs, j) {
      assert LinkedAt(ptr, size, bs, j);
      assert After(cs, j).addr == After(bs, j).addr;
    }
  }

  /** The list only depends on its own cells. */
  lemma {:induction false} LinkedFrame(ptr: map<nat, nat>, size: map<nat, nat>, bs: seq<Blk>, a: nat, v: nat)
    requires Linked(ptr, size, bs) && forall i | 0 <= i < |bs| :: bs[i].addr != a
    ensures Linked(ptr, size[a := v], bs)
  {
    var z := size[a := v];
    forall i: nat | i < |bs| ensures LinkedAt(ptr, z, bs, i) {
      assert LinkedAt(ptr, size, bs, i);
    }
  }

  // ---- what free makes of the list ----

  /** The free list after b was put in after block t and merged with the
      neighbours it touches. */
  function Freed(bs: seq<Blk>, t: nat, b: Blk): seq<Blk>
    requires t < |bs|
  {
    var c := Inserted(bs, t, b);
    var d := if t + 1 < |bs| && b.addr + b.units == bs[t + 1].addr then Merged(c, t + 1) else c;
    if bs[t].addr + bs[t].units == b.addr then Merged(d, t) else d
  }

  predicate Fits(bs: seq<Blk>, t: nat, b: Blk)
    requires t < |bs|
  {
    && b.units > 0 && bs[t].addr + bs[t].units <= b.addr && bs[t].addr < b.addr
    && (t + 1 < |bs| ==> b.addr + b.units <= bs[t + 1].addr)
    && (t == 0 ==> bs[t].addr + bs[t].units < b.addr)
  }

  /** Ordered and disjoint; neighbours may touch where `touch` says. */
  ghost predicate Sorted(bs: seq<Blk>, touch: set<nat>) {
    && |bs| > 0 && bs[0].units == 0
    && forall i: nat | i + 1 < |bs| :: Gap(bs, i) || (i in touch && Touch(bs, i))
  }

  predicate Touch(bs: seq<Blk>, i: nat)
    requires i + 1 < |bs|
  {
    i > 0 && bs[i].addr + bs[i].units == bs[i + 1].addr && bs[i + 1].units > 0
  }

  lemma {:induction false} InsertSorted(bs: seq<Blk>, t: nat, b: Blk)
    requires Canonical(bs) && t < |bs| && Fits(bs, t, b)
    ensures Sorted(Inserted(bs, t, b), {t, t + 1})
  {
    var cs := Inserted(bs, t, b);
    forall i: nat | i + 1 < |cs| ensures Gap(cs, i) || (i in {t, t + 1} && Touch(cs, i)) {
      assert i < t ==> Gap(bs, i);
      assert i > t ==> Gap(bs, i - 1);
    }
  }

  lemma {:induction false} MergeSorted(bs: seq<Blk>, i: nat, touch: set<nat>)
    requires i + 1 < |bs| && Sorted(bs, touch) && Touch(bs, i) && forall j | j in touch :: j <= i
    ensures Sorted(Merged(bs, i), touch - {i})
  {
    var cs := Merged(bs, i);
    forall j: nat | j + 1 < |cs| ensures Gap(cs, j) || (j in touch - {i} && Touch(cs, j)) {
      assert Gap(bs, i) || Touch(bs, i);
      assert j < i ==> Gap(bs, j) || (j in touch && Touch(bs, j));
      assert j >= i ==> Gap(bs, j + 1);
    }
  }

  lemma {:induction false} FreedCanonical(bs: seq<Blk>, t: nat, b: Blk)
    requires Canonical(bs) && t < |bs| && Fits(bs, t, b)
    ensures Canonical(Freed(bs, t, b))
  {
    InsertSorted(bs, t, b);
    var c := Inserted(bs, t, b);
    if t + 1 < |bs| && b.addr + b.units == bs[t + 1].addr {
      assert Gap(bs, t) && c[t + 1] == b && c[t + 2] == bs[t + 1];
      MergeSorted(c, t + 1, {t, t + 1});
      MergeLeft(Merged(c, t + 1), t, {t, t + 1} - {t + 1});
    } else {
      assert forall i: nat | i + 1 < |c| && i == t + 1 :: Gap(c, i);
      assert Sorted(c, {t});
      MergeLeft(c, t, {t});
    }
  }

  lemma {:induction false} MergeLeft(d: seq<Blk>, t: nat, touch: set<nat>)
    requires t + 1 < |d| && Sorted(d, touch) && touch == {t}
    ensures Canonical(if d[t].addr + d[t].units == d[t + 1].addr then Merged(d, t) else d)
  {
    assert Gap(d, t) || Touch(d, t);
    if d[t].addr + d[t].units == d[t + 1].addr {
      MergeSorted(d, t, touch);
    }
  }

  lemma {:induction false} ConcatCovers(a: seq<Blk>, b: seq<Blk>, u: nat)
    ensures Covers(a + b, u) <==> Covers(a, u) || Covers(b, u)
  {
    if Covers(a, u) {
      var i :| 0 <= i < |a| && In(a[i], u);
      assert In((a + b)[i], u);
    } else if Covers(b, u) {
      var i :| 0 <= i < |b| && In(b[i], u);
      assert In((a + b)[|a| + i], u);
    }
  }

  lemma {:induction false} SingleCovers(b: Blk, u: nat)
    ensures Covers([b], u) <==> In(b, u)
  {
    assert [b][0] == b;
  }

  lemma {:induction false} InsertCovers(bs: seq<Blk>, t: nat, b: Blk, u: nat)
    requires t < |bs|
    ensures Covers(Inserted(bs, t, b), u) <==> Covers(bs, u) || In(b, u)
  {
    ConcatCovers(bs[..t + 1] + [b], bs[t + 1..], u);
    ConcatCovers(bs[..t + 1], [b], u);
    SingleCovers(b, u);
    ConcatCovers(bs[..t + 1], bs[t + 1..], u);
    assert bs == bs[..t + 1] + bs[t + 1..];
  }

  lemma {:induction false} MergeCovers(bs: seq<Blk>, i: nat, u: nat)
    requires i + 1 < |bs| && bs[i].addr + bs[i].units == bs[i + 1].addr
    ensures Covers(Merged(bs, i), u) <==> Covers(bs, u)
  {
    var m := Blk(bs[i].addr, bs[i].units + bs[i + 1].units);
    assert bs == bs[..i] + [bs[i]] + [bs[i + 1]] + bs[i + 2..];
    ConcatCovers(bs[..i] + [m], bs[i + 2..], u);
    ConcatCovers(bs[..i], [m], u);
    SingleCovers(m, u);
    ConcatCovers(bs[..i] + [bs[i]] + [bs[i + 1]], bs[i + 2..], u);
    ConcatCovers(bs[..i] + [bs[i]], [bs[i + 1]], u);
    ConcatCovers(bs[..i], [bs[i]], u);
    SingleCovers(bs[i], u);
    SingleCovers(bs[i + 1], u);
  }

  /** free adds exactly the units of the freed block to the free memory. */
  lemma {:induction false} FreedCovers(bs: seq<Blk>, t: nat, b: Blk, u: nat)
    requires t < |bs|
    ensures Covers(Freed(bs, t, b), u) <==> Covers(bs, u) || In(b, u)
  {
    var c := Inserted(bs, t, b);
    InsertCovers(bs, t, b, u);
    var d := c;
    if t + 1 < |bs| && b.addr + b.units == bs[t + 1].addr {
      MergeCovers(c, t + 1, u);
      d := Merged(c, t + 1);
    }
    if bs[t].addr + bs[t].units == b.addr {
      MergeCovers(d, t, u);
    }
  }

  /** free's stores, composed: insert, then merge right, then merge left. */
  function FreedSize(size: map<nat, nat>, bs: seq<Blk>, t: nat, b: Blk): map<nat, nat>
    requires t < |bs|
  {
    var s := if t + 1 < |bs| && b.addr + b.units == bs[t + 1].addr
             then size[b.addr := b.units + bs[t + 1].units] else size;
    if bs[t].addr + bs[t].units == b.addr && b.addr in s
    then s[bs[t].addr := bs[t].units + s[b.addr]] else s
  }

  function FreedPtr(ptr: map<nat, nat>, bs: seq<Blk>, t: nat, b: Blk): map<nat, nat>
    requires t < |bs|
  {
    var right := t + 1 < |bs| && b.addr + b.units == bs[t + 1].addr;
    var next := if right then After(bs, t + 1).addr else After(bs, t).addr;
    var p := ptr[b.addr := next];
    p[bs[t].addr := if bs[t].addr + bs[t].units == b.addr then next else b.addr]
  }

  lemma {:induction false} CanonicalDistinct(bs: seq<Blk>)
    requires Canonical(bs)
    ensures DistinctAddrs(bs)
  {
    AllOrdered(bs);
  }

  lemma {:induction false} InsertDistinct(bs: seq<Blk>, t: nat, b: Blk)
    requires DistinctAddrs(bs) && t < |bs| && forall i | 0 <= i < |bs| :: bs[i].addr != b.addr
    ensures DistinctAddrs(Inserted(bs, t, b))
  {
  }

  lemma {:induction false} MergeDistinct(bs: seq<Blk>, i: nat)
    requires DistinctAddrs(bs) && i + 1 < |bs|
    ensures DistinctAddrs(Merged(bs, i))
  {
  }

  lemma {:induction false} RightLinked(ptr: map<nat, nat>, size: map<nat, nat>, bs: seq<Blk>, t: nat, b: Blk)
    requires Linked(ptr, size, bs) && DistinctAddrs(bs) && t + 1 < |bs|
    requires b.addr in size && size[b.addr] == b.units
    requires forall i | 0 <= i < |bs| :: bs[i].addr != b.addr
    ensures var c := Merged(Inserted(bs, t, b), t + 1);
            && DistinctAddrs(c)
            && Linked(ptr[b.addr := After(bs, t + 1).addr][bs[t].addr := b.addr],
                      size[b.addr := b.units + bs[t + 1].units], c)
  {
    InsertLinked(ptr, size, bs, t, b);
    InsertDistinct(bs, t, b);
    var c := Inserted(bs, t, b);
    assert c[t + 1] == b && c[t + 2] == bs[t + 1];
    var p := ptr[b.addr := ptr[bs[t].addr]][bs[t].addr := b.addr];
    MergeLinked(p, size, c, t + 1);
    MergeDistinct(c, t + 1);
    assert LinkedAt(ptr, size, bs, t + 1);
    assert p[b.addr := p[bs[t + 1].addr]] == ptr[b.addr := After(bs, t + 1).addr][bs[t].addr := b.addr];
  }

  lemma {:induction false} LeftLinked(ptr: map<nat, nat>, size: map<nat, nat>, d: seq<Blk>, t: nat)
    requires Linked(ptr, size, d) && DistinctAddrs(d) && t + 1 < |d|
    ensures Linked(ptr[d[t].addr := After(d, t + 1).addr], size[d[t].addr := d[t].units + d[t + 1].units], Merged(d, t))
  {
    MergeLinked(ptr, size, d, t);
    assert LinkedAt(ptr, size, d, t) && LinkedAt(ptr, size, d, t + 1);
  }

  lemma {:induction false} FreedLinked(ptr: map<nat, nat>, size: map<nat, nat>, bs: seq<Blk>, t: nat, b: Blk)
    requires Linked(ptr, size, bs) && DistinctAddrs(bs) && t < |bs|
    requires b.addr in size && size[b.addr] == b.units
    requires forall i | 0 <= i < |bs| :: bs[i].addr != b.addr
    ensures Linked(FreedPtr(ptr, bs, t, b), FreedSize(size, bs, t, b), Freed(bs, t, b))
  {
    var c := Inserted(bs, t, b);
    var left := bs[t].addr + bs[t].units == b.addr;
    assert LinkedAt(ptr, size, bs, t);
    if t + 1 < |bs| && b.addr + b.units == bs[t + 1].addr {
      RightLinked(ptr, size, bs, t, b);
      if left {
        var d := Merged(c, t + 1);
        assert d[t] == bs[t] && d[t + 1].addr == b.addr && After(d, t + 1) == After(bs, t + 1);
        var p := ptr[b.addr := After(bs, t + 1).addr][bs[t].addr := b.addr];
        LeftLinked(p, size[b.addr := b.units + bs[t + 1].units], d, t);
        assert p[bs[t].addr := After(d, t + 1).addr] == FreedPtr(ptr, bs, t, b);
      }
    } else {
      InsertLinked(ptr, size, bs, t, b);
      if left {
        InsertDistinct(bs, t, b);
        assert c[t] == bs[t] && c[t + 1] == b && After(c, t + 1) == After(bs, t);
        var p := ptr[b.addr := ptr[bs[t].addr]][bs[t].addr := b.addr];
        LeftLinked(p, size, c, t);
        assert p[bs[t].addr := After(c, t + 1).addr] == FreedPtr(ptr, bs, t, b);
      }
    }
  }

  // ---- taking memory out of the list ----

  lemma {:induction false} RemoveCovers(bs: seq<Blk>, i: nat, u: nat)
    requires Canonical(bs) && 0 < i < |bs|
    ensures Covers(bs, u) <==> Covers(Removed(bs, i), u) || In(bs[i], u)
    ensures !(Covers(Removed(bs, i), u) && In(bs[i], u))
  {
    var cs := Removed(bs, i);
    assert bs == bs[..i] + [bs[i]] + bs[i + 1..];
    ConcatCovers(bs[..i], bs[i + 1..], u);
    ConcatCovers(bs[..i] + [bs[i]], bs[i + 1..], u);
    ConcatCovers(bs[..i], [bs[i]], u);
    SingleCovers(bs[i], u);
    AllOrdered(bs);
    assert forall j | 0 <= j < |cs| :: cs[j] == bs[if j < i then j else j + 1];
  }

  lemma {:induction false} RemoveCanonical(bs: seq<Blk>, i: nat)
    requires Canonical(bs) && 0 < i < |bs|
    ensures Canonical(Removed(bs, i))
  {
    var cs := Removed(bs, i);
    forall j: nat | j + 1 < |cs| ensures Gap(cs, j) {
      assert Gap(bs, j) && (j >= i - 1 ==> Gap(bs, j + 1));
    }
  }

  /** The upper n units of block i. */
  function Tail(bs: seq<Blk>, i: nat, n: nat): Blk
    requires i < |bs| && n <= bs[i].units
  {
    Blk(bs[i].addr + bs[i].units - n, n)
  }

  lemma {:induction false} ShrinkCovers(bs: seq<Blk>, i: nat, n: nat, u: nat)
    requires Canonical(bs) && 0 < i < |bs| && n < bs[i].units
    ensures Covers(bs, u) <==> Covers(Shrunk(bs, i, n), u) || In(Tail(bs, i, n), u)
    ensures !(Covers(Shrunk(bs, i, n), u) && In(Tail(bs, i, n), u))
  {
    var cs := Shrunk(bs, i, n);
    assert In(bs[i], u) <==> In(cs[i], u) || In(Tail(bs, i, n), u);
    AllOrdered(bs);
    assert forall j | 0 <= j < |bs| && j != i :: cs[j] == bs[j];
  }

  lemma {:induction false} ShrinkCanonical(bs: seq<Blk>, i: nat, n: nat)
    requires Canonical(bs) && 0 < i < |bs| && n < bs[i].units
    ensures Canonical(Shrunk(bs, i, n))
  {
    var cs := Shrunk(bs, i, n);
    forall j: nat | j + 1 < |cs| ensures Gap(cs, j) {
      assert Gap(bs, j);
    }
  }

  /** The free list is determined by the memory that is free: two canonical lists
      over the same base that cover the same units are the same list. */
  lemma {:induction false} CanonicalUnique(a: seq<Blk>, b: seq<Blk>)
    requires Canonical(a) && Canonical(b) && a[0] == b[0]
    requires forall u: nat :: Covers(a, u) <==> Covers(b, u)
    ensures a == b
    decreases |a|
  {
    if |a| == 1 {
      if |b| > 1 {
        assert Gap(b, 0) && In(b[1], b[1].addr) && Covers(b, b[1].addr);
        assert false;
      }
    } else {
      assert Gap(a, 0) && In(a[1], a[1].addr) && Covers(a, a[1].addr);
      assert |b| > 1;
      FirstBlocksAgree(a, b);
      FirstBlocksAgree(b, a);
      RemoveCanonical(a, 1);
      RemoveCanonical(b, 1);
      forall u: nat ensures Covers(Removed(a, 1), u) <==> Covers(Removed(b, 1), u) {
        RemoveCovers(a, 1, u);
        RemoveCovers(b, 1, u);
      }
      CanonicalUnique(Removed(a, 1), Removed(b, 1));
      assert a == [a[0], a[1]] + Removed(a, 1)[1..] && b == [b[0], b[1]] + Removed(b, 1)[1..];
    }
  }

  lemma {:induction false} FirstBlocksAgree(a: seq<Blk>, b: seq<Blk>)
    requires Canonical(a) && Canonical(b) && |a| > 1 && |b| > 1
    requires forall u: nat :: Covers(a, u) <==> Covers(b, u)
    ensures a[1].addr <= b[1].addr
    ensures a[1].addr == b[1].addr ==> b[1].units <= a[1].units
  {
    AllOrdered(a);
    assert Gap(a, 0) && Gap(b, 0);
    assert In(b[1], b[1].addr) && Covers(b, b[1].addr);
    var e := a[1].addr + a[1].units;
    assert !Covers(a, e);
    assert !Covers(b, e);
    assert !In(b[1], e);
  }

  // ---- who owns each unit ----

  ghost predicate Holds(live: set<Blk>, u: nat) {
    exists b :: b in live && In(b, u)
  }

  /** Every unit obtained from sbrk is in the free list or in exactly one live
      block, and no other unit is. */
  ghost predicate Partition(free: seq<Blk>, live: set<Blk>, chunks: seq<Blk>) {
    && (forall u: nat :: Covers(chunks, u) <==> Covers(free, u) || Holds(live, u))
    && (forall u: nat :: !(Covers(free, u) && Holds(live, u)))
    && (forall b, c, u: nat | b in live && c in live && In(b, u) && In(c, u) :: b == c)
    && (forall b | b in live :: b.units > 0)
  }

  lemma {:induction false} ReleasePartition(free: seq<Blk>, live: set<Blk>, chunks: seq<Blk>, b: Blk, free': seq<Blk>)
    requires Partition(free, live, chunks) && b in live
    requires forall u: nat :: Covers(free', u) <==> Covers(free, u) || In(b, u)
    ensures Partition(free', live - {b}, chunks)
  {
  }

  lemma {:induction false} TakePartition(free: seq<Blk>, live: set<Blk>, chunks: seq<Blk>, b: Blk, free': seq<Blk>)
    requires Partition(free, live, chunks) && b.units > 0
    requires forall u: nat :: Covers(free, u) <==> Covers(free', u) || In(b, u)
    requires forall u: nat :: !(Covers(free', u) && In(b, u))
    ensures Partition(free', live + {b}, chunks)
  {
  }

  lemma {:induction false} GrowPartition(free: seq<Blk>, live: set<Blk>, chunks: seq<Blk>, b: Blk)
    requires Partition(free, live, chunks) && b.units > 0
    requires forall u: nat :: !(Covers(chunks, u) && In(b, u))
    ensures Partition(free, live + {b}, chunks + [b])
  {
    AddHolds(live, b);
    forall u: nat ensures Covers(chunks + [b], u) <==> Covers(chunks, u) || In(b, u) {
      ConcatCovers(chunks, [b], u);
      SingleCovers(b, u);
    }
  }

  lemma {:induction false} AddHolds(live: set<Blk>, b: Blk)
    ensures forall u: nat :: Holds(live + {b}, u) <==> Holds(live, u) || In(b, u)
  {
  }

  // ---- the allocator ----

  /** malloc's header units for a request, in 32-bit arithmetic. */
  function UnitsFor(nbytes: nat): nat {
    (nbytes + HEADER_BYTES - 1) % WORD_MOD / HEADER_BYTES + 1
  }

  /** The units that morecore asks sbrk for. */
  function Core(nu: nat): (n: nat)
    ensures n >= nu && n >= 4096 && (n == nu || n == 4096)
  {
    if nu < MIN_CORE then MIN_CORE else nu
  }

  /** sbrk's argument: a 32-bit product, taken as a signed int. */
  function SbrkBytes(nu: nat): int {
    var n := nu * HEADER_BYTES % WORD_MOD;
    if n < INT_LIMIT then n else n - WORD_MOD
  }

  /** For an argument that is not positive growproc gives no memory, and yet sbrk answers
      with the old end of memory. */
  predicate Given(nu: nat) {
    SbrkBytes(Core(nu)) > 0
  }

  /** What sbrk can answer: -1, or an address past all it gave before; memory that it
      really gives ends below KERNBASE. */
  predicate Grantable(grant: Option<nat>, nu: nat, top: nat) {
    grant.Some? ==> grant.value >= top && (Given(nu) ==> grant.value + Core(nu) < KERN_UNITS)
  }

  predicate RoomFor(nbytes: nat) {
    (UnitsFor(nbytes) - 1) * HEADER_BYTES >= nbytes
  }

  /** The units after the header hold the requested bytes, and sbrk is asked for exactly
      the memory that is then used, exactly for requests up to MAX_REQUEST. */
  lemma {:induction false} BigEnoughIff(nbytes: nat)
    requires nbytes < WORD_MOD
    ensures RoomFor(nbytes) && SbrkBytes(Core(UnitsFor(nbytes))) == Core(UnitsFor(nbytes)) * HEADER_BYTES
            <==> nbytes <= MAX_REQUEST
    ensures RoomFor(nbytes) <==> nbytes + HEADER_BYTES - 1 < WORD_MOD
    ensures RoomFor(nbytes) ==> (UnitsFor(nbytes) < KERN_UNITS <==> nbytes <= MAX_REQUEST)
    ensures Given(UnitsFor(nbytes)) <==> UnitsFor(nbytes) < KERN_UNITS
    ensures Given(UnitsFor(nbytes)) ==> SbrkBytes(Core(UnitsFor(nbytes))) == Core(UnitsFor(nbytes)) * HEADER_BYTES
  {
  }

  /** A request of 2^31 bytes asks sbrk for a negative amount, one of 2^32 - 8 bytes for
      nothing at all, and one of 2^32 - 1 bytes is taken for a request of none. */
  lemma BadRequests()
    ensures RoomFor(0x8000_0000) && SbrkBytes(Core(UnitsFor(0x8000_0000))) == -0x7FFF_FFF8
    ensures RoomFor(0xFFFF_FFF8) && SbrkBytes(Core(UnitsFor(0xFFFF_FFF8))) == 0
    ensures !RoomFor(0xFFFF_FFFF) && UnitsFor(0xFFFF_FFFF) == UnitsFor(0)
  {
  }

  /** A freed block fits after its predecessor: it overlaps neither neighbour. */
  lemma {:induction false} LiveFits(free: seq<Blk>, live: set<Blk>, chunks: seq<Blk>, b: Blk)
    requires Canonical(free) && Partition(free, live, chunks) && b in live && free[0].addr < b.addr
    ensures var t := Pred(free, b.addr, |free|);
            Fits(free, t, b) && forall i | 0 <= i < |free| :: free[i].addr != b.addr
  {
    var t := Pred(free, b.addr, |free|);
    AllOrdered(free);
    assert In(b, b.addr) && Holds(live, b.addr) && !Covers(free, b.addr);
    assert !In(free[t], b.addr);
    if t + 1 < |free| {
      var a := free[t + 1].addr;
      assert Gap(free, t) && In(free[t + 1], a) && Covers(free, a);
      assert !Holds(live, a) && !In(b, a);
    }
  }

  /** free's two exit tests hold at block j exactly when j is bp's predecessor. */
  lemma {:induction false} PredStops(bs: seq<Blk>, bp: nat, j: nat)
    requires Canonical(bs) && bs[0].addr < bp && j < |bs|
    requires forall i | 0 <= i < |bs| :: bs[i].addr != bp
    ensures bs[0].addr <= bs[j].addr
    ensures var p, next := bs[j].addr, After(bs, j).addr;
            (bp > p && bp < next) || (p >= next && (bp > p || bp < next)) <==> j == Pred(bs, bp, |bs|)
  {
    var t := Pred(bs, bp, |bs|);
    if j > 0 {
      Ordered(bs, 0, j);
    }
    if j + 1 < |bs| {
      Ordered(bs, j, j + 1);
    }
    if j < t && j + 1 < t {
      Ordered(bs, j + 1, t);
    }
  }

  /** Everything free has to keep, at the level of the abstract heap. */
  lemma {:induction false} FreeKeeps(ptr: map<nat, nat>, size: map<nat, nat>, free: seq<Blk>, live: set<Blk>, chunks: seq<Blk>, b: Blk)
    requires Canonical(free) && Linked(ptr, size, free) && Partition(free, live, chunks) && b in live
    requires forall c | c in live :: c.addr in size && size[c.addr] == c.units && free[0].addr < c.addr
    ensures var t := Pred(free, b.addr, |free|); var f := Freed(free, t, b); var z := FreedSize(size, free, t, b);
            && Fits(free, t, b) && (forall i | 0 <= i < |free| :: free[i].addr != b.addr)
            && Canonical(f) && Linked(FreedPtr(ptr, free, t, b), z, f) && Partition(f, live - {b}, chunks)
            && (forall c | c in live - {b} :: c.addr in z && z[c.addr] == c.units)
            && (forall u: nat :: Covers(f, u) <==> Covers(free, u) || In(b, u))
            && |f| > t && f[t].addr == free[t].addr && f[0].addr == free[0].addr
            && exists i :: 0 <= i < |f| && Contains(f[i], b)
  {
    var t := Pred(free, b.addr, |free|);
    LiveFits(free, live, chunks, b);
    CanonicalDistinct(free);
    FreedLinked(ptr, size, free, t, b);
    FreedCanonical(free, t, b);
    FreedKeeps(free, live, chunks, t, b);
    LiveSizesKept(size, free, live, chunks, t, b);
  }

  class Heap {
    const base: nat
    var ptr: map<nat, nat>
    var size: map<nat, nat>
    var freep: nat
    ghost var free: seq<Blk>
    ghost var live: set<Blk>
    ghost var chunks: seq<Blk>
    ghost var got: seq<Blk>
    ghost var top: nat

    ghost predicate Valid()
      reads this
    {
      && 0 < base < top
      && Partition(free, live, chunks)
      && (forall u: nat | Covers(chunks, u) :: base < u < top)
      && (forall b | b in live :: b.addr in size && size[b.addr] == b.units)
      && (freep == 0 ==> free == [] && live == {} && chunks == [])
      && (freep != 0 ==> ListOk())
    }

    /** The memory in use is memory that sbrk gave. */
    ghost predicate Backed()
      reads this
    {
      Real(chunks, got)
    }

    ghost predicate ListOk()
      reads this
    {
      && Canonical(free) && free[0].addr == base && Linked(ptr, size, free)
      && exists f :: 0 <= f < |free| && free[f].addr == freep
    }

    /** Static data: freep is null and nothing has been obtained yet. */
    constructor (base: nat)
      requires base > 0
      ensures Valid() && this.base == base && live == {} && chunks == [] && Backed()
    {
      this.base := base;
      ptr, size, freep := map[], map[], 0;
      free, live, chunks, got, top := [], {}, [], [], base + 1;
    }

    /** free's search: the address-order predecessor of bp in the circular list,
        wherever the roving pointer starts. */
    method FindPred(bp: nat) returns (p: nat, ghost t: nat)
      requires freep != 0 && ListOk() && base < bp
      requires forall i | 0 <= i < |free| :: free[i].addr != bp
      ensures t == Pred(free, bp, |free|) && t < |free| && p == free[t].addr && p >= base
    {
      t := Pred(free, bp, |free|);
      ghost var n := |free|;
      ghost var j :| 0 <= j < n && free[j].addr == freep;
      p := freep;
      assert LinkedAt(ptr, size, free, j);
      PredStops(free, bp, j);
      while !(bp > p && bp < ptr[p])
        invariant 0 <= j < n && p == free[j].addr && p >= base && LinkedAt(ptr, size, free, j)
        invariant (bp > p && bp < ptr[p]) || (p >= ptr[p] && (bp > p || bp < ptr[p])) <==> j == t
        decreases if j <= t then t - j else n - j + t
      {
        if p >= ptr[p] && (bp > p || bp < ptr[p]) {
          break;
        }
        p := ptr[p];
        j := if j + 1 == n then 0 else j + 1;
        assert LinkedAt(ptr, size, free, j);
        PredStops(free, bp, j);
      }
    }

    /** free's pointer surgery between p and its successor. */
    method Splice(p: nat, bp: nat, ghost bs: seq<Blk>, ghost t: nat, ghost b: Blk)
      requires Linked(ptr, size, bs) && Canonical(bs) && t < |bs| && Fits(bs, t, b)
      requires p == bs[t].addr && bp == b.addr && bp in size && size[bp] == b.units
      requires forall i | 0 <= i < |bs| :: bs[i].addr != b.addr
      modifies this`ptr, this`size
      ensures ptr == FreedPtr(old(ptr), bs, t, b) && size == FreedSize(old(size), bs, t, b)
    {
      assert LinkedAt(ptr, size, bs, t);
      NextSize(ptr, size, bs, t, b);
      if bp + size[bp] == ptr[p] {
        var q := ptr[p];
        size := size[bp := size[bp] + size[q]];
        ptr := ptr[bp := ptr[q]];
      } else {
        ptr := ptr[bp := ptr[p]];
      }
      if p + size[p] == bp {
        size := size[p := size[p] + size[bp]];
        ptr := ptr[p := ptr[bp]];
      } else {
        ptr := ptr[p := bp];
      }
    }

    /** free: gives one live block back; the free list stays canonical. */
    method Free(bp: nat)
      requires Valid() && bp in size && Blk(bp, size[bp]) in live
      modifies this`ptr, this`size, this`freep, this`free, this`live
      ensures Valid()
      ensures live == old(live) - {Blk(bp, old(size)[bp])} && freep != 0
      ensures forall u: nat :: Covers(free, u) <==> Covers(old(free), u) || In(Blk(bp, old(size)[bp]), u)
      ensures exists i :: 0 <= i < |free| && Contains(free[i], Blk(bp, old(size)[bp]))
    {
      ghost var b := Blk(bp, size[bp]);
      LiveAboveBase(free, live, chunks, base, top);
      FreeKeeps(ptr, size, free, live, chunks, b);
      var p;
      ghost var t;
      p, t := FindPred(bp);
      Splice(p, bp, free, t, b);
      freep := p;
      free := Freed(free, t, b);
      live := live - {b};
    }

    /** morecore: asks for at least MIN_CORE units and frees them into the list,
        whether or not sbrk gave them.  `grant` is sbrk's answer. */
    method MoreCore(nu0: nat, grant: Option<nat>) returns (p: nat)
      requires Valid() && freep != 0 && nu0 > 0 && Grantable(grant, nu0, top)
      modifies this
      ensures Valid() && live == old(live) && (p == 0 <==> grant.None?)
      ensures p == 0 ==> free == old(free) && chunks == old(chunks) && got == old(got) && freep == old(freep)
      ensures p != 0 ==> p == freep && exists i :: 0 <= i < |free| && free[i].units >= nu0
      ensures p != 0 ==> chunks == old(chunks) + [Blk(grant.value, Core(nu0))]
      ensures p != 0 ==> got == if Given(nu0) then old(got) + [Blk(grant.value, Core(nu0))] else old(got)
    {
      var nu := nu0;
      if nu < MIN_CORE {
        nu := MIN_CORE;
      }
      if grant.None? {
        return 0;
      }
      var hp := grant.value;
      ghost var b := Blk(hp, nu);
      CoreKeeps(ptr, size, free, live, chunks, base, top, b);
      if SbrkBytes(nu) > 0 {
        got := got + [b];
      }
      size := size[hp := nu];
      live, chunks, top := live + {b}, chunks + [b], hp + nu;
      Free(hp);
      assert live == old(live);
      p := freep;
    }

    /** malloc's use of the block it found at index i. */
    method Carve(prevp: nat, p: nat, nunits: nat, ghost i: nat) returns (q: nat)
      requires Valid() && freep != 0 && 0 < nunits && 0 < i < |free|
      requires p == free[i].addr && prevp == free[i - 1].addr && prevp > 0 && free[i].units >= nunits
      modifies this`ptr, this`size, this`freep, this`free, this`live
      ensures Valid() && freep == prevp && Blk(q, nunits) !in old(live)
      ensures live == old(live) + {Blk(q, nunits)} && Contains(old(free)[i], Blk(q, nunits))
    {
      q := p;
      CarveKeeps(ptr, size, free, live, chunks, i, nunits);
      if size[p] == nunits {
        ptr := ptr[prevp := ptr[p]];
        free := Removed(free, i);
      } else {
        size := size[p := size[p] - nunits];
        q := p + size[p];
        size := size[q := nunits];
        free := Shrunk(free, i, nunits);
      }
      freep := prevp;
      live := live + {Blk(q, nunits)};
      assert free[i - 1].addr == freep;
    }

    /** The list is non-null and the roving pointer is at index f. */
    ghost predicate RoverAt(f: nat)
      reads this
    {
      freep != 0 && f < |free| && free[f].addr == freep
    }

    /** One position of malloc's scan: k blocks after the rover were too small. */
    ghost predicate Scanned(prevp: nat, p: nat, nunits: nat, f: nat, k: nat)
      reads this
    {
      && Valid() && RoverAt(f) && k < |free|
      && prevp == free[At(f, k, |free|)].addr && p == free[At(f, k + 1, |free|)].addr
      && forall m: nat | 0 < m <= k :: free[At(f, m, |free|)].units < nunits
    }

    ghost predicate TooSmall(nunits: nat)
      reads this
    {
      AllBelow(free, nunits)
    }

    /** malloc starts looking at the block after the rover. */
    method StartScan(nunits: nat) returns (prevp: nat, p: nat, ghost f: nat)
      requires Valid() && nunits > 0
      modifies this`ptr, this`size, this`freep, this`free
      ensures Scanned(prevp, p, nunits, f, 0)
      ensures old(freep) != 0 ==> free == old(free) && freep == old(freep)
      ensures old(freep) == 0 ==> TooSmall(nunits)
    {
      if freep == 0 {
        ptr, size, freep, free := ptr[base := base], size[base := 0], base, [Blk(base, 0)];
        assert LinkedAt(ptr, size, free, 0);
        EmptyPartition(free);
        assert free[0].addr == freep;
      }
      f :| 0 <= f < |free| && free[f].addr == freep;
      prevp := freep;
      assert LinkedAt(ptr, size, free, f);
      p := ptr[prevp];
    }

    method Advance(prevp0: nat, p0: nat, nunits: nat, ghost f: nat, ghost k: nat) returns (prevp: nat, p: nat)
      requires Scanned(prevp0, p0, nunits, f, k) && k + 1 < |free| && free[At(f, k + 1, |free|)].units < nunits
      ensures Scanned(prevp, p, nunits, f, k + 1)
    {
      assert LinkedAt(ptr, size, free, At(f, k + 1, |free|));
      prevp, p := p0, ptr[p0];
    }

    /** malloc's call of morecore; the scan then goes on from the rover it left. */
    method Grow(nunits: nat, grant: Option<nat>) returns (ok: bool, prevp: nat, p: nat, ghost f: nat)
      requires Valid() && freep != 0 && nunits > 0 && Grantable(grant, nunits, top)
      modifies this
      ensures Valid() && live == old(live) && (ok <==> grant.Some?)
      ensures !ok ==> chunks == old(chunks) && got == old(got)
      ensures ok ==> Scanned(prevp, p, nunits, f, 0) && !TooSmall(nunits)
      ensures ok ==> Grown(old(chunks), chunks, old(got), got, nunits, grant)
    {
      f, prevp := 0, 0;
      p := MoreCore(nunits, grant);
      ok := p != 0;
      if ok {
        prevp, p, f := StartScan(nunits);
      }
    }

    /** malloc: a block of nbytes carved from the free list, which grows by at most
        one sbrk.  Returns 0 exactly when no free block is big enough and sbrk
        fails.  While all memory in use is real, the block is big enough and real
        exactly for requests up to MAX_REQUEST. */
    method Malloc(nbytes: nat, grant: Option<nat>) returns (r: nat)
      requires Valid() && nbytes < WORD_MOD && Grantable(grant, UnitsFor(nbytes), top)
      modifies this
      ensures Valid()
      ensures r == 0 <==> grant.None? && AllBelow(old(free), UnitsFor(nbytes))
      ensures r == 0 ==> live == old(live)
      ensures r != 0 ==> Blk(r - 1, UnitsFor(nbytes)) !in old(live)
      ensures r != 0 ==> live == old(live) + {Blk(r - 1, UnitsFor(nbytes))}
      ensures r != 0 && AllBelow(old(free), UnitsFor(nbytes)) ==>
                Grown(old(chunks), chunks, old(got), got, UnitsFor(nbytes), grant)
      ensures r == 0 || !AllBelow(old(free), UnitsFor(nbytes)) ==> chunks == old(chunks) && got == old(got)
      ensures old(Backed()) && r != 0 ==> (RoomFor(nbytes) && Backed() <==> nbytes <= MAX_REQUEST)
    {
      hide Grown, Real, RoomFor, Given, Grantable, UnitsFor, Partition;
      var nunits := UnitsFor(nbytes);
      var prevp, p, ok;
      ghost var f, k, grown := 0, 0, false;
      RealIff(old(free), old(live), old(chunks), old(got), nbytes, grant, top);
      prevp, p, f := StartScan(nunits);
      ghost var small := AllBelow(old(free), nunits);
      while true
        invariant Scanned(prevp, p, nunits, f, k) && live == old(live)
        invariant !grown ==> chunks == old(chunks) && got == old(got) && top == old(top) && (small <==> TooSmall(nunits))
        invariant grown ==> small && grant.Some? && !TooSmall(nunits)
        invariant grown ==> Grown(old(chunks), chunks, old(got), got, nunits, grant)
        decreases !grown, |free| - k
      {
        ghost var i := At(f, k + 1, |free|);
        assert LinkedAt(ptr, size, free, i);
        ScanFacts(free, freep, f, k);
        if size[p] >= nunits {
          r := Carve(prevp, p, nunits, i);
          r := r + 1;
          return;
        }
        if p == freep {
          AllVisited(free, nunits, f);
          ok, prevp, p, f := Grow(nunits, grant);
          if !ok {
            return 0;
          }
          k, grown := 0, true;
        } else {
          prevp, p := Advance(prevp, p, nunits, f, k);
          k := k + 1;
        }
      }
    }
  }

  /** One more chunk is in use, and sbrk gave it or did not. */
  ghost predicate Grown(chunks: seq<Blk>, chunks': seq<Blk>, got: seq<Blk>, got': seq<Blk>, nu: nat, grant: Option<nat>) {
    && grant.Some? && chunks' == chunks + [Blk(grant.value, Core(nu))]
    && got' == if Given(nu) then got + [Blk(grant.value, Core(nu))] else got
  }

  ghost predicate Real(chunks: seq<Blk>, got: seq<Blk>) {
    chunks == got && forall u: nat | Covers(got, u) :: u < KERN_UNITS
  }

  /** A free block of real memory is smaller than the address space. */
  lemma {:induction false} FreeBelow(free: seq<Blk>, live: set<Blk>, chunks: seq<Blk>, i: nat)
    requires Partition(free, live, chunks) && Real(chunks, chunks) && i < |free| && free[i].units > 0
    requires forall u: nat | Covers(chunks, u) :: u > 0
    ensures free[i].units < KERN_UNITS
  {
    assert In(free[i], free[i].addr) && Covers(free, free[i].addr);
    var u := free[i].addr + free[i].units - 1;
    assert In(free[i], u) && Covers(free, u);
  }

  /** Both ways of satisfying a request: from the list, and from sbrk. */
  lemma {:induction false} RealIff(free: seq<Blk>, live: set<Blk>, chunks: seq<Blk>, got: seq<Blk>, nbytes: nat, grant: Option<nat>,
                                   top: nat)
    requires Partition(free, live, chunks) && nbytes < WORD_MOD
    requires forall u: nat | Covers(chunks, u) :: u > 0
    requires Grantable(grant, UnitsFor(nbytes), top)
    ensures UnitsFor(nbytes) > 0
    ensures Real(chunks, got) && !AllBelow(free, UnitsFor(nbytes)) ==> (RoomFor(nbytes) <==> nbytes <= MAX_REQUEST)
    ensures Real(chunks, got) ==>
              forall chunks', got' | Grown(chunks, chunks', got, got', UnitsFor(nbytes), grant) ::
                RoomFor(nbytes) && Real(chunks', got') <==> nbytes <= MAX_REQUEST
  {
    BigEnoughIff(nbytes);
    var n := UnitsFor(nbytes);
    if Real(chunks, got) && !AllBelow(free, n) {
      var i :| 0 <= i < |free| && free[i].units >= n;
      FreeBelow(free, live, chunks, i);
    }
    forall chunks', got' | Real(chunks, got) && Grown(chunks, chunks', got, got', n, grant)
      ensures RoomFor(nbytes) && Real(chunks', got') <==> nbytes <= MAX_REQUEST
    {
      if Given(n) {
        var b := Blk(grant.value, Core(n));
        forall u: nat | Covers(got', u) ensures u < KERN_UNITS {
          ConcatCovers(got, [b], u);
          SingleCovers(b, u);
        }
      }
    }
  }

  ghost predicate AllBelow(bs: seq<Blk>, n: nat) {
    forall i | 0 <= i < |bs| :: bs[i].units < n
  }

  lemma {:induction false} EmptyPartition(free: seq<Blk>)
    requires |free| == 1 && free[0].units == 0
    ensures Partition(free, {}, [])
  {
  }

  lemma {:induction false} ScanFacts(free: seq<Blk>, freep: nat, f: nat, k: nat)
    requires Canonical(free) && f < |free| && k < |free| && free[f].addr == freep
    ensures var i := At(f, k + 1, |free|);
            && (free[i].addr == freep <==> k + 1 == |free|)
            && (i == 0 ==> free[i].units == 0)
            && (i > 0 ==> i - 1 == At(f, k, |free|))
            && free[At(f, k, |free|)].addr >= free[0].addr
  {
    AllOrdered(free);
  }

  /** A full turn visits every block. */
  lemma {:induction false} AllVisited(free: seq<Blk>, nunits: nat, f: nat)
    requires f < |free|
    requires forall m: nat | 0 < m <= |free| :: free[At(f, m, |free|)].units < nunits
    ensures AllBelow(free, nunits)
  {
    forall i: nat | i < |free| ensures free[i].units < nunits {
      var m := if i > f then i - f else i - f + |free|;
      assert At(f, m, |free|) == i;
    }
  }

  /** Index f + k around a ring of n. */
  function At(f: nat, k: nat, n: nat): (i: nat)
    requires f < n && k <= n
    ensures i < n
  {
    if f + k < n then f + k else f + k - n
  }

  /** What sbrk's fresh memory does to the heap, before it is freed into the list. */
  lemma {:induction false} CoreKeeps(ptr: map<nat, nat>, size: map<nat, nat>, free: seq<Blk>, live: set<Blk>, chunks: seq<Blk>,
                                     base: nat, top: nat, b: Blk)
    requires Canonical(free) && free[0].addr == base < top && Linked(ptr, size, free) && Partition(free, live, chunks)
    requires forall u: nat | Covers(chunks, u) :: base < u < top
    requires forall c | c in live :: c.addr in size && size[c.addr] == c.units
    requires b.units > 0 && b.addr >= top
    ensures Linked(ptr, size[b.addr := b.units], free) && Partition(free, live + {b}, chunks + [b]) && b !in live
    ensures forall u: nat | Covers(chunks + [b], u) :: base < u < b.addr + b.units
    ensures forall c | c in live + {b} :: c.addr in size[b.addr := b.units] && size[b.addr := b.units][c.addr] == c.units
  {
    LiveAboveBase(free, live, chunks, base, top);
    NodesBelowTop(free, live, chunks, base, top);
    LinkedFrame(ptr, size, free, b.addr, b.units);
    assert forall u: nat :: !(Covers(chunks, u) && In(b, u));
    GrowPartition(free, live, chunks, b);
    forall u: nat | Covers(chunks + [b], u) ensures base < u < b.addr + b.units {
      ConcatCovers(chunks, [b], u);
      SingleCovers(b, u);
    }
  }

  lemma {:induction false} NodesBelowTop(free: seq<Blk>, live: set<Blk>, chunks: seq<Blk>, base: nat, top: nat)
    requires Canonical(free) && free[0].addr == base < top && Partition(free, live, chunks)
    requires forall u: nat | Covers(chunks, u) :: base < u < top
    ensures forall i | 0 <= i < |free| :: free[i].addr < top
  {
    forall i: nat | 0 < i < |free| ensures free[i].addr < top {
      assert Gap(free, i - 1);
      assert In(free[i], free[i].addr) && Covers(free, free[i].addr);
    }
  }

  /** Taking nunits from block i, all of it or its upper end. */
  lemma {:induction false} CarveKeeps(ptr: map<nat, nat>, size: map<nat, nat>, free: seq<Blk>, live: set<Blk>, chunks: seq<Blk>,
                                      i: nat, n: nat)
    requires Canonical(free) && Linked(ptr, size, free) && Partition(free, live, chunks) && 0 < i < |free|
    requires 0 < n <= free[i].units
    requires forall c | c in live :: c.addr in size && size[c.addr] == c.units
    ensures free[i].addr in size && size[free[i].addr] == free[i].units && free[i].addr in ptr
    ensures var b := Tail(free, i, n); var z := size[free[i].addr := free[i].units - n][b.addr := n];
            && b !in live
            && (n == free[i].units ==>
                  && Canonical(Removed(free, i)) && Partition(Removed(free, i), live + {b}, chunks)
                  && Linked(ptr[free[i - 1].addr := ptr[free[i].addr]], size, Removed(free, i)))
            && (n < free[i].units ==>
                  && Canonical(Shrunk(free, i, n)) && Partition(Shrunk(free, i, n), live + {b}, chunks)
                  && Linked(ptr, z, Shrunk(free, i, n))
                  && forall c | c in live :: c.addr in z && z[c.addr] == c.units)
  {
    CanonicalDistinct(free);
    assert LinkedAt(ptr, size, free, i);
    CarveNotLive(free, live, chunks, i, n);
    if n == free[i].units {
      RemoveCanonical(free, i);
      RemoveLinked(ptr, size, free, i);
      forall u: nat ensures Covers(free, u) <==> Covers(Removed(free, i), u) || In(free[i], u)
                    ensures !(Covers(Removed(free, i), u) && In(free[i], u))
      {
        RemoveCovers(free, i, u);
      }
      TakePartition(free, live, chunks, free[i], Removed(free, i));
    } else {
      CarveSplit(ptr, size, free, live, chunks, i, n);
    }
  }

  lemma {:induction false} CarveNotLive(free: seq<Blk>, live: set<Blk>, chunks: seq<Blk>, i: nat, n: nat)
    requires Partition(free, live, chunks) && i < |free| && 0 < n <= free[i].units
    ensures Tail(free, i, n) !in live
    ensures forall c | c in live :: c.addr != free[i].addr && c.addr != Tail(free, i, n).addr
  {
    var b := Tail(free, i, n);
    forall c | c in live ensures c.addr != free[i].addr && c.addr != b.addr && c != b {
      assert In(c, c.addr) && Holds(live, c.addr) && !Covers(free, c.addr);
      assert !In(free[i], c.addr);
    }
  }

  lemma {:induction false} CarveSplit(ptr: map<nat, nat>, size: map<nat, nat>, free: seq<Blk>, live: set<Blk>, chunks: seq<Blk>,
                                      i: nat, n: nat)
    requires Canonical(free) && Linked(ptr, size, free) && Partition(free, live, chunks) && 0 < i < |free|
    requires 0 < n < free[i].units && DistinctAddrs(free)
    ensures var b := Tail(free, i, n); var z := size[free[i].addr := free[i].units - n][b.addr := n];
            && Canonical(Shrunk(free, i, n)) && Partition(Shrunk(free, i, n), live + {b}, chunks)
            && Linked(ptr, z, Shrunk(free, i, n))
  {
    var b, f := Tail(free, i, n), Shrunk(free, i, n);
    ShrinkCanonical(free, i, n);
    ShrinkLinked(ptr, size, free, i, n);
    AllOrdered(free);
    assert forall j | 0 <= j < |f| :: f[j].addr == free[j].addr && f[j].addr != b.addr;
    LinkedFrame(ptr, size[free[i].addr := free[i].units - n], f, b.addr, n);
    forall u: nat ensures Covers(free, u) <==> Covers(f, u) || In(b, u)
                  ensures !(Covers(f, u) && In(b, u))
    {
      ShrinkCovers(free, i, n, u);
    }
    TakePartition(free, live, chunks, b, f);
  }

  /** The free list once n units were carved from block i. */
  function Carved(free: seq<Blk>, i: nat, n: nat): seq<Blk>
    requires i < |free| && n <= free[i].units
  {
    if n == free[i].units then Removed(free, i) else Shrunk(free, i, n)
  }

  /** free undoes malloc: giving the block back restores the very same list. */
  lemma {:induction false} FreeUndoesCarve(free: seq<Blk>, live: set<Blk>, chunks: seq<Blk>, i: nat, n: nat)
    requires Canonical(free) && Partition(free, live, chunks) && 0 < i < |free| && 0 < n <= free[i].units
    ensures var b, f := Tail(free, i, n), Carved(free, i, n);
            && |f| > 0 && f[0].addr < b.addr && Freed(f, Pred(f, b.addr, |f|), b) == free
  {
    var b, f := Tail(free, i, n), Carved(free, i, n);
    AllOrdered(free);
    if n == free[i].units {
      RemoveCanonical(free, i);
    } else {
      ShrinkCanonical(free, i, n);
    }
    forall u: nat ensures Covers(free, u) <==> Covers(f, u) || In(b, u)
                  ensures !(Covers(f, u) && In(b, u))
    {
      if n == free[i].units {
        RemoveCovers(free, i, u);
      } else {
        ShrinkCovers(free, i, n, u);
      }
    }
    TakePartition(free, live, chunks, b, f);
    LiveFits(f, live + {b}, chunks, b);
    var t := Pred(f, b.addr, |f|);
    FreedCanonical(f, t, b);
    FreedKeeps(f, live + {b}, chunks, t, b);
    assert Freed(f, t, b)[0] == free[0];
    CanonicalUnique(Freed(f, t, b), free);
  }

  lemma {:induction false} LiveAboveBase(free: seq<Blk>, live: set<Blk>, chunks: seq<Blk>, base: nat, top: nat)
    requires Partition(free, live, chunks) && forall u: nat | Covers(chunks, u) :: base < u < top
    ensures forall b | b in live :: base < b.addr < top
  {
    forall b | b in live ensures base < b.addr < top {
      assert In(b, b.addr) && Holds(live, b.addr);
    }
  }

  predicate Contains(outer: Blk, inner: Blk) {
    outer.addr <= inner.addr && inner.addr + inner.units <= outer.addr + outer.units
  }

  lemma {:induction false} NextSize(ptr: map<nat, nat>, size: map<nat, nat>, bs: seq<Blk>, t: nat, b: Blk)
    requires Linked(ptr, size, bs) && Canonical(bs) && t < |bs| && Fits(bs, t, b)
    ensures bs[t].addr in ptr && ptr[bs[t].addr] == After(bs, t).addr
    ensures b.addr + b.units == After(bs, t).addr <==> t + 1 < |bs| && b.addr + b.units == bs[t + 1].addr
    ensures t + 1 < |bs| ==> bs[t + 1].addr in size && size[bs[t + 1].addr] == bs[t + 1].units
    ensures t + 1 < |bs| ==> bs[t + 1].addr in ptr && ptr[bs[t + 1].addr] == After(bs, t + 1).addr
  {
    assert LinkedAt(ptr, size, bs, t);
    AllOrdered(bs);
    if t + 1 < |bs| {
      assert LinkedAt(ptr, size, bs, t + 1);
    }
  }

  lemma {:induction false} FreedKeeps(bs: seq<Blk>, live: set<Blk>, chunks: seq<Blk>, t: nat, b: Blk)
    requires Partition(bs, live, chunks) && b in live && t < |bs|
    ensures Partition(Freed(bs, t, b), live - {b}, chunks)
    ensures forall u: nat :: Covers(Freed(bs, t, b), u) <==> Covers(bs, u) || In(b, u)
    ensures |Freed(bs, t, b)| > t && Freed(bs, t, b)[t].addr == bs[t].addr
    ensures Freed(bs, t, b)[0].addr == bs[0].addr
    ensures exists i :: 0 <= i < |Freed(bs, t, b)| && Contains(Freed(bs, t, b)[i], b)
  {
    forall u: nat ensures Covers(Freed(bs, t, b), u) <==> Covers(bs, u) || In(b, u) {
      FreedCovers(bs, t, b, u);
    }
    ReleasePartition(bs, live, chunks, b, Freed(bs, t, b));
    var left := bs[t].addr + bs[t].units == b.addr;
    assert Contains(Freed(bs, t, b)[if left then t else t + 1], b);
  }

  /** free writes no size field of another live block. */
  lemma {:induction false} LiveSizesKept(size: map<nat, nat>, bs: seq<Blk>, live: set<Blk>, chunks: seq<Blk>, t: nat, b: Blk)
    requires t < |bs| && Canonical(bs) && Fits(bs, t, b) && b in live && Partition(bs, live, chunks)
    requires forall c | c in live :: c.addr in size && size[c.addr] == c.units
    requires forall c | c in live :: bs[0].addr < c.addr
    ensures forall c | c in live - {b} ::
              c.addr in FreedSize(size, bs, t, b) && FreedSize(size, bs, t, b)[c.addr] == c.units
  {
    forall c | c in live - {b}
      ensures c.addr in FreedSize(size, bs, t, b) && FreedSize(size, bs, t, b)[c.addr] == c.units
    {
      assert In(c, c.addr) && Holds(live, c.addr);
      assert c.addr == b.addr ==> In(b, c.addr);
      assert t > 0 ==> Gap(bs, t - 1);
      assert c.addr == bs[t].addr && t > 0 ==> In(bs[t], c.addr);
    }
  }
}
