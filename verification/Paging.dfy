/** kalloc.c and vm.c: physical frames, two-level page tables, and who owns each frame. */
module Paging {
  import opened Lists
  import opened Words

  const NPT: nat := 1024
  const PGSIZE: nat := 4096
  const KERNBASE: nat := 0x8000_0000
  const USERPAGES: nat := 0x8_0000
  const ALLPAGES: nat := 0x10_0000
  const TOP: nat := 0xE000

  type Page = s: seq<Word> | |s| == 1024 witness seq(1024, _ => 0)

  function ZeroPage(): (p: Page)
    ensures forall i: nat | i < NPT :: p[i] == 0
  {
    seq(NPT, _ => 0)
  }

  /** memset(v, 1, PGSIZE), then the free-list link in the first word. */
  function FreedPage(next: Word): (p: Page)
    ensures p[0] == next && forall i: nat | 0 < i < NPT :: p[i] == 0x0101_0101
  {
    seq(NPT, i => if i == 0 then next else 0x0101_0101)
  }

  /** The kernel virtual address of a frame. */
  function Addr(f: nat): (r: Word)
    ensures f < TOP ==> r == f * PGSIZE + KERNBASE
  {
    if f < TOP then f * PGSIZE + KERNBASE else 0
  }

  predicate Present(w: Word) {
    w % 2 == 1
  }

  function FrameOf(w: Word): nat {
    w / PGSIZE
  }

  function Entry(f: nat, flags: nat): (w: Word)
    requires f < ALLPAGES && flags < PGSIZE
    ensures FrameOf(w) == f && w % PGSIZE == flags
  {
    f * PGSIZE + flags
  }

  // ---- who uses a frame ----

  /** The directory d itself; table i of d; user page v of d; or some other kernel use. */
  datatype Slot = Dir | Other | Tab(d: nat, i: nat) | User(d: nat, v: nat)

  /** free lists the frames of kmem.freelist, head first. */
  datatype Vm = Vm(mem: seq<Page>, head: Word, free: seq<nat>, owner: map<nat, Slot>)

  predicate IsDir(owner: map<nat, Slot>, d: nat) {
    d in owner && owner[d] == Dir
  }

  /** The frame of table i of directory d, or -1. */
  function TabRef(mem: seq<Page>, owner: map<nat, Slot>, d: nat, i: nat): int {
    if IsDir(owner, d) && d < |mem| && i < NPT && Present(mem[d][i]) then FrameOf(mem[d][i]) else -1
  }

  /** The page table entry that walkpgdir finds for page v, or 0. */
  function Pte(mem: seq<Page>, owner: map<nat, Slot>, d: nat, v: nat): Word {
    var t := TabRef(mem, owner, d, v / NPT);
    if 0 <= t < |mem| then mem[t][v % NPT] else 0
  }

  function Ref(mem: seq<Page>, owner: map<nat, Slot>, s: Slot): int {
    match s
    case Tab(d, i) => TabRef(mem, owner, d, i)
    case User(d, v) =>
      if v < USERPAGES && Present(Pte(mem, owner, d, v)) then FrameOf(Pte(mem, owner, d, v)) else -1
    case _ => -1
  }

  /** The entry of directory d for its table i, or 0. */
  function Pde(mem: seq<Page>, owner: map<nat, Slot>, d: nat, i: nat): Word {
    if IsDir(owner, d) && d < |mem| && i < NPT then mem[d][i] else 0
  }

  /** The bits PTE_P, PTE_W and PTE_U. */
  predicate Open(w: Word) {
    w % 2 == 1 && w / 2 % 2 == 1 && w / 4 % 2 == 1
  }

  /** Directories leave all protection to the page table entries. */
  ghost predicate PdesOpen(mem: seq<Page>, owner: map<nat, Slot>) {
    forall d: nat, i: nat | Present(Pde(mem, owner, d, i)) :: Open(Pde(mem, owner, d, i))
  }

  /** Each frame that a directory or table entry refers to has that entry as its owner. */
  ghost predicate Owned(lo: nat, mem: seq<Page>, owner: map<nat, Slot>) {
    && (forall s: Slot | Ref(mem, owner, s) >= 0 :: Ref(mem, owner, s) in owner && owner[Ref(mem, owner, s)] == s)
    && (forall f | f in owner :: OwnerOk(lo, mem, owner, f))
  }

  ghost predicate OwnerOk(lo: nat, mem: seq<Page>, owner: map<nat, Slot>, f: nat) {
    lo <= f < TOP && f in owner && (owner[f].Dir? || owner[f].Other? || Ref(mem, owner, owner[f]) == f)
  }

  /** The free list: linked through the first words of its frames. */
  ghost predicate Chain(mem: seq<Page>, head: Word, free: seq<nat>) {
    && head == (if |free| > 0 then Addr(free[0]) else 0)
    && (forall k: nat | k < |free| :: LinkOk(mem, free, k))
  }

  predicate LinkOk(mem: seq<Page>, free: seq<nat>, k: nat) {
    k < |free| && free[k] < |mem| && mem[free[k]][0] == if k + 1 < |free| then Addr(free[k + 1]) else 0
  }

  /** Every frame is free, once, or owned: never both, never neither. */
  ghost predicate Partition(lo: nat, free: seq<nat>, owner: map<nat, Slot>) {
    && (forall k: nat | k < |free| :: lo <= free[k] < TOP && free[k] !in owner)
    && (forall j: nat, k: nat | j < k < |free| :: free[j] != free[k])
    && (forall f | lo <= f < TOP :: f in owner || f in free)
  }

  ghost predicate Sound(lo: nat, m: Vm) {
    && 0 < lo <= TOP && |m.mem| == TOP
    && Owned(lo, m.mem, m.owner) && Chain(m.mem, m.head, m.free) && Partition(lo, m.free, m.owner)
    && PdesOpen(m.mem, m.owner)
  }

  // ---- steps on the ownership map ----

  /** The references depend only on the pages of directories and tables. */
  lemma {:induction false} SameRefs(lo: nat, mem: seq<Page>, owner: map<nat, Slot>, mem': seq<Page>, owner': map<nat, Slot>)
    requires Owned(lo, mem, owner) && |mem| == |mem'| == TOP
    requires forall d: nat :: IsDir(owner', d) <==> IsDir(owner, d)
    requires forall f | f in owner && (owner[f].Dir? || owner[f].Tab?) :: f < TOP && mem'[f] == mem[f]
    ensures forall d: nat, i: nat :: TabRef(mem', owner', d, i) == TabRef(mem, owner, d, i)
    ensures forall d: nat, v: nat :: Pte(mem', owner', d, v) == Pte(mem, owner, d, v)
    ensures forall s: Slot :: Ref(mem', owner', s) == Ref(mem, owner, s)
  {
    forall d: nat, i: nat ensures TabRef(mem', owner', d, i) == TabRef(mem, owner, d, i) {
    }
    forall d: nat, v: nat ensures Pte(mem', owner', d, v) == Pte(mem, owner, d, v) {
      var s := Tab(d, v / NPT);
      assert Ref(mem, owner, s) == TabRef(mem, owner, d, v / NPT);
    }
  }

  /** Directories lose entries, or are gone; no entry is new. */
  lemma {:induction false} FewerPdes(mem: seq<Page>, owner: map<nat, Slot>, mem': seq<Page>, owner': map<nat, Slot>)
    requires PdesOpen(mem, owner)
    requires forall d: nat | IsDir(owner', d) && d < |mem'| :: IsDir(owner, d) && d < |mem|
    requires forall d: nat, i: nat | IsDir(owner', d) && d < |mem'| && i < NPT :: mem'[d][i] == mem[d][i] || mem'[d][i] == 0
    ensures PdesOpen(mem', owner')
  {
    forall d: nat, i: nat | Present(Pde(mem', owner', d, i)) ensures Open(Pde(mem', owner', d, i)) {
      assert Pde(mem', owner', d, i) == Pde(mem, owner, d, i);
    }
  }

  lemma {:induction false} SameOwned(lo: nat, mem: seq<Page>, owner: map<nat, Slot>, mem': seq<Page>)
    requires Owned(lo, mem, owner) && |mem| == |mem'| == TOP
    requires forall f | f in owner && (owner[f].Dir? || owner[f].Tab?) :: f < TOP && mem'[f] == mem[f]
    ensures Owned(lo, mem', owner)
  {
    SameRefs(lo, mem, owner, mem', owner);
    forall f | f in owner ensures OwnerOk(lo, mem', owner, f) {
      assert OwnerOk(lo, mem, owner, f);
    }
  }

  lemma {:induction false} SameChain(mem: seq<Page>, head: Word, free: seq<nat>, mem': seq<Page>)
    requires Chain(mem, head, free) && |mem| == |mem'|
    requires forall k: nat | k < |free| :: free[k] < |mem| ==> mem'[free[k]] == mem[free[k]]
    ensures Chain(mem', head, free)
  {
    forall k: nat | k < |free| ensures LinkOk(mem', free, k) {
      assert LinkOk(mem, free, k);
    }
  }

  /** One reference goes from nothing to a frame that was in other use. */
  lemma {:induction false} AddRef(lo: nat, mem: seq<Page>, owner: map<nat, Slot>, mem': seq<Page>, s: Slot, f: nat)
    requires 0 < lo && Owned(lo, mem, owner) && f in owner && owner[f] == Other
    requires Ref(mem, owner, s) < 0 && (s.Tab? || s.User?)
    requires forall x: Slot :: Ref(mem', owner[f := s], x) == if x == s then f else Ref(mem, owner, x)
    ensures Owned(lo, mem', owner[f := s])
  {
    var o := owner[f := s];
    forall x: Slot | Ref(mem', o, x) >= 0 ensures Ref(mem', o, x) in o && o[Ref(mem', o, x)] == x {
      assert Ref(mem', o, x) == if x == s then f else Ref(mem, owner, x);
    }
    forall g | g in o ensures OwnerOk(lo, mem', o, g) {
      assert OwnerOk(lo, mem, owner, g);
    }
  }

  /** One reference goes away; its frame is then in other use. */
  lemma {:induction false} DropRef(lo: nat, mem: seq<Page>, owner: map<nat, Slot>, mem': seq<Page>, s: Slot, f: nat)
    requires Owned(lo, mem, owner) && Ref(mem, owner, s) == f
    requires forall x: Slot :: Ref(mem', owner[f := Other], x) == if x == s then -1 else Ref(mem, owner, x)
    ensures Owned(lo, mem', owner[f := Other])
  {
    var o := owner[f := Other];
    assert f in owner && owner[f] == s;
    forall x: Slot | Ref(mem', o, x) >= 0 ensures Ref(mem', o, x) in o && o[Ref(mem', o, x)] == x {
      assert Ref(mem', o, x) == if x == s then -1 else Ref(mem, owner, x);
    }
    forall g | g in o ensures OwnerOk(lo, mem', o, g) {
      assert OwnerOk(lo, mem, owner, g);
    }
  }

  // ---- kalloc and kfree ----

  function Took(m: Vm): Vm
    requires |m.free| > 0 && m.free[0] < |m.mem|
  {
    m.(head := m.mem[m.free[0]][0], free := m.free[1..], owner := m.owner[m.free[0] := Other])
  }

  lemma {:induction false} TookSound(lo: nat, m: Vm)
    requires Sound(lo, m) && |m.free| > 0
    ensures m.free[0] < |m.mem| && Sound(lo, Took(m))
  {
    var f := m.free[0];
    assert LinkOk(m.mem, m.free, 0);
    var n := Took(m);
    assert Owned(lo, n.mem, n.owner) by {
      SameRefs(lo, m.mem, m.owner, n.mem, n.owner);
      forall g | g in n.owner ensures OwnerOk(lo, n.mem, n.owner, g) {
        assert g != f ==> OwnerOk(lo, m.mem, m.owner, g);
      }
    }
    assert Chain(n.mem, n.head, n.free) by {
      forall k: nat | k < |n.free| ensures LinkOk(n.mem, n.free, k) {
        assert LinkOk(m.mem, m.free, k + 1);
      }
    }
    assert Partition(lo, n.free, n.owner);
    FewerPdes(m.mem, m.owner, n.mem, n.owner);
  }

  function Dropped(m: Vm, f: nat): Vm
    requires f < |m.mem|
  {
    m.(mem := m.mem[f := FreedPage(m.head)], head := Addr(f), free := [f] + m.free, owner := m.owner - {f})
  }

  lemma {:induction false} DroppedPartition(lo: nat, free: seq<nat>, owner: map<nat, Slot>, f: nat)
    requires Partition(lo, free, owner) && lo <= f < TOP && f in owner
    ensures Partition(lo, [f] + free, owner - {f})
  {
  }

  lemma {:induction false} DroppedOwned(lo: nat, mem: seq<Page>, owner: map<nat, Slot>, f: nat, page: Page)
    requires Owned(lo, mem, owner) && |mem| == TOP && f < TOP && f in owner && owner[f] == Other
    ensures Owned(lo, mem[f := page], owner - {f})
  {
    var mem', owner' := mem[f := page], owner - {f};
    assert forall g | g in owner && (owner[g].Dir? || owner[g].Tab?) :: g < TOP && mem'[g] == mem[g] by {
      assert forall g | g in owner :: OwnerOk(lo, mem, owner, g);
    }
    SameRefs(lo, mem, owner, mem', owner');
    forall g | g in owner' ensures OwnerOk(lo, mem', owner', g) {
      assert OwnerOk(lo, mem, owner, g);
    }
  }

  lemma {:induction false} DroppedSound(lo: nat, m: Vm, f: nat)
    requires Sound(lo, m) && f in m.owner && m.owner[f] == Other
    ensures f < |m.mem| && Sound(lo, Dropped(m, f))
  {
    assert OwnerOk(lo, m.mem, m.owner, f);
    DroppedOwned(lo, m.mem, m.owner, f, FreedPage(m.head));
    DroppedPartition(lo, m.free, m.owner, f);
    var n := Dropped(m, f);
    assert Chain(n.mem, n.head, n.free) by {
      forall k: nat | k < |n.free| ensures LinkOk(n.mem, n.free, k) {
        assert k > 0 ==> LinkOk(m.mem, m.free, k - 1);
      }
    }
    FewerPdes(m.mem, m.owner, n.mem, n.owner);
  }

  // ---- writing pages ----

  /** A page that is not a directory or a table may hold anything. */
  lemma {:induction false} FilledSound(lo: nat, m: Vm, f: nat, page: Page)
    requires Sound(lo, m) && f in m.owner && (m.owner[f].Other? || m.owner[f].User?)
    ensures f < |m.mem| && Sound(lo, m.(mem := m.mem[f := page]))
    ensures forall d: nat, v: nat :: Pte(m.mem[f := page], m.owner, d, v) == Pte(m.mem, m.owner, d, v)
    ensures forall d: nat, i: nat :: TabRef(m.mem[f := page], m.owner, d, i) == TabRef(m.mem, m.owner, d, i)
  {
    assert OwnerOk(lo, m.mem, m.owner, f);
    var mem' := m.mem[f := page];
    assert forall g | g in m.owner && (m.owner[g].Dir? || m.owner[g].Tab?) :: g < TOP && mem'[g] == m.mem[g] by {
      assert forall g | g in m.owner :: OwnerOk(lo, m.mem, m.owner, g);
    }
    SameRefs(lo, m.mem, m.owner, mem', m.owner);
    SameOwned(lo, m.mem, m.owner, mem');
    SameChain(m.mem, m.head, m.free, mem');
    FewerPdes(m.mem, m.owner, mem', m.owner);
  }

  /** A zeroed frame becomes a directory. */
  lemma {:induction false} DirSound(lo: nat, m: Vm, f: nat)
    requires Sound(lo, m) && f in m.owner && m.owner[f].Other? && f < |m.mem| && m.mem[f] == ZeroPage()
    ensures Sound(lo, m.(owner := m.owner[f := Dir]))
    ensures forall d: nat, v: nat :: Pte(m.mem, m.owner[f := Dir], d, v) == Pte(m.mem, m.owner, d, v)
    ensures forall d: nat, i: nat :: TabRef(m.mem, m.owner[f := Dir], d, i) == TabRef(m.mem, m.owner, d, i)
  {
    var o := m.owner[f := Dir];
    assert forall d: nat, i: nat :: TabRef(m.mem, o, d, i) == TabRef(m.mem, m.owner, d, i);
    assert forall s: Slot :: Ref(m.mem, o, s) == Ref(m.mem, m.owner, s);
    forall g | g in o ensures OwnerOk(lo, m.mem, o, g) {
      assert OwnerOk(lo, m.mem, m.owner, g);
    }
    forall d: nat, i: nat | Present(Pde(m.mem, o, d, i)) ensures Open(Pde(m.mem, o, d, i)) {
      assert Pde(m.mem, o, d, i) == Pde(m.mem, m.owner, d, i);
    }
  }

  /** A directory with no tables is an ordinary frame. */
  lemma {:induction false} UndirSound(lo: nat, m: Vm, d: nat)
    requires Sound(lo, m) && IsDir(m.owner, d) && forall i: nat :: TabRef(m.mem, m.owner, d, i) < 0
    ensures Sound(lo, m.(owner := m.owner[d := Other]))
    ensures forall e: nat, v: nat :: Pte(m.mem, m.owner[d := Other], e, v) == Pte(m.mem, m.owner, e, v)
    ensures forall e: nat, i: nat :: TabRef(m.mem, m.owner[d := Other], e, i) == TabRef(m.mem, m.owner, e, i)
  {
    var o := m.owner[d := Other];
    assert forall e: nat, i: nat :: TabRef(m.mem, o, e, i) == TabRef(m.mem, m.owner, e, i);
    assert forall s: Slot :: Ref(m.mem, o, s) == Ref(m.mem, m.owner, s);
    forall g | g in o ensures OwnerOk(lo, m.mem, o, g) {
      assert OwnerOk(lo, m.mem, m.owner, g);
    }
    FewerPdes(m.mem, m.owner, m.mem, o);
  }

  // ---- page table entries ----

  const TABFLAGS: nat := 7

  /** *pde = V2P(pgtab) | PTE_P | PTE_W | PTE_U */
  function WithTab(m: Vm, d: nat, i: nat, f: nat): Vm
    requires d < |m.mem| && i < NPT && f < TOP
  {
    m.(mem := m.mem[d := m.mem[d][i := Entry(f, TABFLAGS)]], owner := m.owner[f := Tab(d, i)])
  }

  lemma {:induction false} WithTabRefs(m: Vm, d: nat, i: nat, f: nat)
    requires |m.mem| == TOP && d < TOP && i < NPT && 0 < f < TOP && f in m.owner && m.owner[f].Other?
    requires IsDir(m.owner, d) && TabRef(m.mem, m.owner, d, i) < 0 && m.mem[f] == ZeroPage()
    ensures var n := WithTab(m, d, i, f);
            forall e: nat, j: nat :: TabRef(n.mem, n.owner, e, j) == if e == d && j == i then f else TabRef(m.mem, m.owner, e, j)
  {
  }

  /** A new table: no page is mapped or unmapped by it. */
  lemma {:induction false} WithTabPtes(lo: nat, m: Vm, d: nat, i: nat, f: nat)
    requires 0 < lo && Owned(lo, m.mem, m.owner)
    requires |m.mem| == TOP && d < TOP && i < NPT && 0 < f < TOP && f in m.owner && m.owner[f].Other?
    requires IsDir(m.owner, d) && TabRef(m.mem, m.owner, d, i) < 0 && m.mem[f] == ZeroPage()
    ensures var n := WithTab(m, d, i, f); forall e: nat, v: nat :: Pte(n.mem, n.owner, e, v) == Pte(m.mem, m.owner, e, v)
    ensures var n := WithTab(m, d, i, f); Owned(lo, n.mem, n.owner)
  {
    var n := WithTab(m, d, i, f);
    WithTabRefs(m, d, i, f);
    forall e: nat, v: nat ensures Pte(n.mem, n.owner, e, v) == Pte(m.mem, m.owner, e, v) {
      var t := TabRef(m.mem, m.owner, e, v / NPT);
      assert Ref(m.mem, m.owner, Tab(e, v / NPT)) == t;
    }
    hide Pte, TabRef;
    AddRef(lo, m.mem, m.owner, n.mem, Tab(d, i), f);
  }

  lemma {:induction false} WithTabSound(lo: nat, m: Vm, d: nat, i: nat, f: nat)
    requires Sound(lo, m) && i < NPT && f in m.owner && m.owner[f].Other? && f < |m.mem| && m.mem[f] == ZeroPage()
    requires IsDir(m.owner, d) && TabRef(m.mem, m.owner, d, i) < 0
    ensures d < |m.mem| && 0 < f < TOP && Sound(lo, WithTab(m, d, i, f))
    ensures var n := WithTab(m, d, i, f);
            && (forall e: nat, v: nat :: Pte(n.mem, n.owner, e, v) == Pte(m.mem, m.owner, e, v))
            && (forall e: nat, j: nat :: TabRef(n.mem, n.owner, e, j) == if e == d && j == i then f else TabRef(m.mem, m.owner, e, j))
  {
    assert OwnerOk(lo, m.mem, m.owner, f) && OwnerOk(lo, m.mem, m.owner, d);
    WithTabRefs(m, d, i, f);
    WithTabPtes(lo, m, d, i, f);
    var n := WithTab(m, d, i, f);
    SameChain(m.mem, m.head, m.free, n.mem);
    assert Partition(lo, n.free, n.owner);
    WithTabOpen(m, d, i, f);
  }

  lemma {:induction false} WithTabOpen(m: Vm, d: nat, i: nat, f: nat)
    requires PdesOpen(m.mem, m.owner) && d < |m.mem| && i < NPT && f < TOP && f in m.owner && m.owner[f].Other?
    ensures PdesOpen(WithTab(m, d, i, f).mem, WithTab(m, d, i, f).owner)
  {
    var n := WithTab(m, d, i, f);
    forall e: nat, j: nat | Present(Pde(n.mem, n.owner, e, j)) ensures Open(Pde(n.mem, n.owner, e, j)) {
      if e == d && j == i {
        FlagBits(n.mem[d][i]);
      } else {
        assert Pde(n.mem, n.owner, e, j) == Pde(m.mem, m.owner, e, j);
      }
    }
  }

  /** The flags of an entry are its low bits. */
  lemma FlagBits(w: Word)
    ensures w % 2 == w % PGSIZE % 2 && w / 2 % 2 == w % PGSIZE / 2 % 2 && w / 4 % 2 == w % PGSIZE / 4 % 2
  {
    var q, r := w / PGSIZE, w % PGSIZE;
    assert w == 2 * (2048 * q) + r;
    LowBit(2048 * q, r);
    assert w / 2 == 2 * (1024 * q) + r / 2;
    LowBit(1024 * q, r / 2);
    assert w / 4 == w / 2 / 2 && r / 4 == r / 2 / 2;
    LowBit(512 * q, r / 4);
  }

  lemma LowBit(a: nat, r: nat)
    ensures (2 * a + r) % 2 == r % 2 && (2 * a + r) / 2 == a + r / 2
  {
  }

  /** The memory after a store to the entry of page v, whose table is frame t. */
  function PutPte(mem: seq<Page>, t: nat, v: nat, w: Word): seq<Page>
    requires t < |mem|
  {
    mem[t := mem[t][v % NPT := w]]
  }

  /** A store to an entry changes that entry and no other, in this or any address space. */
  lemma {:induction false} PutPteRefs(lo: nat, mem: seq<Page>, owner: map<nat, Slot>, owner': map<nat, Slot>, d: nat, v: nat, w: Word)
    requires Owned(lo, mem, owner) && |mem| == TOP && TabRef(mem, owner, d, v / NPT) >= 0
    requires forall e: nat :: IsDir(owner', e) <==> IsDir(owner, e)
    ensures 0 <= TabRef(mem, owner, d, v / NPT) < TOP
    ensures var mem' := PutPte(mem, TabRef(mem, owner, d, v / NPT), v, w);
            && (forall e: nat, i: nat :: TabRef(mem', owner', e, i) == TabRef(mem, owner, e, i))
            && (forall e: nat, u: nat :: Pte(mem', owner', e, u) == if e == d && u == v then w else Pte(mem, owner, e, u))
  {
    var t := TabRef(mem, owner, d, v / NPT);
    assert Ref(mem, owner, Tab(d, v / NPT)) == t;
    assert OwnerOk(lo, mem, owner, t);
    var mem' := PutPte(mem, t, v, w);
    forall e: nat, i: nat ensures TabRef(mem', owner', e, i) == TabRef(mem, owner, e, i) {
    }
    forall e: nat, u: nat ensures Pte(mem', owner', e, u) == if e == d && u == v then w else Pte(mem, owner, e, u) {
      var t' := TabRef(mem, owner, e, u / NPT);
      assert Ref(mem, owner, Tab(e, u / NPT)) == t';
      assert t' == t ==> e == d && u / NPT == v / NPT;
      assert u == u / NPT * NPT + u % NPT && v == v / NPT * NPT + v % NPT;
    }
  }

  /** Every page table entry of every directory is the same, but for that of page v of d. */
  ghost predicate PtesBut(m: Vm, n: Vm, d: nat, v: nat, w: Word) {
    && (forall e: nat, u: nat :: Pte(n.mem, n.owner, e, u) == if e == d && u == v then w else Pte(m.mem, m.owner, e, u))
    && (forall e: nat, i: nat :: TabRef(n.mem, n.owner, e, i) == TabRef(m.mem, m.owner, e, i))
  }

  lemma {:induction false} PutPteSound(lo: nat, m: Vm, owner': map<nat, Slot>, d: nat, v: nat, w: Word)
    requires Sound(lo, m) && TabRef(m.mem, m.owner, d, v / NPT) >= 0
    requires forall e: nat :: IsDir(owner', e) <==> IsDir(m.owner, e)
    ensures 0 <= TabRef(m.mem, m.owner, d, v / NPT) < TOP
    ensures var n := m.(mem := PutPte(m.mem, TabRef(m.mem, m.owner, d, v / NPT), v, w), owner := owner');
            && PtesBut(m, n, d, v, w) && Chain(n.mem, n.head, n.free) && |n.mem| == TOP && PdesOpen(n.mem, n.owner)
  {
    PutPteRefs(lo, m.mem, m.owner, owner', d, v, w);
    var t := TabRef(m.mem, m.owner, d, v / NPT);
    assert Ref(m.mem, m.owner, Tab(d, v / NPT)) == t;
    SameChain(m.mem, m.head, m.free, PutPte(m.mem, t, v, w));
    FewerPdes(m.mem, m.owner, PutPte(m.mem, t, v, w), owner');
  }

  function Store(m: Vm, d: nat, v: nat, w: Word, f: nat, s: Slot): Vm
    requires 0 <= TabRef(m.mem, m.owner, d, v / NPT) < |m.mem|
  {
    m.(mem := PutPte(m.mem, TabRef(m.mem, m.owner, d, v / NPT), v, w), owner := m.owner[f := s])
  }

  /** mappages on a user page: frame f becomes page v of d. */
  lemma {:induction false} MapUserSound(lo: nat, m: Vm, d: nat, v: nat, w: Word, f: nat)
    requires Sound(lo, m) && TabRef(m.mem, m.owner, d, v / NPT) >= 0 && v < USERPAGES
    requires !Present(Pte(m.mem, m.owner, d, v)) && Present(w) && FrameOf(w) == f
    requires f in m.owner && m.owner[f].Other?
    ensures 0 <= TabRef(m.mem, m.owner, d, v / NPT) < |m.mem|
    ensures Sound(lo, Store(m, d, v, w, f, User(d, v)))
    ensures PtesBut(m, Store(m, d, v, w, f, User(d, v)), d, v, w)
  {
    PutPteSound(lo, m, m.owner[f := User(d, v)], d, v, w);
    assert OwnerOk(lo, m.mem, m.owner, f);
    var n := Store(m, d, v, w, f, User(d, v));
    assert Partition(lo, n.free, n.owner);
    hide Chain, Partition;
    forall x: Slot ensures Ref(n.mem, n.owner, x) == if x == User(d, v) then f else Ref(m.mem, m.owner, x) {
      hide Pte, TabRef;
    }
    AddRef(lo, m.mem, m.owner, n.mem, User(d, v), f);
  }

  /** mappages on a kernel page: no frame changes hands. */
  lemma {:induction false} MapKernelSound(lo: nat, m: Vm, d: nat, v: nat, w: Word)
    requires Sound(lo, m) && TabRef(m.mem, m.owner, d, v / NPT) >= 0 && v >= USERPAGES
    ensures 0 <= TabRef(m.mem, m.owner, d, v / NPT) < |m.mem|
    ensures var n := m.(mem := PutPte(m.mem, TabRef(m.mem, m.owner, d, v / NPT), v, w));
            Sound(lo, n) && PtesBut(m, n, d, v, w)
  {
    PutPteSound(lo, m, m.owner, d, v, w);
    var n := m.(mem := PutPte(m.mem, TabRef(m.mem, m.owner, d, v / NPT), v, w));
    hide Chain, Partition;
    forall x: Slot ensures Ref(n.mem, n.owner, x) == Ref(m.mem, m.owner, x) {
      hide Pte, TabRef;
    }
    forall g | g in n.owner ensures OwnerOk(lo, n.mem, n.owner, g) {
      assert OwnerOk(lo, m.mem, m.owner, g);
    }
  }

  /** *pte = 0 on a present user page: its frame is in other use. */
  lemma {:induction false} UnmapSound(lo: nat, m: Vm, d: nat, v: nat)
    requires Sound(lo, m) && v < USERPAGES && Ref(m.mem, m.owner, User(d, v)) >= 0
    ensures 0 <= TabRef(m.mem, m.owner, d, v / NPT) < |m.mem|
    ensures Ref(m.mem, m.owner, User(d, v)) in m.owner && m.owner[Ref(m.mem, m.owner, User(d, v))] == User(d, v)
    ensures Sound(lo, Store(m, d, v, 0, Ref(m.mem, m.owner, User(d, v)), Other))
    ensures PtesBut(m, Store(m, d, v, 0, Ref(m.mem, m.owner, User(d, v)), Other), d, v, 0)
  {
    var f := Ref(m.mem, m.owner, User(d, v));
    assert m.owner[f] == User(d, v);
    PutPteSound(lo, m, m.owner[f := Other], d, v, 0);
    var n := Store(m, d, v, 0, f, Other);
    assert Partition(lo, n.free, n.owner);
    hide Chain, Partition;
    forall x: Slot ensures Ref(n.mem, n.owner, x) == if x == User(d, v) then -1 else Ref(m.mem, m.owner, x) {
      hide Pte, TabRef;
    }
    DropRef(lo, m.mem, m.owner, n.mem, User(d, v), f);
  }

  /** Clearing a directory entry whose table maps no user page. */
  function WithoutTab(m: Vm, d: nat, i: nat, f: nat): Vm
    requires d < |m.mem| && i < NPT
  {
    m.(mem := m.mem[d := m.mem[d][i := 0]], owner := m.owner[f := Other])
  }

  lemma {:induction false} WithoutTabRefs(lo: nat, m: Vm, d: nat, i: nat)
    requires Sound(lo, m) && IsDir(m.owner, d) && d < TOP && i < NPT && TabRef(m.mem, m.owner, d, i) >= 0
    ensures var n := WithoutTab(m, d, i, TabRef(m.mem, m.owner, d, i));
            && (forall e: nat, j: nat :: TabRef(n.mem, n.owner, e, j) == if e == d && j == i then -1 else TabRef(m.mem, m.owner, e, j))
            && (forall e: nat, v: nat :: Pte(n.mem, n.owner, e, v) == if e == d && v / NPT == i then 0 else Pte(m.mem, m.owner, e, v))
  {
    var f := TabRef(m.mem, m.owner, d, i);
    assert Ref(m.mem, m.owner, Tab(d, i)) == f;
    var n := WithoutTab(m, d, i, f);
    assert forall e: nat, j: nat :: TabRef(n.mem, n.owner, e, j) == if e == d && j == i then -1 else TabRef(m.mem, m.owner, e, j);
    forall e: nat, v: nat ensures Pte(n.mem, n.owner, e, v) == if e == d && v / NPT == i then 0 else Pte(m.mem, m.owner, e, v) {
      assert Ref(m.mem, m.owner, Tab(e, v / NPT)) == TabRef(m.mem, m.owner, e, v / NPT);
    }
  }

  lemma {:induction false} WithoutTabSound(lo: nat, m: Vm, d: nat, i: nat)
    requires Sound(lo, m) && IsDir(m.owner, d) && i < NPT && TabRef(m.mem, m.owner, d, i) >= 0
    requires forall v: nat | v < USERPAGES && v / NPT == i :: !Present(Pte(m.mem, m.owner, d, v))
    ensures d < |m.mem| && Sound(lo, WithoutTab(m, d, i, TabRef(m.mem, m.owner, d, i)))
    ensures TabRef(m.mem, m.owner, d, i) in m.owner && m.owner[TabRef(m.mem, m.owner, d, i)] == Tab(d, i)
    ensures var n := WithoutTab(m, d, i, TabRef(m.mem, m.owner, d, i));
            && (forall e: nat, j: nat :: TabRef(n.mem, n.owner, e, j) == if e == d && j == i then -1 else TabRef(m.mem, m.owner, e, j))
            && (forall e: nat, v: nat :: Pte(n.mem, n.owner, e, v) == if e == d && v / NPT == i then 0 else Pte(m.mem, m.owner, e, v))
  {
    assert OwnerOk(lo, m.mem, m.owner, d);
    WithoutTabRefs(lo, m, d, i);
    var f := TabRef(m.mem, m.owner, d, i);
    assert Ref(m.mem, m.owner, Tab(d, i)) == f;
    var n := WithoutTab(m, d, i, f);
    assert Partition(lo, n.free, n.owner);
    FewerPdes(m.mem, m.owner, n.mem, n.owner);
    SameChain(m.mem, m.head, m.free, n.mem);
    hide Chain, Partition;
    forall x: Slot ensures Ref(n.mem, n.owner, x) == if x == Tab(d, i) then -1 else Ref(m.mem, m.owner, x) {
      hide Pte, TabRef;
    }
    DropRef(lo, m.mem, m.owner, n.mem, Tab(d, i), f);
  }

  // ---- what user code may do ----

  datatype Access = Access(read: bool, write: bool)

  /** The rights of user code to page u: the processor asks both levels. */
  function Rights(m: Vm, d: nat, u: nat): Access {
    var e, w := Pde(m.mem, m.owner, d, u / NPT), Pte(m.mem, m.owner, d, u);
    var seen := Present(e) && Present(w) && e / 4 % 2 == 1 && w / 4 % 2 == 1;
    Access(seen, seen && e / 2 % 2 == 1 && w / 2 % 2 == 1)
  }

  /** In a sound state the page table entry alone decides. */
  lemma {:induction false} RightsOf(lo: nat, m: Vm, d: nat, u: nat)
    requires Sound(lo, m)
    ensures var w := Pte(m.mem, m.owner, d, u);
            Rights(m, d, u) == Access(Present(w) && w / 4 % 2 == 1, Present(w) && w / 4 % 2 == 1 && w / 2 % 2 == 1)
  {
    var e := Pde(m.mem, m.owner, d, u / NPT);
    if Present(Pte(m.mem, m.owner, d, u)) {
      assert TabRef(m.mem, m.owner, d, u / NPT) >= 0;
      assert Present(e) && Open(e);
    }
  }

  /** Equal flags give equal rights. */
  lemma {:induction false} SameRights(lo: nat, m: Vm, n: Vm, p: nat, d: nat, u: nat)
    requires Sound(lo, m) && Sound(lo, n)
    requires Pte(n.mem, n.owner, d, u) % PGSIZE == Pte(m.mem, m.owner, p, u) % PGSIZE
    ensures Rights(n, d, u) == Rights(m, p, u)
  {
    RightsOf(lo, m, p, u);
    RightsOf(lo, n, d, u);
    FlagBits(Pte(n.mem, n.owner, d, u));
    FlagBits(Pte(m.mem, m.owner, p, u));
  }

  // ---- walkpgdir and mappages ----

  /** The frames of other uses, and all their contents but for the tables of d, are as before. */
  ghost predicate Kept(m: Vm, n: Vm, d: nat) {
    forall f | f in m.owner ::
      && f in n.owner && n.owner[f] == m.owner[f] && f < |m.mem| && f < |n.mem|
      && (f == d || (m.owner[f].Tab? && m.owner[f].d == d) || n.mem[f] == m.mem[f])
  }

  /** walkpgdir's new table: a zeroed frame. */
  function Tabled(m: Vm, d: nat, i: nat): Vm
    requires |m.free| > 0 && m.free[0] < |m.mem| && m.free[0] < TOP && d < |m.mem| && i < NPT
  {
    var n := Took(m);
    WithTab(n.(mem := n.mem[m.free[0] := ZeroPage()]), d, i, m.free[0])
  }

  lemma {:induction false} TookRefs(lo: nat, m: Vm)
    requires Sound(lo, m) && |m.free| > 0
    ensures lo <= m.free[0] < |m.mem| == TOP && m.free[0] !in m.owner
    ensures forall e: nat, v: nat :: Pte(m.mem, Took(m).owner, e, v) == Pte(m.mem, m.owner, e, v)
    ensures forall e: nat, i: nat :: TabRef(m.mem, Took(m).owner, e, i) == TabRef(m.mem, m.owner, e, i)
  {
  }

  /** A frame taken from the free list and filled: nothing else changes. */
  lemma {:induction false} TookFilled(lo: nat, m: Vm, page: Page)
    requires Sound(lo, m) && |m.free| > 0
    ensures lo <= m.free[0] < |m.mem| == TOP && m.free[0] !in m.owner
    ensures var n := Took(m).(mem := m.mem[m.free[0] := page]);
            && Sound(lo, n)
            && (forall e: nat, v: nat :: Pte(n.mem, n.owner, e, v) == Pte(m.mem, m.owner, e, v))
            && (forall e: nat, i: nat :: TabRef(n.mem, n.owner, e, i) == TabRef(m.mem, m.owner, e, i))
            && (forall f | f in m.owner :: f in n.owner && n.owner[f] == m.owner[f] && f < TOP && n.mem[f] == m.mem[f])
  {
    TookRefs(lo, m);
    TookSound(lo, m);
    FilledSound(lo, Took(m), m.free[0], page);
    assert forall g | g in m.owner :: OwnerOk(lo, m.mem, m.owner, g);
  }

  lemma {:induction false} TabledSound(lo: nat, m: Vm, d: nat, i: nat)
    requires Sound(lo, m) && |m.free| > 0 && IsDir(m.owner, d) && i < NPT && TabRef(m.mem, m.owner, d, i) < 0
    ensures 0 < m.free[0] < |m.mem| == TOP && d < TOP && Sound(lo, Tabled(m, d, i)) && m.free[0] !in m.owner
    ensures var n := Tabled(m, d, i);
            && (forall e: nat, v: nat :: Pte(n.mem, n.owner, e, v) == Pte(m.mem, m.owner, e, v))
            && (forall e: nat, j: nat :: TabRef(n.mem, n.owner, e, j) == if e == d && j == i then m.free[0] else TabRef(m.mem, m.owner, e, j))
    ensures Kept(m, Tabled(m, d, i), d)
  {
    assert OwnerOk(lo, m.mem, m.owner, d);
    TookFilled(lo, m, ZeroPage());
    var n := Took(m).(mem := m.mem[m.free[0] := ZeroPage()]);
    WithTabSound(lo, n, d, i, m.free[0]);
  }

  /** One iteration of mappages that finds or makes the table. */
  function Mapped(m: Vm, d: nat, v: nat, w: Word): Vm {
    var t := TabRef(m.mem, m.owner, d, v / NPT);
    var n := if t < 0 && |m.free| > 0 && m.free[0] < |m.mem| && m.free[0] < TOP && d < |m.mem| && v / NPT < NPT
             then Tabled(m, d, v / NPT) else m;
    if !(0 <= TabRef(n.mem, n.owner, d, v / NPT) < |n.mem|) then n
    else n.(mem := PutPte(n.mem, TabRef(n.mem, n.owner, d, v / NPT), v, w),
            owner := if v < USERPAGES then n.owner[FrameOf(w) := User(d, v)] else n.owner)
  }

  /** What mapping page v of d does to the machine. */
  ghost predicate MapsPage(m: Vm, n: Vm, d: nat, v: nat, w: Word) {
    && (forall e: nat, u: nat :: Pte(n.mem, n.owner, e, u) == if e == d && u == v then w else Pte(m.mem, m.owner, e, u))
    && (forall e: nat, i: nat | !(e == d && i == v / NPT) :: TabRef(n.mem, n.owner, e, i) == TabRef(m.mem, m.owner, e, i))
    && TabRef(n.mem, n.owner, d, v / NPT) >= 0
    && (forall f | f in m.owner :: f in n.owner && ((v < USERPAGES && f == FrameOf(w)) || n.owner[f] == m.owner[f]))
    && (forall f | f in m.owner :: f < |m.mem| && f < |n.mem| &&
          (f == d || (m.owner[f].Tab? && m.owner[f].d == d) || n.mem[f] == m.mem[f]))
    && (forall f | f in n.owner && f !in m.owner :: n.owner[f] == Tab(d, v / NPT))
    && (v < USERPAGES ==> FrameOf(w) in n.owner && n.owner[FrameOf(w)] == User(d, v))
    && |n.free| == |m.free| - (if TabRef(m.mem, m.owner, d, v / NPT) < 0 then 1 else 0)
  }

  lemma {:induction false} StoreMaps(lo: nat, m: Vm, d: nat, v: nat, w: Word)
    requires Sound(lo, m) && v < ALLPAGES && TabRef(m.mem, m.owner, d, v / NPT) >= 0 && Present(w)
    requires !Present(Pte(m.mem, m.owner, d, v))
    requires v < USERPAGES ==> FrameOf(w) in m.owner && m.owner[FrameOf(w)].Other?
    ensures Sound(lo, Mapped(m, d, v, w)) && MapsPage(m, Mapped(m, d, v, w), d, v, w)
  {
    var t := TabRef(m.mem, m.owner, d, v / NPT);
    assert Ref(m.mem, m.owner, Tab(d, v / NPT)) == t;
    assert forall g | g in m.owner :: OwnerOk(lo, m.mem, m.owner, g);
    if v < USERPAGES {
      MapUserSound(lo, m, d, v, w, FrameOf(w));
    } else {
      MapKernelSound(lo, m, d, v, w);
    }
  }

  lemma {:induction false} MappedMaps(lo: nat, m: Vm, d: nat, v: nat, w: Word)
    requires Sound(lo, m) && v < ALLPAGES && IsDir(m.owner, d) && Present(w)
    requires TabRef(m.mem, m.owner, d, v / NPT) >= 0 || |m.free| > 0
    requires !Present(Pte(m.mem, m.owner, d, v))
    requires v < USERPAGES ==> FrameOf(w) in m.owner && m.owner[FrameOf(w)].Other?
    ensures Sound(lo, Mapped(m, d, v, w)) && MapsPage(m, Mapped(m, d, v, w), d, v, w)
  {
    if TabRef(m.mem, m.owner, d, v / NPT) >= 0 {
      StoreMaps(lo, m, d, v, w);
    } else {
      TabledSound(lo, m, d, v / NPT);
      var n := Tabled(m, d, v / NPT);
      StoreMaps(lo, n, d, v, w);
    }
  }

  // ---- deallocuvm ----

  predicate PageIn(s: Slot, d: nat, a: int, b: int) {
    s.User? && s.d == d && a <= s.v < b
  }

  /** The user pages a .. b-1 of d are gone and their frames are free; nothing else changed. */
  ghost predicate Shrunk(m: Vm, n: Vm, d: nat, a: int, b: int) {
    && (forall e: nat, u: nat :: Pte(n.mem, n.owner, e, u) ==
          if e == d && a <= u < b && Present(Pte(m.mem, m.owner, e, u)) then 0 else Pte(m.mem, m.owner, e, u))
    && (forall e: nat, i: nat :: TabRef(n.mem, n.owner, e, i) == TabRef(m.mem, m.owner, e, i))
    && Freed(m, n, d, a, b)
  }

  /** Exactly the frames of those pages have lost their owner. */
  ghost predicate Freed(m: Vm, n: Vm, d: nat, a: int, b: int) {
    && (forall f | f in m.owner :: f in n.owner <==> !PageIn(m.owner[f], d, a, b))
    && (forall f | f in n.owner ::
          && f in m.owner && n.owner[f] == m.owner[f] && f < |n.mem| && f < |m.mem|
          && ((n.owner[f].Tab? && n.owner[f].d == d) || n.mem[f] == m.mem[f]))
  }

  lemma {:induction false} ShrunkNone(lo: nat, m: Vm, d: nat, a: int)
    requires Sound(lo, m)
    ensures Shrunk(m, m, d, a, a)
  {
  }

  /** Pages that are not mapped are unmapped. */
  lemma {:induction false} ShrunkSkip(lo: nat, m: Vm, n: Vm, d: nat, a: int, v: int, b: int)
    requires Sound(lo, m) && Shrunk(m, n, d, a, v) && v <= b
    requires forall u: nat | v <= u < b :: !Present(Pte(n.mem, n.owner, d, u))
    ensures Shrunk(m, n, d, a, b)
  {
  }

  /** kfree of the page's frame, and *pte = 0. */
  function Unmapped(m: Vm, d: nat, v: nat): Vm {
    var t := TabRef(m.mem, m.owner, d, v / NPT);
    var f := Ref(m.mem, m.owner, User(d, v));
    if 0 <= t < |m.mem| && 0 <= f < |m.mem| then Dropped(Store(m, d, v, 0, f, Other), f) else m
  }

  lemma {:induction false} UnmappedSound(lo: nat, m: Vm, d: nat, v: nat)
    requires Sound(lo, m) && v < USERPAGES && Ref(m.mem, m.owner, User(d, v)) >= 0
    ensures Sound(lo, Unmapped(m, d, v)) && Shrunk(m, Unmapped(m, d, v), d, v, v + 1)
  {
    var f := Ref(m.mem, m.owner, User(d, v));
    UnmapSound(lo, m, d, v);
    var n := Store(m, d, v, 0, f, Other);
    DroppedSound(lo, n, f);
    DroppedRefs(lo, n, f);
    UnmappedFreed(lo, m, d, v);
    assert Present(Pte(m.mem, m.owner, d, v));
    assert f < |m.mem|;
    hide Pte, TabRef, Sound, Freed, Dropped, Store, Ref;
  }

  lemma {:induction false} UnmappedFreed(lo: nat, m: Vm, d: nat, v: nat)
    requires Sound(lo, m) && v < USERPAGES && Ref(m.mem, m.owner, User(d, v)) >= 0
    ensures Freed(m, Unmapped(m, d, v), d, v, v + 1)
  {
    var f := Ref(m.mem, m.owner, User(d, v));
    var t := TabRef(m.mem, m.owner, d, v / NPT);
    assert Ref(m.mem, m.owner, Tab(d, v / NPT)) == t;
    assert m.owner[f] == User(d, v) && m.owner[t] == Tab(d, v / NPT);
    assert forall g | g in m.owner :: OwnerOk(lo, m.mem, m.owner, g);
    forall g | g in m.owner ensures g in Unmapped(m, d, v).owner <==> !PageIn(m.owner[g], d, v, v + 1) {
      assert m.owner[g] == User(d, v) ==> Ref(m.mem, m.owner, m.owner[g]) == g;
    }
    hide Pte, TabRef, Sound;
  }

  lemma {:induction false} DroppedRefs(lo: nat, m: Vm, f: nat)
    requires Sound(lo, m) && f in m.owner && m.owner[f] == Other
    ensures f < |m.mem|
    ensures forall e: nat, v: nat :: Pte(Dropped(m, f).mem, Dropped(m, f).owner, e, v) == Pte(m.mem, m.owner, e, v)
    ensures forall e: nat, i: nat :: TabRef(Dropped(m, f).mem, Dropped(m, f).owner, e, i) == TabRef(m.mem, m.owner, e, i)
  {
    var n := Dropped(m, f);
    assert forall g | g in m.owner :: OwnerOk(lo, m.mem, m.owner, g);
    SameRefs(lo, m.mem, m.owner, n.mem, n.owner);
  }

  lemma {:induction false} ShrunkMore(m: Vm, n: Vm, o: Vm, d: nat, a: int, v: int, b: int)
    requires Shrunk(m, n, d, a, v) && Shrunk(n, o, d, v, b) && a <= v <= b
    ensures Shrunk(m, o, d, a, b)
  {
  }

  // ---- how many frames a mapping takes ----

  /** The tables that the pages a .. b-1 of d lack, counted at the first page of each. */
  function Tables(m: Vm, d: nat, a: nat, b: nat): nat
    decreases b - a
  {
    if a >= b then 0
    else (if a % NPT == 0 && TabRef(m.mem, m.owner, d, a / NPT) < 0 then 1 else 0) + Tables(m, d, a + 1, b)
  }

  /** All the tables that they lack: the first page may be inside one. */
  function Lacking(m: Vm, d: nat, a: nat, b: nat): nat {
    Tables(m, d, a, b) + (if a < b && a % NPT != 0 && TabRef(m.mem, m.owner, d, a / NPT) < 0 then 1 else 0)
  }

  lemma {:induction false} TablesSame(m: Vm, n: Vm, d: nat, i: nat, a: nat, b: nat)
    requires forall j: nat | j != i :: TabRef(n.mem, n.owner, d, j) == TabRef(m.mem, m.owner, d, j)
    requires (a - 1) / NPT >= i
    ensures Tables(n, d, a, b) == Tables(m, d, a, b)
    decreases b - a
  {
    if a < b {
      assert a % NPT == 0 ==> a / NPT != i by {
        if a % NPT == 0 && a > 0 {
          assert (a - 1) / NPT == a / NPT - 1;
        }
      }
      hide TabRef;
      TablesSame(m, n, d, i, a + 1, b);
    }
  }

  /** Mapping page a takes one table if it lacks one, and leaves the rest to pay for. */
  lemma {:induction false} LackingStep(m: Vm, n: Vm, d: nat, a: nat, b: nat)
    requires a < b && TabRef(n.mem, n.owner, d, a / NPT) >= 0
    requires forall j: nat | j != a / NPT :: TabRef(n.mem, n.owner, d, j) == TabRef(m.mem, m.owner, d, j)
    ensures Lacking(m, d, a, b) == Lacking(n, d, a + 1, b) + (if TabRef(m.mem, m.owner, d, a / NPT) < 0 then 1 else 0)
  {
    TablesSame(m, n, d, a / NPT, a + 1, b);
    assert (a + 1) % NPT != 0 ==> (a + 1) / NPT == a / NPT;
    hide TabRef;
  }

  /** How many multiples of 1024 there are in a .. b-1. */
  function Boundaries(a: nat, b: nat): int {
    (b + NPT - 1) / NPT - (a + NPT - 1) / NPT
  }

  /** With no table there yet, each boundary in the range takes one. */
  lemma {:induction false} TablesAll(m: Vm, d: nat, a: nat, b: nat)
    requires a <= b && forall j: nat | a <= j * NPT < b :: TabRef(m.mem, m.owner, d, j) < 0
    ensures Tables(m, d, a, b) == Boundaries(a, b)
    decreases b - a
  {
    if a < b {
      assert a % NPT == 0 ==> a / NPT * NPT == a;
      hide TabRef;
      TablesAll(m, d, a + 1, b);
      assert a % NPT == 0 ==> (a + 1 + NPT - 1) / NPT == (a + NPT - 1) / NPT + 1;
      assert a % NPT != 0 ==> (a + 1 + NPT - 1) / NPT == (a + NPT - 1) / NPT;
    }
  }

  // ---- freevm ----

  predicate Belongs(s: Slot, f: nat, d: nat) {
    f == d || (s.Tab? && s.d == d) || (s.User? && s.d == d)
  }

  /** The directory d, its tables and its user frames are free; nothing else changed. */
  ghost predicate Gone(m: Vm, n: Vm, d: nat) {
    && (forall f | f in m.owner :: f in n.owner <==> !Belongs(m.owner[f], f, d))
    && (forall f | f in n.owner ::
          f in m.owner && n.owner[f] == m.owner[f] && f < |m.mem| && f < |n.mem| && n.mem[f] == m.mem[f])
  }

  ghost predicate NoUserPages(mem: seq<Page>, owner: map<nat, Slot>, d: nat) {
    forall v: nat | v < USERPAGES :: !Present(Pte(mem, owner, d, v))
  }

  function ClearFirst(p: Page, k: nat): (r: Page)
    ensures forall i: nat | i < NPT :: r[i] == if i < k then 0 else p[i]
  {
    seq(NPT, i requires 0 <= i < NPT => if i < k then 0 else p[i])
  }

  /** freevm's loop over the directory: with the entries below k cleared, which the
      code does not bother to do, the state would be sound. */
  ghost predicate Tearing(lo: nat, m: Vm, n: Vm, d: nat, k: nat) {
    && d < |n.mem| && IsDir(n.owner, d)
    && Sound(lo, n.(mem := n.mem[d := ClearFirst(n.mem[d], k)]))
    && NoUserPages(n.mem[d := ClearFirst(n.mem[d], k)], n.owner, d)
    && Remaining(m, n, d)
  }

  /** Only frames of d have lost their owner. */
  ghost predicate Remaining(m: Vm, n: Vm, d: nat) {
    && (forall f | f in m.owner :: f in n.owner || Belongs(m.owner[f], f, d))
    && (forall f | f in n.owner ::
          && f in m.owner && n.owner[f] == m.owner[f] && f < |m.mem| && f < |n.mem|
          && (Belongs(m.owner[f], f, d) || n.mem[f] == m.mem[f]))
  }

  lemma {:induction false} TearStart(lo: nat, m: Vm, n: Vm, d: nat)
    requires Sound(lo, m) && Sound(lo, n) && IsDir(m.owner, d) && Shrunk(m, n, d, 0, USERPAGES)
    ensures Tearing(lo, m, n, d, 0)
  {
    assert OwnerOk(lo, m.mem, m.owner, d);
    assert ClearFirst(n.mem[d], 0) == n.mem[d];
    assert n.mem[d := ClearFirst(n.mem[d], 0)] == n.mem;
    assert NoUserPages(n.mem, n.owner, d);
    assert Remaining(m, n, d) by { hide Sound, Pte, TabRef, OwnerOk; }
    hide Sound, Pte, TabRef, Remaining, NoUserPages;
  }

  /** A directory entry that is not present has no table to free. */
  lemma {:induction false} TearSkip(lo: nat, m: Vm, n: Vm, d: nat, k: nat)
    requires Tearing(lo, m, n, d, k) && k < NPT && !Present(n.mem[d][k])
    ensures Tearing(lo, m, n, d, k + 1)
  {
    var c, c' := ClearFirst(n.mem[d], k), ClearFirst(n.mem[d], k + 1);
    var mem, mem' := n.mem[d := c], n.mem[d := c'];
    assert forall e: nat, i: nat :: TabRef(mem', n.owner, e, i) == TabRef(mem, n.owner, e, i);
    var x, y := n.(mem := mem), n.(mem := mem');
    TearSame(lo, x, y, d);
  }

  lemma {:induction false} TearSame(lo: nat, x: Vm, y: Vm, d: nat)
    requires Sound(lo, x) && IsDir(x.owner, d) && d < |x.mem| == |y.mem| && y == x.(mem := x.mem[d := y.mem[d]])
    requires forall e: nat, i: nat :: TabRef(y.mem, y.owner, e, i) == TabRef(x.mem, x.owner, e, i)
    requires forall i: nat | i < NPT :: y.mem[d][i] == x.mem[d][i] || y.mem[d][i] == 0
    ensures Sound(lo, y)
    ensures forall e: nat, v: nat :: Pte(y.mem, y.owner, e, v) == Pte(x.mem, x.owner, e, v)
  {
    forall e: nat, v: nat ensures Pte(y.mem, y.owner, e, v) == Pte(x.mem, x.owner, e, v) {
      assert Ref(x.mem, x.owner, Tab(e, v / NPT)) == TabRef(x.mem, x.owner, e, v / NPT);
    }
    hide TabRef, Pte;
    assert forall s: Slot :: Ref(y.mem, y.owner, s) == Ref(x.mem, x.owner, s);
    forall g | g in y.owner ensures OwnerOk(lo, y.mem, y.owner, g) {
      assert OwnerOk(lo, x.mem, x.owner, g);
    }
    SameChain(x.mem, x.head, x.free, y.mem);
    FewerPdes(x.mem, x.owner, y.mem, y.owner);
  }

  lemma {:induction false} TearRemaining(m: Vm, n: Vm, d: nat, k: nat, t: nat)
    requires Remaining(m, n, d) && t in n.owner && n.owner[t] == Tab(d, k) && t < |n.mem|
    ensures Remaining(m, Dropped(n, t), d)
  {
  }

  lemma {:induction false} TearTable(lo: nat, m: Vm, n: Vm, d: nat, k: nat)
    requires Tearing(lo, m, n, d, k) && k < NPT && Present(n.mem[d][k])
    ensures lo <= FrameOf(n.mem[d][k]) < TOP && FrameOf(n.mem[d][k]) != d
    ensures Tearing(lo, m, Dropped(n, FrameOf(n.mem[d][k])), d, k + 1)
  {
    hide Remaining;
    var t := FrameOf(n.mem[d][k]);
    var c, c' := ClearFirst(n.mem[d], k), ClearFirst(n.mem[d], k + 1);
    var x := n.(mem := n.mem[d := c]);
    assert x.mem[d][k] == n.mem[d][k];
    assert TabRef(x.mem, x.owner, d, k) == t;
    WithoutTabSound(lo, x, d, k);
    var z := WithoutTab(x, d, k, t);
    assert c[k := 0] == c';
    DroppedSound(lo, z, t);
    DroppedRefs(lo, z, t);
    var o := Dropped(n, t);
    var w := o.(mem := o.mem[d := ClearFirst(o.mem[d], k + 1)]);
    assert w.mem == Dropped(z, t).mem;
    assert w == Dropped(z, t) by {
      assert z.owner - {t} == n.owner - {t};
    }
    assert NoUserPages(w.mem, w.owner, d) by { hide Sound, TabRef, Dropped, WithoutTab; }
    TearRemaining(m, n, d, k, t);
  }

  /** The loop's end, and the kfree of the directory. */
  lemma {:induction false} TearEnd(lo: nat, m: Vm, n: Vm, d: nat)
    requires Tearing(lo, m, n, d, NPT)
    ensures lo <= d < TOP && Sound(lo, Dropped(n, d)) && Gone(m, Dropped(n, d), d)
  {
    var x := n.(mem := n.mem[d := ClearFirst(n.mem[d], NPT)]);
    assert OwnerOk(lo, x.mem, x.owner, d);
    assert forall i: nat :: TabRef(x.mem, x.owner, d, i) < 0;
    UndirSound(lo, x, d);
    var y := x.(owner := x.owner[d := Other]);
    DroppedSound(lo, y, d);
    assert Dropped(y, d).mem == Dropped(n, d).mem;
    assert y.owner - {d} == n.owner - {d};
    TearGone(lo, m, n, d, x);
  }

  /** With its directory empty, no frame is a table or a page of d. */
  lemma {:induction false} TearGone(lo: nat, m: Vm, n: Vm, d: nat, x: Vm)
    requires Tearing(lo, m, n, d, NPT) && x == n.(mem := n.mem[d := ClearFirst(n.mem[d], NPT)])
    ensures Gone(m, Dropped(n, d), d)
  {
    forall f | f in n.owner ensures Belongs(n.owner[f], f, d) ==> f == d {
      assert OwnerOk(lo, x.mem, x.owner, f);
    }
    hide Sound, Pte, TabRef, NoUserPages;
  }

  // ---- growing an address space ----

  /** Pages a .. v-1 of d are mapped to frames that m had free; h are frames taken and
      not mapped yet.  Everything else is as in m, but for new tables of d. */
  ghost predicate Grown(m: Vm, n: Vm, d: nat, a: nat, v: nat, h: set<nat>) {
    && (forall e: nat, u: nat | !(e == d && a <= u < v) :: Pte(n.mem, n.owner, e, u) == Pte(m.mem, m.owner, e, u))
    && (forall u: nat | a <= u < v :: Present(Pte(n.mem, n.owner, d, u)) && FrameOf(Pte(n.mem, n.owner, d, u)) !in m.owner)
    && Kept(m, n, d)
    && (forall f | f in n.owner && f !in m.owner :: IsNew(n.owner[f], f, d, a, v, h))
    && (forall f | f in h :: f in n.owner && n.owner[f].Other? && f !in m.owner)
  }

  predicate IsNew(s: Slot, f: nat, d: nat, a: nat, v: nat, h: set<nat>) {
    (s.Tab? && s.d == d) || PageIn(s, d, a, v) || (s.Other? && f in h)
  }

  lemma {:induction false} GrownNone(lo: nat, m: Vm, d: nat, a: nat)
    requires Sound(lo, m)
    ensures Grown(m, m, d, a, a, {})
  {
  }

  lemma {:induction false} GrownTake(lo: nat, m: Vm, n: Vm, d: nat, a: nat, v: nat, page: Page)
    requires Sound(lo, n) && Grown(m, n, d, a, v, {}) && |n.free| > 0
    ensures n.free[0] < |n.mem|
    ensures Grown(m, Took(n).(mem := n.mem[n.free[0] := page]), d, a, v, {n.free[0]})
  {
    TookFilled(lo, n, page);
    hide Sound, Pte, TabRef;
  }

  lemma {:induction false} GrownMap(m: Vm, n: Vm, o: Vm, d: nat, a: nat, v: nat, w: Word)
    requires Grown(m, n, d, a, v, {FrameOf(w)}) && MapsPage(n, o, d, v, w) && a <= v < USERPAGES && Present(w)
    ensures Grown(m, o, d, a, v + 1, {})
  {
    hide Pte, TabRef;
    assert Kept(m, o, d) by {
      forall f | f in m.owner
        ensures f in o.owner && o.owner[f] == m.owner[f] && f < |m.mem| && f < |o.mem|
             && (f == d || (m.owner[f].Tab? && m.owner[f].d == d) || o.mem[f] == m.mem[f])
      {
        assert f in n.owner && f != FrameOf(w);
      }
    }
  }

  /** The state of m, but that d may have more tables, and h is still taken. */
  ghost predicate Restored(m: Vm, n: Vm, d: nat, h: set<nat>) {
    && (forall e: nat, u: nat | Present(Pte(m.mem, m.owner, e, u)) || Present(Pte(n.mem, n.owner, e, u)) ::
          Pte(n.mem, n.owner, e, u) == Pte(m.mem, m.owner, e, u))
    && Kept(m, n, d)
    && (forall f | f in n.owner && f !in m.owner :: (n.owner[f].Tab? && n.owner[f].d == d) || f in h)
    && (forall f | f in h :: f in n.owner && n.owner[f].Other? && f !in m.owner)
  }

  ghost predicate Vacant(m: Vm, d: nat, a: int, b: int) {
    forall u: nat | a <= u < b :: !Present(Pte(m.mem, m.owner, d, u))
  }

  /** allocuvm's rollback. */
  lemma {:induction false} Rollback(lo: nat, m: Vm, n: Vm, o: Vm, d: nat, a: nat, v: nat, b: nat, h: set<nat>)
    requires Sound(lo, m) && Vacant(m, d, a, b) && Grown(m, n, d, a, v, h) && Shrunk(n, o, d, a, b) && v <= b
    ensures Restored(m, o, d, h)
  {
    assert forall f | f in m.owner :: !PageIn(m.owner[f], d, a, b) by {
      forall f | f in m.owner ensures !PageIn(m.owner[f], d, a, b) {
        assert OwnerOk(lo, m.mem, m.owner, f);
      }
    }
    RollbackPtes(m, n, o, d, a, v, b, h);
    hide Pte, TabRef, Sound;
    assert Kept(m, o, d);
  }

  lemma {:induction false} RollbackPtes(m: Vm, n: Vm, o: Vm, d: nat, a: nat, v: nat, b: nat, h: set<nat>)
    requires Vacant(m, d, a, b) && Grown(m, n, d, a, v, h) && Shrunk(n, o, d, a, b) && v <= b
    ensures forall e: nat, u: nat | Present(Pte(m.mem, m.owner, e, u)) || Present(Pte(o.mem, o.owner, e, u)) ::
              Pte(o.mem, o.owner, e, u) == Pte(m.mem, m.owner, e, u)
  {
  }

  lemma {:induction false} RestoredDrop(lo: nat, m: Vm, n: Vm, d: nat, f: nat)
    requires Sound(lo, n) && Restored(m, n, d, {f})
    ensures f < |n.mem| && Restored(m, Dropped(n, f), d, {})
  {
    DroppedRefs(lo, n, f);
    hide Pte, TabRef, Sound;
  }

  /** The user pages that are mapped in n are mapped in o, to the same contents. */
  ghost predicate PagesKept(n: Vm, o: Vm) {
    forall e: nat, u: nat | u < USERPAGES && Present(Pte(n.mem, n.owner, e, u)) ::
      PageKept(n, o, e, u)
  }

  ghost predicate PageKept(n: Vm, o: Vm, e: nat, u: nat) {
    var w := Pte(n.mem, n.owner, e, u);
    Pte(o.mem, o.owner, e, u) == w && FrameOf(w) < |n.mem| && FrameOf(w) < |o.mem| && o.mem[FrameOf(w)] == n.mem[FrameOf(w)]
  }

  lemma {:induction false} MapsPageKeepsPages(lo: nat, n: Vm, o: Vm, d: nat, v: nat, w: Word)
    requires Sound(lo, n) && MapsPage(n, o, d, v, w) && !Present(Pte(n.mem, n.owner, d, v))
    ensures PagesKept(n, o)
  {
    forall e: nat, u: nat | u < USERPAGES && Present(Pte(n.mem, n.owner, e, u)) ensures PageKept(n, o, e, u) {
      assert Ref(n.mem, n.owner, User(e, u)) == FrameOf(Pte(n.mem, n.owner, e, u));
      assert OwnerOk(lo, n.mem, n.owner, d) || d !in n.owner;
      hide Pte, TabRef;
    }
  }

  lemma {:induction false} TookKeepsPages(lo: nat, n: Vm, page: Page)
    requires Sound(lo, n) && |n.free| > 0
    ensures n.free[0] < |n.mem| && PagesKept(n, Took(n).(mem := n.mem[n.free[0] := page]))
  {
    TookFilled(lo, n, page);
    var o := Took(n).(mem := n.mem[n.free[0] := page]);
    forall e: nat, u: nat | u < USERPAGES && Present(Pte(n.mem, n.owner, e, u)) ensures PageKept(n, o, e, u) {
      assert Ref(n.mem, n.owner, User(e, u)) == FrameOf(Pte(n.mem, n.owner, e, u));
      hide Pte, TabRef;
    }
  }

  /** flags | PTE_P */
  function OrPresent(flags: nat): (r: nat)
    ensures r % 2 == 1 && (flags < PGSIZE ==> r < PGSIZE) && (flags % 2 == 1 ==> r == flags)
  {
    if flags % 2 == 1 then flags else flags + 1
  }

  /** kalloc and the fill of the new frame. */
  function Filled(n: Vm, page: Page): Vm {
    if |n.free| > 0 && n.free[0] < |n.mem| then Took(n).(mem := n.mem[n.free[0] := page]) else n
  }

  /** The entry for the frame that kalloc gives. */
  function NewEntry(n: Vm, flags: nat): Word {
    if |n.free| > 0 && n.free[0] < TOP && flags < PGSIZE then Entry(n.free[0], OrPresent(flags)) else 1
  }

  /** A user page added: kalloc, fill, mappages. */
  function Added(n: Vm, d: nat, v: nat, page: Page, flags: nat): Vm {
    Mapped(Filled(n, page), d, v, NewEntry(n, flags))
  }

  function TablesFor(n: Vm, d: nat, v: nat): nat {
    if TabRef(n.mem, n.owner, d, v / NPT) < 0 then 1 else 0
  }

  lemma {:induction false} FilledFacts(lo: nat, n: Vm, d: nat, v: nat, page: Page, flags: nat)
    requires Sound(lo, n) && |n.free| > 0 && flags < PGSIZE && IsDir(n.owner, d)
    ensures var f := n.free[0]; var o := Filled(n, page); var w := NewEntry(n, flags);
            && Sound(lo, o) && f < |o.mem| && FrameOf(w) == f && Present(w) && w % PGSIZE == OrPresent(flags) && o.mem[f] == page
            && f in o.owner && o.owner[f].Other? && |o.free| == |n.free| - 1 && f !in n.owner && IsDir(o.owner, d)
            && Pte(o.mem, o.owner, d, v) == Pte(n.mem, n.owner, d, v)
            && (forall i: nat :: TabRef(o.mem, o.owner, d, i) == TabRef(n.mem, n.owner, d, i))
  {
    TookFilled(lo, n, page);
    hide Sound, Pte, TabRef;
    var w := NewEntry(n, flags);
    assert w % PGSIZE % 2 == 1;
    assert w == w / PGSIZE * PGSIZE + w % PGSIZE;
    assert Present(w);
  }

  lemma {:induction false} AddedFacts(lo: nat, n: Vm, d: nat, v: nat, page: Page, flags: nat)
    requires Sound(lo, n) && |n.free| >= 1 + TablesFor(n, d, v) && flags < PGSIZE && IsDir(n.owner, d)
    requires v < USERPAGES && !Present(Pte(n.mem, n.owner, d, v))
    ensures var o := Added(n, d, v, page, flags); var w := NewEntry(n, flags);
            && Sound(lo, o) && IsDir(o.owner, d) && MapsPage(Filled(n, page), o, d, v, w)
            && Present(w) && w % PGSIZE == OrPresent(flags)
            && Pte(o.mem, o.owner, d, v) == w && FrameOf(w) < |o.mem| && o.mem[FrameOf(w)] == page
  {
    FilledFacts(lo, n, d, v, page, flags);
    var x := Filled(n, page);
    var w := NewEntry(n, flags);
    hide Filled, NewEntry, Pte;
    MappedMaps(lo, x, d, v, w);
    var o := Mapped(x, d, v, w);
    hide Sound, TabRef, Mapped;
    assert o.owner[d] == Dir;
  }

  lemma {:induction false} AddedGrows(lo: nat, m: Vm, n: Vm, d: nat, a: nat, v: nat, page: Page, flags: nat)
    requires Sound(lo, n) && |n.free| >= 1 + TablesFor(n, d, v) && flags < PGSIZE && IsDir(n.owner, d)
    requires a <= v < USERPAGES && !Present(Pte(n.mem, n.owner, d, v)) && Grown(m, n, d, a, v, {})
    ensures Grown(m, Added(n, d, v, page, flags), d, a, v + 1, {})
    ensures PagesKept(n, Added(n, d, v, page, flags))
  {
    AddedFacts(lo, n, d, v, page, flags);
    GrownTake(lo, m, n, d, a, v, page);
    FilledFacts(lo, n, d, v, page, flags);
    TookKeepsPages(lo, n, page);
    var x, w, o := Filled(n, page), NewEntry(n, flags), Added(n, d, v, page, flags);
    hide NewEntry, Added, Sound, Grown, MapsPage, Pte, TabRef, PagesKept;
    assert Grown(m, x, d, a, v, {FrameOf(w)});
    GrownMap(m, x, o, d, a, v, w);
    MapsPageKeepsPages(lo, x, o, d, v, w);
    PagesKeptTwice(n, x, o);
  }

  lemma {:induction false} PagesKeptTwice(n: Vm, x: Vm, o: Vm)
    requires PagesKept(n, x) && PagesKept(x, o)
    ensures PagesKept(n, o)
  {
  }

  /** What the rest of a growth still costs, page by page and table by table. */
  function Cost(n: Vm, d: nat, v: nat, b: nat): nat {
    if v >= b then 0 else b - v + Lacking(n, d, v, b)
  }

  lemma {:induction false} AddedCost(lo: nat, n: Vm, d: nat, v: nat, b: nat, page: Page, flags: nat)
    requires Sound(lo, n) && |n.free| >= 1 + TablesFor(n, d, v) && flags < PGSIZE && IsDir(n.owner, d)
    requires v < b <= USERPAGES && !Present(Pte(n.mem, n.owner, d, v))
    ensures var o := Added(n, d, v, page, flags); |o.free| - Cost(o, d, v + 1, b) == |n.free| - Cost(n, d, v, b)
  {
    AddedFacts(lo, n, d, v, page, flags);
    FilledFacts(lo, n, d, v, page, flags);
    var x, w, o := Filled(n, page), NewEntry(n, flags), Added(n, d, v, page, flags);
    hide NewEntry, Added, Sound, Pte, Filled, TabRef;
    assert forall j: nat | j != v / NPT :: TabRef(o.mem, o.owner, d, j) == TabRef(n.mem, n.owner, d, j);
    LackingStep(n, o, d, v, b);
    assert v + 1 == b ==> Lacking(o, d, v + 1, b) == 0;
  }

  /** A turn that cannot be paid for means that the whole cannot. */
  lemma {:induction false} CostNow(n: Vm, d: nat, v: nat, b: nat)
    requires v < b
    ensures Cost(n, d, v, b) >= 1 + TablesFor(n, d, v)
  {
  }

  // ---- the kernel's part of an address space ----

  const EXTPAGES: nat := 0x100
  const DEVPAGE: nat := 0xF_E000
  /** The directory and the tables that setupkvm takes. */
  const KVMFRAMES: nat := 65

  predicate IsKernel(v: nat) {
    USERPAGES <= v < USERPAGES + TOP || DEVPAGE <= v < ALLPAGES
  }

  /** What kmap asks for page v; data is the page of the kernel's data segment. */
  function KernelEntry(data: nat, v: nat): Word {
    if DEVPAGE <= v < ALLPAGES then Entry(v, 3)
    else if USERPAGES <= v < USERPAGES + TOP then
      Entry(v - USERPAGES, if EXTPAGES <= v - USERPAGES < data then 1 else 3)
    else 0
  }

  /** How many tables the kernel pages below v take. */
  function KernelTables(v: nat): nat {
    if v <= USERPAGES then 0
    else if v <= USERPAGES + TOP then (v - USERPAGES + NPT - 1) / NPT
    else if v <= DEVPAGE then TOP / NPT
    else TOP / NPT + (v - DEVPAGE + NPT - 1) / NPT
  }

  ghost predicate EmptyDir(m: Vm, d: nat) {
    && IsDir(m.owner, d)
    && (forall u: nat :: Pte(m.mem, m.owner, d, u) == 0)
    && (forall i: nat :: TabRef(m.mem, m.owner, d, i) < 0)
  }

  /** Only the directory d and its tables changed, and only tables of d are new. */
  ghost predicate KernelPart(m: Vm, n: Vm, d: nat) {
    && Kept(m, n, d) && IsDir(m.owner, d)
    && (forall f | f in n.owner && f !in m.owner :: n.owner[f].Tab? && n.owner[f].d == d)
  }

  /** The kernel pages of d below v are mapped as kmap says. */
  ghost predicate KernelTo(m: Vm, n: Vm, d: nat, data: nat, v: nat) {
    && KernelPart(m, n, d)
    && (forall e: nat, u: nat :: Pte(n.mem, n.owner, e, u) == if e == d && u < v then KernelEntry(data, u) else Pte(m.mem, m.owner, e, u))
    && (forall i: nat :: TabRef(n.mem, n.owner, d, i) >= 0 <==> IsKernel(i * NPT) && i * NPT < v)
    && |n.free| + KernelTables(v) == |m.free|
  }

  /** The pages first .. first+count-1 are a range of kmap, on the frames from p on. */
  ghost predicate InKmap(data: nat, first: nat, count: nat, p: nat, perm: nat) {
    && p + count <= ALLPAGES && perm < PGSIZE
    && (forall u: nat | first <= u < first + count ::
          IsKernel(u) && KernelEntry(data, u) == Entry(p + (u - first), OrPresent(perm)))
  }

  lemma {:induction false} InKmapAt(data: nat, first: nat, count: nat, p: nat, perm: nat, k: nat)
    requires InKmap(data, first, count, p, perm) && k < count
    ensures p + k < ALLPAGES && perm < PGSIZE && IsKernel(first + k)
    ensures KernelEntry(data, first + k) == Entry(p + k, OrPresent(perm))
  {
  }

  /** The four rows of kmap: I/O space, text, data and memory, devices. */
  lemma {:induction false} KernelRanges(data: nat)
    requires EXTPAGES < data < TOP
    ensures InKmap(data, USERPAGES, EXTPAGES, 0, 2)
    ensures InKmap(data, USERPAGES + EXTPAGES, data - EXTPAGES, EXTPAGES, 0)
    ensures InKmap(data, USERPAGES + data, TOP - data, data, 2)
    ensures InKmap(data, DEVPAGE, ALLPAGES - DEVPAGE, DEVPAGE, 2)
    ensures KernelTables(ALLPAGES) == KVMFRAMES - 1
  {
  }

  lemma {:induction false} KernelTablesStep(v: nat)
    requires IsKernel(v)
    ensures KernelTables(v + 1) == KernelTables(v) + if v % NPT == 0 then 1 else 0
  {
  }

  lemma {:induction false} KernelTablesGrow(v: nat, w: nat)
    requires v <= w
    ensures KernelTables(v) <= KernelTables(w)
  {
  }

  /** The table of page v is missing exactly at the first page of the table. */
  lemma {:induction false} KernelTableAt(m: Vm, n: Vm, d: nat, data: nat, v: nat)
    requires KernelTo(m, n, d, data, v) && IsKernel(v)
    ensures TabRef(n.mem, n.owner, d, v / NPT) < 0 <==> v % NPT == 0
  {
  }

  lemma {:induction false} KernelTurn(lo: nat, m: Vm, n: Vm, d: nat, data: nat, v: nat, end: nat)
    requires Sound(lo, n) && KernelTo(m, n, d, data, v) && EmptyDir(m, d) && IsKernel(v) && v < end
    ensures IsDir(n.owner, d) && v < ALLPAGES && v >= USERPAGES && Present(KernelEntry(data, v))
    ensures !Present(Pte(n.mem, n.owner, d, v)) && KernelPart(m, n, d)
    ensures |n.free| < TablesFor(n, d, v) ==> |m.free| < KernelTables(end)
    ensures |n.free| >= TablesFor(n, d, v) ==>
              && KernelTo(m, Mapped(n, d, v, KernelEntry(data, v)), d, data, v + 1)
              && KernelPart(m, Mapped(n, d, v, KernelEntry(data, v)), d)
              && (v + 1 == end ==> |m.free| >= KernelTables(end))
  {
    KernelTableAt(m, n, d, data, v);
    KernelTablesStep(v);
    KernelTablesGrow(v + 1, end);
    var w := KernelEntry(data, v);
    assert Pte(n.mem, n.owner, d, v) == 0;
    EntryPresent(data, v);
    hide KernelEntry;
    if |n.free| >= TablesFor(n, d, v) {
      MappedMaps(lo, n, d, v, w);
      KernelMore(m, n, Mapped(n, d, v, w), d, data, v);
    }
  }

  lemma {:induction false} EntryPresent(data: nat, v: nat)
    requires IsKernel(v)
    ensures Present(KernelEntry(data, v))
  {
    OddFlags(KernelEntry(data, v));
  }

  lemma {:induction false} OddFlags(w: Word)
    ensures Present(w) <==> w % PGSIZE % 2 == 1
  {
  }

  lemma {:induction false} KernelMore(m: Vm, n: Vm, o: Vm, d: nat, data: nat, v: nat)
    requires KernelTo(m, n, d, data, v) && MapsPage(n, o, d, v, KernelEntry(data, v)) && IsKernel(v)
    requires TabRef(n.mem, n.owner, d, v / NPT) < 0 <==> v % NPT == 0
    requires KernelTables(v + 1) == KernelTables(v) + if v % NPT == 0 then 1 else 0
    ensures KernelTo(m, o, d, data, v + 1) && KernelPart(m, o, d)
  {
  }

  /** Between the end of memory and the devices kmap maps nothing. */
  lemma {:induction false} KernelGap(m: Vm, n: Vm, d: nat, data: nat)
    requires KernelTo(m, n, d, data, USERPAGES + TOP) && EmptyDir(m, d)
    ensures KernelTo(m, n, d, data, DEVPAGE)
  {
  }

  // ---- a new address space ----

  /** The owned frames of m are owned as they were and hold what they held, and no others are owned. */
  ghost predicate SameFrames(m: Vm, n: Vm) {
    n.owner == m.owner && forall f | f in m.owner :: f < |m.mem| && f < |n.mem| && n.mem[f] == m.mem[f]
  }

  lemma {:induction false} SameFramesSelf(lo: nat, m: Vm)
    requires Sound(lo, m)
    ensures SameFrames(m, m)
  {
  }

  lemma {:induction false} CountOne(s: seq<nat>, f: nat)
    requires forall j: nat, k: nat | j < k < |s| :: s[j] != s[k]
    ensures multiset(s)[f] == if f in s then 1 else 0
  {
    if s != [] {
      assert s == [s[0]] + s[1..];
      CountOne(s[1..], f);
    }
  }

  /** So the free frames are the same ones too. */
  lemma {:induction false} SameFree(lo: nat, m: Vm, n: Vm)
    requires Sound(lo, m) && Sound(lo, n) && SameFrames(m, n)
    ensures multiset(n.free) == multiset(m.free)
  {
    forall f: nat ensures multiset(n.free)[f] == multiset(m.free)[f] {
      CountOne(m.free, f);
      CountOne(n.free, f);
      assert f in m.free <==> f in n.free;
    }
  }

  lemma {:induction false} CountFrames(lo: nat, s: set<nat>, top: nat)
    requires lo <= top && forall f :: f in s <==> lo <= f < top
    ensures |s| == top - lo
    decreases top - lo
  {
    if lo < top {
      CountFrames(lo, s - {top - 1}, top - 1);
    } else {
      assert s == {};
    }
  }

  /** Conservation: no frame is ever lost or counted twice. */
  lemma {:induction false} FramesConserved(lo: nat, m: Vm)
    requires Sound(lo, m)
    ensures |m.free| + |m.owner| == TOP - lo
  {
    assert forall g | g in m.owner :: OwnerOk(lo, m.mem, m.owner, g);
    CountDistinct(m.free);
    assert forall f :: f in Elems(m.free) + m.owner.Keys <==> lo <= f < TOP;
    hide OwnerOk, Owned, Chain, Sound;
    CountUnion(Elems(m.free), m.owner.Keys);
    CountFrames(lo, Elems(m.free) + m.owner.Keys, TOP);
    assert |m.owner| == |m.owner.Keys|;
  }

  /** setupkvm's empty directory. */
  function NewDir(m: Vm): Vm
    requires |m.free| > 0 && m.free[0] < |m.mem|
  {
    Took(m).(mem := m.mem[m.free[0] := ZeroPage()], owner := m.owner[m.free[0] := Dir])
  }

  ghost predicate MadeDir(m: Vm, k: Vm, d: nat) {
    && d !in m.owner && k.owner == m.owner[d := Dir] && EmptyDir(k, d) && |k.free| == |m.free| - 1
    && (forall e: nat, u: nat :: Pte(k.mem, k.owner, e, u) == Pte(m.mem, m.owner, e, u))
    && (forall f | f in k.owner :: f < |k.mem| && f < |m.mem| && (f == d || k.mem[f] == m.mem[f]))
  }

  lemma {:induction false} DirMade(lo: nat, m: Vm, data: nat)
    requires Sound(lo, m) && |m.free| > 0
    ensures m.free[0] < |m.mem| && Sound(lo, NewDir(m)) && MadeDir(m, NewDir(m), m.free[0])
    ensures EmptyDir(NewDir(m), m.free[0]) && KernelTo(NewDir(m), NewDir(m), m.free[0], data, USERPAGES)
  {
    var d := m.free[0];
    TookFilled(lo, m, ZeroPage());
    var n := Took(m).(mem := m.mem[d := ZeroPage()]);
    DirSound(lo, n, d);
    assert n.owner[d := Dir] == m.owner[d := Dir];
    DirEmpty(lo, m);
    var k := NewDir(m);
    assert n.(owner := n.owner[d := Dir]) == k;
    hide Sound, Pte, TabRef;
    assert KernelPart(k, k, d);
    assert forall i: nat :: !(IsKernel(i * NPT) && i * NPT < USERPAGES);
    assert forall u: nat | u < USERPAGES :: KernelEntry(data, u) == 0;
  }

  lemma {:induction false} DirEmpty(lo: nat, m: Vm)
    requires Sound(lo, m) && |m.free| > 0 && m.free[0] < |m.mem|
    ensures EmptyDir(NewDir(m), m.free[0])
  {
  }

  /** A new address space d with nothing but the kernel's part. */
  ghost predicate KernelSpace(m: Vm, n: Vm, d: nat, data: nat) {
    && d !in m.owner && IsDir(n.owner, d)
    && (forall e: nat, u: nat :: Pte(n.mem, n.owner, e, u) == if e == d then KernelEntry(data, u) else Pte(m.mem, m.owner, e, u))
    && (forall i: nat | i * NPT < USERPAGES :: TabRef(n.mem, n.owner, d, i) < 0)
    && ChildPart(m, n, d)
    && |n.free| == |m.free| - KVMFRAMES
  }

  /** Everything that m owned is as it was, and what is new belongs to d. */
  ghost predicate ChildPart(m: Vm, n: Vm, d: nat) {
    && (forall f | f in m.owner :: f in n.owner && n.owner[f] == m.owner[f] && f < |m.mem| && f < |n.mem| && n.mem[f] == m.mem[f])
    && (forall f | f in n.owner && f !in m.owner :: Belongs(n.owner[f], f, d))
  }

  /** A frame that is not a directory has no tables and no pages. */
  lemma {:induction false} NoneOf(lo: nat, m: Vm, d: nat)
    requires Sound(lo, m) && d !in m.owner
    ensures forall f | f in m.owner :: !Belongs(m.owner[f], f, d)
  {
  }

  lemma {:induction false} PartOfKernel(lo: nat, m: Vm, k: Vm, n: Vm, d: nat)
    requires Sound(lo, m) && MadeDir(m, k, d) && KernelPart(k, n, d)
    ensures ChildPart(m, n, d) && IsDir(n.owner, d) && d !in m.owner
  {
    NoneOf(lo, m, d);
    hide Sound, Pte, TabRef;
    forall f | f in m.owner
      ensures f in n.owner && n.owner[f] == m.owner[f] && f < |m.mem| && f < |n.mem| && n.mem[f] == m.mem[f]
    {
      assert f in k.owner && !Belongs(m.owner[f], f, d);
    }
  }

  /** freevm of a half-built address space leaves no trace of it. */
  lemma {:induction false} PartGone(lo: nat, m: Vm, n: Vm, o: Vm, d: nat)
    requires Sound(lo, m) && d !in m.owner && ChildPart(m, n, d) && Gone(n, o, d)
    ensures SameFrames(m, o)
  {
    NoneOf(lo, m, d);
    hide Sound;
    assert o.owner.Keys == m.owner.Keys;
  }

  lemma {:induction false} KernelDone(lo: nat, m: Vm, k: Vm, n: Vm, d: nat, data: nat)
    requires Sound(lo, m) && MadeDir(m, k, d) && KernelTo(k, n, d, data, ALLPAGES) && EXTPAGES < data < TOP
    ensures KernelSpace(m, n, d, data)
  {
    PartOfKernel(lo, m, k, n, d);
    KernelRanges(data);
    hide Sound, TabRef, KernelTables, ChildPart, KernelPart, Pte;
    forall e: nat, u: nat
      ensures Pte(n.mem, n.owner, e, u) == if e == d then KernelEntry(data, u) else Pte(m.mem, m.owner, e, u)
    {
      assert Pte(k.mem, k.owner, d, u) == 0;
    }
  }

  /** User code has no access to the kernel's part. */
  ghost predicate Guarded(n: Vm, d: nat) {
    forall u: nat | u >= USERPAGES :: Rights(n, d, u) == Access(false, false)
  }

  /** Below TOP the kernel's part is physical memory, all of it writable to the kernel but
      for the kernel's text. */
  ghost predicate DirectMap(n: Vm, d: nat, data: nat) {
    forall u: nat | USERPAGES <= u < USERPAGES + TOP :: Direct(Pte(n.mem, n.owner, d, u), u - USERPAGES, data)
  }

  predicate Direct(w: Word, f: nat, data: nat) {
    Present(w) && FrameOf(w) == f && (w / 2 % 2 == 1 <==> !(EXTPAGES <= f < data))
  }

  lemma {:induction false} KernelDirect(n: Vm, d: nat, data: nat)
    requires forall u: nat | u >= USERPAGES :: Pte(n.mem, n.owner, d, u) == KernelEntry(data, u)
    ensures DirectMap(n, d, data)
  {
    hide Pte;
    forall u: nat | USERPAGES <= u < USERPAGES + TOP ensures Direct(Pte(n.mem, n.owner, d, u), u - USERPAGES, data) {
      FlagBits(KernelEntry(data, u));
    }
  }

  lemma {:induction false} KernelGuarded(lo: nat, n: Vm, d: nat, data: nat)
    requires Sound(lo, n) && data < TOP
    requires forall u: nat | u >= USERPAGES :: Pte(n.mem, n.owner, d, u) == KernelEntry(data, u)
    ensures Guarded(n, d)
  {
    forall u: nat | u >= USERPAGES ensures Rights(n, d, u) == Access(false, false) {
      RightsOf(lo, n, d, u);
      FlagBits(KernelEntry(data, u));
    }
  }

  // ---- copying an address space ----

  ghost predicate Resident(m: Vm, p: nat, b: nat) {
    forall u: nat | u < b :: Present(Pte(m.mem, m.owner, p, u))
  }

  /** Page u of d has the contents and flags of page u of p in m, on a frame that was free in m. */
  ghost predicate CopiedAt(m: Vm, n: Vm, p: nat, d: nat, u: nat) {
    var w, x := Pte(n.mem, n.owner, d, u), Pte(m.mem, m.owner, p, u);
    && Present(w) && w % PGSIZE == x % PGSIZE && FrameOf(w) !in m.owner
    && FrameOf(w) < |n.mem| && FrameOf(x) < |m.mem| && n.mem[FrameOf(w)] == m.mem[FrameOf(x)]
  }

  ghost predicate Copied(m: Vm, n: Vm, p: nat, d: nat, v: nat) {
    forall u: nat | u < v :: CopiedAt(m, n, p, d, u)
  }

  /** The child has the kernel's part and no page from b on; every other address space and
      every other frame is as it was. */
  ghost predicate ChildOf(m: Vm, n: Vm, d: nat, data: nat, b: nat) {
    && d !in m.owner && IsDir(n.owner, d) && ChildPart(m, n, d)
    && (forall u: nat | u >= b :: Pte(n.mem, n.owner, d, u) == KernelEntry(data, u))
    && (forall e: nat, u: nat | e != d :: Pte(n.mem, n.owner, e, u) == Pte(m.mem, m.owner, e, u))
  }

  lemma {:induction false} SpaceGuarded(lo: nat, m: Vm, n: Vm, d: nat, data: nat)
    requires Sound(lo, n) && data < TOP && KernelSpace(m, n, d, data)
    ensures Guarded(n, d) && DirectMap(n, d, data)
  {
    hide Sound, KernelEntry, Pte, TabRef, Guarded, DirectMap;
    KernelGuarded(lo, n, d, data);
    KernelDirect(n, d, data);
  }

  /** The child may do with its copies what the parent may do with the pages. */
  lemma {:induction false} CopyRights(lo: nat, m: Vm, n: Vm, p: nat, d: nat, data: nat, b: nat)
    requires Sound(lo, m) && Sound(lo, n) && data < TOP && b <= USERPAGES
    requires Copied(m, n, p, d, b) && ChildOf(m, n, d, data, b)
    ensures Guarded(n, d) && DirectMap(n, d, data) && forall u: nat | u < b :: Rights(n, d, u) == Rights(m, p, u)
  {
    hide Sound, KernelEntry, Pte, TabRef, Guarded, DirectMap, Rights;
    KernelGuarded(lo, n, d, data);
    KernelDirect(n, d, data);
    forall u: nat | u < b ensures Rights(n, d, u) == Rights(m, p, u) {
      assert CopiedAt(m, n, p, d, u);
      SameRights(lo, m, n, p, d, u);
    }
  }

  lemma {:induction false} CopyStart(lo: nat, m: Vm, k: Vm, p: nat, d: nat, data: nat, b: nat)
    requires Sound(lo, m) && Sound(lo, k) && KernelSpace(m, k, d, data) && IsDir(m.owner, p) && b <= USERPAGES
    ensures Grown(k, k, d, 0, 0, {}) && Copied(m, k, p, d, 0) && IsDir(k.owner, d)
    ensures Cost(k, d, 0, b) == b + (b + NPT - 1) / NPT && |k.free| == |m.free| - KVMFRAMES
  {
    GrownNone(lo, k, d, 0);
    hide Sound, Pte, TabRef, Grown;
    TablesAll(k, d, 0, b);
  }

  /** The frame of the parent's page is untouched. */
  lemma {:induction false} ParentPage(lo: nat, m: Vm, k: Vm, n: Vm, p: nat, d: nat, data: nat, v: nat)
    requires Sound(lo, m) && KernelSpace(m, k, d, data) && Grown(k, n, d, 0, v, {}) && IsDir(m.owner, p)
    requires v < USERPAGES && Present(Pte(m.mem, m.owner, p, v))
    ensures Pte(n.mem, n.owner, p, v) == Pte(m.mem, m.owner, p, v) && IsDir(n.owner, p) && p != d
    ensures var f := FrameOf(Pte(m.mem, m.owner, p, v)); f < |m.mem| && f < |n.mem| && n.mem[f] == m.mem[f]
  {
    var f := FrameOf(Pte(m.mem, m.owner, p, v));
    assert Ref(m.mem, m.owner, User(p, v)) == f;
    hide Sound, Pte, TabRef, KernelEntry;
    assert f in m.owner && f in k.owner && k.owner[f] == User(p, v);
    assert p in k.owner && p in n.owner;
  }

  lemma {:induction false} TableOf(n: Vm, p: nat, v: nat)
    requires Present(Pte(n.mem, n.owner, p, v))
    ensures TabRef(n.mem, n.owner, p, v / NPT) >= 0
  {
  }

  lemma {:induction false} ChildVacant(m: Vm, k: Vm, n: Vm, d: nat, data: nat, v: nat)
    requires KernelSpace(m, k, d, data) && Grown(k, n, d, 0, v, {}) && v < USERPAGES
    ensures !Present(Pte(n.mem, n.owner, d, v))
  {
  }

  lemma {:induction false} CopyTurn(lo: nat, m: Vm, k: Vm, n: Vm, p: nat, d: nat, data: nat, v: nat, b: nat)
    requires Sound(lo, m) && Sound(lo, n) && KernelSpace(m, k, d, data) && IsDir(m.owner, p) && IsDir(n.owner, d)
    requires Grown(k, n, d, 0, v, {}) && Copied(m, n, p, d, v) && Resident(m, p, b) && v < b <= USERPAGES
    ensures IsDir(n.owner, p) && TabRef(n.mem, n.owner, p, v / NPT) >= 0
    ensures !Present(Pte(n.mem, n.owner, d, v)) && Cost(n, d, v, b) >= 1 + TablesFor(n, d, v)
    ensures var w := Pte(n.mem, n.owner, p, v);
            && FrameOf(w) < |n.mem|
            && (|n.free| >= 1 + TablesFor(n, d, v) ==>
                  var o := Added(n, d, v, n.mem[FrameOf(w)], w % PGSIZE);
                  && Grown(k, o, d, 0, v + 1, {}) && Copied(m, o, p, d, v + 1) && IsDir(o.owner, d)
                  && |o.free| - Cost(o, d, v + 1, b) == |n.free| - Cost(n, d, v, b))
  {
    hide Sound, Grown, Added, Cost, Copied, Pte, TabRef, KernelSpace;
    ParentPage(lo, m, k, n, p, d, data, v);
    TableOf(n, p, v);
    ChildVacant(m, k, n, d, data, v);
    CostNow(n, d, v, b);
    var w := Pte(n.mem, n.owner, p, v);
    if |n.free| >= 1 + TablesFor(n, d, v) {
      AddedGrows(lo, k, n, d, 0, v, n.mem[FrameOf(w)], w % PGSIZE);
      AddedCost(lo, n, d, v, b, n.mem[FrameOf(w)], w % PGSIZE);
      AddedFacts(lo, n, d, v, n.mem[FrameOf(w)], w % PGSIZE);
      CopyMore(lo, m, k, n, p, d, data, v, w);
    }
  }

  lemma {:induction false} CopyMore(lo: nat, m: Vm, k: Vm, n: Vm, p: nat, d: nat, data: nat, v: nat, w: Word)
    requires Sound(lo, n) && |n.free| >= 1 + TablesFor(n, d, v) && IsDir(n.owner, d)
    requires v < USERPAGES && !Present(Pte(n.mem, n.owner, d, v)) && Grown(k, n, d, 0, v, {})
    requires KernelSpace(m, k, d, data) && Copied(m, n, p, d, v) && Present(w) && w == Pte(m.mem, m.owner, p, v)
    requires FrameOf(w) < |m.mem| && FrameOf(w) < |n.mem| && n.mem[FrameOf(w)] == m.mem[FrameOf(w)]
    ensures Copied(m, Added(n, d, v, n.mem[FrameOf(w)], w % PGSIZE), p, d, v + 1)
  {
    var page := n.mem[FrameOf(w)];
    AddedGrows(lo, k, n, d, 0, v, page, w % PGSIZE);
    AddedFacts(lo, n, d, v, page, w % PGSIZE);
    var o := Added(n, d, v, page, w % PGSIZE);
    NewIsFresh(m, k, o, d, data, v);
    OddFlags(w);
    hide Sound, Grown, Added, Pte, TabRef, MapsPage, KernelSpace, TablesFor, NewEntry, Filled;
    forall u: nat | u < v + 1 ensures CopiedAt(m, o, p, d, u) {
      if u < v {
        assert CopiedAt(m, n, p, d, u);
        assert PageKept(n, o, d, u);
      }
    }
  }

  lemma {:induction false} NewIsFresh(m: Vm, k: Vm, o: Vm, d: nat, data: nat, v: nat)
    requires KernelSpace(m, k, d, data) && Grown(k, o, d, 0, v + 1, {})
    ensures FrameOf(Pte(o.mem, o.owner, d, v)) !in m.owner
  {
  }

  lemma {:induction false} PartOfChild(lo: nat, m: Vm, k: Vm, n: Vm, d: nat, data: nat, v: nat)
    requires Sound(lo, m) && KernelSpace(m, k, d, data) && Grown(k, n, d, 0, v, {})
    ensures ChildPart(m, n, d) && IsDir(n.owner, d) && d !in m.owner
  {
    NoneOf(lo, m, d);
    hide Sound, Pte, TabRef, KernelEntry;
    forall f | f in m.owner
      ensures f in n.owner && n.owner[f] == m.owner[f] && f < |m.mem| && f < |n.mem| && n.mem[f] == m.mem[f]
    {
      assert f in k.owner && !Belongs(m.owner[f], f, d);
    }
    assert d in k.owner && d in n.owner;
  }

  lemma {:induction false} GrownDrop(lo: nat, k: Vm, n: Vm, d: nat, a: nat, v: nat, f: nat)
    requires Sound(lo, n) && Grown(k, n, d, a, v, {f})
    ensures lo <= f < TOP == |n.mem| && Sound(lo, Dropped(n, f)) && Grown(k, Dropped(n, f), d, a, v, {})
  {
    assert f in {f};
    assert OwnerOk(lo, n.mem, n.owner, f);
    DroppedSound(lo, n, f);
    DroppedRefs(lo, n, f);
    hide Sound, Pte, TabRef, OwnerOk;
  }

  lemma {:induction false} CopyDone(lo: nat, m: Vm, k: Vm, n: Vm, d: nat, data: nat, b: nat)
    requires Sound(lo, m) && KernelSpace(m, k, d, data) && Grown(k, n, d, 0, b, {})
    ensures ChildOf(m, n, d, data, b)
  {
    PartOfChild(lo, m, k, n, d, data, b);
    hide Sound, Pte, TabRef, KernelEntry, ChildPart;
  }

  // ---- the machine ----

  function PageUp(a: nat): (v: nat)
    ensures a <= v * PGSIZE && (v > 0 ==> (v - 1) * PGSIZE < a)
  {
    (a + PGSIZE - 1) / PGSIZE
  }

  class Machine {
    const lo: nat
    var mem: seq<Page>
    var head: Word
    ghost var free: seq<nat>
    ghost var owner: map<nat, Slot>

    ghost function View(): Vm
      reads this
    {
      Vm(mem, head, free, owner)
    }

    ghost predicate Valid()
      reads this
    {
      Sound(lo, View())
    }

    /** kinit1 and kinit2: every frame from the end of the kernel to PHYSTOP is free. */
    constructor (end: nat, contents: seq<Page>)
      requires 0 < end <= TOP && |contents| == TOP
      ensures Valid() && lo == end && owner == map[]
    {
      lo := end;
      mem := contents;
      head := 0;
      free := [];
      owner := map[];
      new;
      var f := end;
      while f < TOP
        invariant end <= f <= TOP && lo == end && owner == map[] && |mem| == TOP
        invariant Chain(mem, head, free)
        invariant forall k: nat | k < |free| :: end <= free[k] < f
        invariant forall j: nat, k: nat | j < k < |free| :: free[j] != free[k]
        invariant forall g | end <= g < f :: g in free
      {
        FreeMore(mem, head, free, end, f);
        KFree(f);
        f := f + 1;
      }
      assert Owned(lo, mem, owner);
    }

    /** Push a frame on the free list.  The ownership of the frame ends. */
    method KFree(f: nat)
      requires lo <= f < TOP && |mem| == TOP
      modifies this`mem, this`head, this`free, this`owner
      ensures View() == Dropped(old(View()), f)
    {
      mem := mem[f := FreedPage(head)];
      head := Addr(f);
      free := [f] + free;
      owner := owner - {f};
    }

    /** Pop a frame, or 0.  The frame is in some other use until it is mapped. */
    method KAlloc() returns (f: nat)
      requires Valid()
      modifies this`head, this`free, this`owner
      ensures Valid()
      ensures old(free) == [] ==> f == 0 && View() == old(View())
      ensures old(free) != [] ==> f == old(free)[0] && 0 < f < |mem| && View() == Took(old(View()))
    {
      if head != 0 {
        assert |free| > 0;
        TookSound(lo, View());
        f := (head - KERNBASE) / PGSIZE;
        head := mem[f][0];
        owner := owner[f := Other];
        free := free[1..];
      } else {
        f := 0;
      }
    }

    /** The frame of the table for page v, made if alloc is set, or 0. */
    method WalkPgdir(d: nat, v: nat, alloc: bool) returns (t: nat)
      requires Valid() && IsDir(owner, d) && v < ALLPAGES
      modifies this`mem, this`head, this`free, this`owner
      ensures Valid()
      ensures TabRef(old(mem), old(owner), d, v / NPT) >= 0 ==>
                t == TabRef(mem, owner, d, v / NPT) > 0 && t < |mem| && View() == old(View())
      ensures TabRef(old(mem), old(owner), d, v / NPT) < 0 && !(alloc && old(free) != []) ==> t == 0 && View() == old(View())
      ensures TabRef(old(mem), old(owner), d, v / NPT) < 0 && alloc && old(free) != [] ==>
                && t == old(free)[0] && 0 < t < TOP && |old(mem)| == TOP && d < TOP
                && View() == Tabled(old(View()), d, v / NPT)
    {
      assert OwnerOk(lo, mem, owner, d);
      var pde := mem[d][v / NPT];
      if Present(pde) {
        t := pde / PGSIZE;
        assert Ref(mem, owner, Tab(d, v / NPT)) == t;
        assert OwnerOk(lo, mem, owner, t);
      } else if !alloc {
        t := 0;
      } else {
        ghost var m := View();
        if |free| > 0 {
          TabledSound(lo, m, d, v / NPT);
        }
        t := KAlloc();
        if t != 0 {
          mem := mem[t := ZeroPage()];
          mem := mem[d := mem[d][v / NPT := Entry(t, TABFLAGS)]];
          owner := owner[t := Tab(d, v / NPT)];
        }
      }
    }

    /** kfree of the frame of a present user page, and *pte = 0. */
    method FreePage(d: nat, v: nat, t: nat)
      requires Valid() && IsDir(owner, d) && v < USERPAGES
      requires 0 < t < |mem| && t == TabRef(mem, owner, d, v / NPT) && Present(mem[t][v % NPT])
      modifies this`mem, this`head, this`free, this`owner
      ensures Valid() && IsDir(owner, d) && Shrunk(old(View()), View(), d, v, v + 1)
    {
      FreePageParts(lo, View(), d, v, t);
      UnmappedSound(lo, View(), d, v);
      hide Sound, Shrunk, Unmapped, TabRef, Ref;
      var pa := mem[t][v % NPT] / PGSIZE;
      KFree(pa);
      mem := mem[t := mem[t][v % NPT := 0]];
    }

    /** One turn of deallocuvm's loop, at page v; next is the page of the turn after it. */
    method UnmapAt(d: nat, v: nat, ghost last: nat) returns (next: nat)
      requires Valid() && IsDir(owner, d) && v < last <= USERPAGES
      modifies this`mem, this`head, this`free, this`owner
      ensures Valid() && IsDir(owner, d)
      ensures v < next && Shrunk(old(View()), View(), d, v, Min(next, last))
    {
      hide Sound, Shrunk, Pte, TabRef;
      ghost var m := View();
      ShrunkNone(lo, m, d, v);
      var t := WalkPgdir(d, v, false);
      if t == 0 {
        next := (v / NPT + 1) * NPT;
        NoTableNoPages(m, d, v, next);
        ShrunkSkip(lo, m, m, d, v, v, Min(next, last));
      } else {
        next := v + 1;
        if Present(mem[t][v % NPT]) {
          FreePage(d, v, t);
        } else {
          PteAt(m, d, v, t);
          ShrunkSkip(lo, m, m, d, v, v, v + 1);
        }
      }
    }

    /** Unmap the user pages from newsz up to oldsz, a directory entry's worth at a time
        where there is no table. */
    method DeallocUvm(d: nat, oldsz: nat, newsz: nat) returns (r: nat)
      requires Valid() && IsDir(owner, d) && oldsz <= KERNBASE
      modifies this`mem, this`head, this`free, this`owner
      ensures Valid() && IsDir(owner, d)
      ensures newsz >= oldsz ==> r == oldsz && View() == old(View())
      ensures newsz < oldsz ==> r == newsz && Shrunk(old(View()), View(), d, PageUp(newsz), PageUp(oldsz))
    {
      if newsz >= oldsz {
        return oldsz;
      }
      hide Sound, Shrunk;
      ghost var m := View();
      var a := PageUp(newsz);
      ghost var first, last := PageUp(newsz), PageUp(oldsz);
      ShrunkNone(lo, m, d, first);
      while a * PGSIZE < oldsz
        invariant first <= a && Valid() && IsDir(owner, d)
        invariant Shrunk(m, View(), d, first, Min(a, last))
      {
        ghost var n := View();
        ghost var v := a;
        a := UnmapAt(d, a, last);
        ShrunkMore(m, n, View(), d, first, v, Min(a, last));
      }
      r := newsz;
    }

    /** Free the user pages, the tables and the directory. */
    method FreeVm(d: nat)
      requires Valid() && IsDir(owner, d)
      modifies this`mem, this`head, this`free, this`owner
      ensures Valid() && Gone(old(View()), View(), d)
    {
      ghost var m := View();
      var _ := DeallocUvm(d, KERNBASE, 0);
      TearStart(lo, m, View(), d);
      for i := 0 to NPT
        invariant Tearing(lo, m, View(), d, i)
      {
        if Present(mem[d][i]) {
          TearTable(lo, m, View(), d, i);
          KFree(mem[d][i] / PGSIZE);
        } else {
          TearSkip(lo, m, View(), d, i);
        }
      }
      TearEnd(lo, m, View(), d);
      KFree(d);
    }

    /** mappages for one page; w is pa | perm | PTE_P. */
    method MapPage(d: nat, v: nat, w: Word) returns (ok: bool)
      requires Valid() && IsDir(owner, d) && v < ALLPAGES && Present(w)
      requires !Present(Pte(mem, owner, d, v))
      requires v < USERPAGES ==> FrameOf(w) in owner && owner[FrameOf(w)].Other?
      modifies this`mem, this`head, this`free, this`owner
      ensures Valid()
      ensures ok == (|old(free)| >= TablesFor(old(View()), d, v))
      ensures View() == if ok then Mapped(old(View()), d, v, w) else old(View())
    {
      ghost var m := View();
      if |free| >= TablesFor(m, d, v) {
        MappedMaps(lo, m, d, v, w);
      }
      if TabRef(mem, owner, d, v / NPT) < 0 && |free| > 0 {
        TabledSound(lo, m, d, v / NPT);
      }
      hide Sound, MapsPage;
      var t := WalkPgdir(d, v, true);
      if t == 0 {
        return false;
      }
      mem := mem[t := mem[t][v % NPT := w]];
      if v < USERPAGES {
        owner := owner[FrameOf(w) := User(d, v)];
      }
      ok := true;
    }

    /** kalloc, fill the frame, mappages: the body of allocuvm's and copyuvm's loops.
        On failure, held is the frame taken and not mapped, or 0. */
    method AddPage(d: nat, v: nat, page: Page, flags: nat) returns (ok: bool, held: nat)
      requires Valid() && IsDir(owner, d) && v < USERPAGES && flags < PGSIZE
      requires !Present(Pte(mem, owner, d, v))
      modifies this`mem, this`head, this`free, this`owner
      ensures Valid() && ok == (|old(free)| >= 1 + TablesFor(old(View()), d, v))
      ensures ok ==> View() == Added(old(View()), d, v, page, flags)
      ensures !ok && held == 0 ==> View() == old(View())
      ensures !ok && held != 0 ==> |old(free)| > 0 && held == old(free)[0] && View() == Filled(old(View()), page)
    {
      ghost var m := View();
      if |free| > 0 {
        FilledFacts(lo, m, d, v, page, flags);
      }
      held := KAlloc();
      if held == 0 {
        return false, 0;
      }
      mem := mem[held := page];
      assert View() == Filled(m, page);
      var w := Entry(held, OrPresent(flags));
      hide Pte, TabRef, Sound, Filled, Mapped;
      ok := MapPage(d, v, w);
    }

    /** Grow d from oldsz to newsz with zeroed pages; on failure give the pages back. */
    method AllocUvm(d: nat, oldsz: nat, newsz: nat) returns (r: nat, ok: bool)
      requires Valid() && IsDir(owner, d)
      requires Vacant(View(), d, PageUp(oldsz), PageUp(newsz))
      modifies this`mem, this`head, this`free, this`owner
      ensures Valid() && IsDir(owner, d)
      ensures newsz >= KERNBASE ==> !ok && r == 0 && View() == old(View())
      ensures newsz < oldsz && newsz < KERNBASE ==> ok && r == oldsz && View() == old(View())
      ensures oldsz <= newsz < KERNBASE ==>
                (ok <==> |old(free)| >= Cost(old(View()), d, PageUp(oldsz), PageUp(newsz)))
      ensures oldsz <= newsz < KERNBASE && ok ==>
                && r == newsz && Grown(old(View()), View(), d, PageUp(oldsz), PageUp(newsz), {})
                && Zeroed(View(), d, PageUp(oldsz), PageUp(newsz))
                && (forall u: nat | PageUp(oldsz) <= u < PageUp(newsz) :: Rights(View(), d, u) == Access(true, true))
      ensures oldsz <= newsz < KERNBASE && !ok ==> r == 0 && Restored(old(View()), View(), d, {})
    {
      if newsz >= KERNBASE {
        return 0, false;
      }
      if newsz < oldsz {
        return oldsz, true;
      }
      hide Sound, Grown, Cost, Restored, Vacant;
      ok := GrowUvm(d, oldsz, newsz);
      r := if ok then newsz else 0;
      if ok {
        ZeroedRights(lo, View(), d, PageUp(oldsz), PageUp(newsz));
      }
    }

    /** allocuvm's loop. */
    method GrowUvm(d: nat, oldsz: nat, newsz: nat) returns (ok: bool)
      requires Valid() && IsDir(owner, d) && oldsz <= newsz < KERNBASE
      requires Vacant(View(), d, PageUp(oldsz), PageUp(newsz))
      modifies this`mem, this`head, this`free, this`owner
      ensures Valid() && IsDir(owner, d)
      ensures ok <==> |old(free)| >= Cost(old(View()), d, PageUp(oldsz), PageUp(newsz))
      ensures ok ==> Grown(old(View()), View(), d, PageUp(oldsz), PageUp(newsz), {})
      ensures ok ==> Zeroed(View(), d, PageUp(oldsz), PageUp(newsz))
      ensures !ok ==> Restored(old(View()), View(), d, {})
    {
      hide Sound, Grown, Restored, Shrunk, Added, Cost, Vacant, Zeroed, TablesFor, Pte, Filled;
      ghost var m := View();
      var a := PageUp(oldsz);
      ghost var first, last := PageUp(oldsz), PageUp(newsz);
      GrownNone(lo, m, d, a);
      ZeroedNone(m, d, a);
      while a * PGSIZE < newsz
        invariant first <= a <= last && Valid() && IsDir(owner, d)
        invariant Grown(m, View(), d, first, a, {}) && Zeroed(View(), d, first, a)
        invariant |free| - Cost(View(), d, a, last) == |m.free| - Cost(m, d, first, last)
      {
        ghost var n := View();
        AllocTurn(lo, m, n, d, first, a, last);
        var added, held := AddPage(d, a, ZeroPage(), 6);
        if !added {
          UndoAlloc(d, oldsz, newsz, held, m, n, a);
          return false;
        }
        a := a + 1;
      }
      CostDone(View(), d, last);
      return true;
    }

    /** allocuvm's way out when memory is short at page v. */
    method UndoAlloc(d: nat, oldsz: nat, newsz: nat, held: nat, ghost m: Vm, ghost n: Vm, ghost v: nat)
      requires Valid() && oldsz < newsz < KERNBASE && PageUp(oldsz) <= v < PageUp(newsz)
      requires Sound(lo, m) && Sound(lo, n) && IsDir(n.owner, d) && Vacant(m, d, PageUp(oldsz), PageUp(newsz))
      requires Grown(m, n, d, PageUp(oldsz), v, {})
      requires if held == 0 then View() == n else |n.free| > 0 && held == n.free[0] && View() == Filled(n, ZeroPage())
      modifies this`mem, this`head, this`free, this`owner
      ensures Valid() && IsDir(owner, d) && Restored(m, View(), d, {})
    {
      hide Sound, Grown, Restored, Shrunk, Vacant, Filled;
      ghost var x := View();
      HeldGrown(lo, m, n, x, d, PageUp(oldsz), v, held, ZeroPage());
      var _ := DeallocUvm(d, newsz, oldsz);
      Undone(lo, m, x, View(), d, PageUp(oldsz), v, PageUp(newsz), held);
      if held != 0 {
        HeldDrop(lo, m, View(), d, held);
        KFree(held);
      }
    }

    /** mappages over a range of the kernel's part: count pages from page first on, to the
        frames from p on.  The loop stops at the last page, before the address can wrap. */
    method MapRange(d: nat, first: nat, count: nat, p: nat, perm: nat, ghost data: nat, ghost m: Vm) returns (ok: bool)
      requires Valid() && count > 0 && InKmap(data, first, count, p, perm)
      requires KernelTo(m, View(), d, data, first) && EmptyDir(m, d)
      modifies this`mem, this`head, this`free, this`owner
      ensures Valid() && KernelPart(m, View(), d)
      ensures ok <==> |m.free| >= KernelTables(first + count)
      ensures ok ==> KernelTo(m, View(), d, data, first + count)
    {
      hide Sound, KernelTo, KernelEntry, KernelTables, InKmap, EmptyDir, KernelPart, Pte, TabRef, Mapped, TablesFor;
      var a := first;
      var last := first + count - 1;
      while true
        invariant first <= a <= last && Valid() && KernelTo(m, View(), d, data, a)
        decreases last - a
      {
        ghost var n := View();
        InKmapAt(data, first, count, p, perm, a - first);
        KernelTurn(lo, m, n, d, data, a, last + 1);
        var pte := Entry(p + (a - first), OrPresent(perm));
        ok := MapPage(d, a, pte);
        if !ok {
          return;
        }
        if a == last {
          break;
        }
        a := a + 1;
      }
    }

    /** A directory with the kernel's part mapped, or 0. */
    method SetupKvm(data: nat) returns (d: nat)
      requires Valid() && EXTPAGES < data < TOP
      modifies this`mem, this`head, this`free, this`owner
      ensures Valid()
      ensures d != 0 <==> |old(free)| >= KVMFRAMES
      ensures d != 0 ==> KernelSpace(old(View()), View(), d, data) && Guarded(View(), d) && DirectMap(View(), d, data)
      ensures d == 0 ==> SameFrames(old(View()), View())
    {
      ghost var m := View();
      hide Sound, KernelTo, KernelEntry, KernelTables, InKmap, EmptyDir, KernelPart, KernelSpace, SameFrames, Pte, TabRef,
        Guarded, DirectMap;
      if |free| > 0 {
        DirMade(lo, m, data);
      } else {
        SameFramesSelf(lo, m);
      }
      d := KAlloc();
      if d == 0 {
        return;
      }
      mem := mem[d := ZeroPage()];
      owner := owner[d := Dir];
      ghost var k := View();
      assert k == NewDir(m) by {
        assert k.owner == m.owner[d := Dir];
      }
      KernelRanges(data);
      KernelTablesGrow(USERPAGES + EXTPAGES, ALLPAGES);
      KernelTablesGrow(USERPAGES + data, ALLPAGES);
      KernelTablesGrow(USERPAGES + TOP, ALLPAGES);
      var ok := MapRange(d, USERPAGES, EXTPAGES, 0, 2, data, k);
      if ok {
        ok := MapRange(d, USERPAGES + EXTPAGES, data - EXTPAGES, EXTPAGES, 0, data, k);
      }
      if ok {
        ok := MapRange(d, USERPAGES + data, TOP - data, data, 2, data, k);
      }
      if ok {
        KernelGap(k, View(), d, data);
        ok := MapRange(d, DEVPAGE, ALLPAGES - DEVPAGE, DEVPAGE, 2, data, k);
      }
      if !ok {
        ghost var n := View();
        PartOfKernel(lo, m, k, n, d);
        FreeVm(d);
        PartGone(lo, m, n, View(), d);
        d := 0;
      } else {
        KernelDone(lo, m, k, View(), d, data);
        SpaceGuarded(lo, m, View(), d, data);
      }
    }

    /** A copy of the pages of p below sz, on frames of its own, or 0. */
    method CopyUvm(p: nat, sz: nat, data: nat) returns (d: nat)
      requires Valid() && IsDir(owner, p) && sz <= KERNBASE && EXTPAGES < data < TOP
      requires Resident(View(), p, PageUp(sz))
      modifies this`mem, this`head, this`free, this`owner
      ensures Valid()
      ensures d != 0 <==> |old(free)| >= KVMFRAMES + PageUp(sz) + (PageUp(sz) + NPT - 1) / NPT
      ensures d != 0 ==> Copied(old(View()), View(), p, d, PageUp(sz)) && ChildOf(old(View()), View(), d, data, PageUp(sz))
      ensures d != 0 ==> Guarded(View(), d) && DirectMap(View(), d, data)
      ensures d != 0 ==> forall u: nat | u < PageUp(sz) :: Rights(View(), d, u) == Rights(old(View()), p, u)
      ensures d == 0 ==> SameFrames(old(View()), View())
    {
      ghost var m := View();
      hide Sound, KernelSpace, SameFrames, Resident, Copied, ChildOf, Grown, Cost, TablesFor, Pte, TabRef, Added, Filled,
        Guarded, DirectMap, Rights;
      d := SetupKvm(data);
      if d == 0 {
        return;
      }
      ghost var k := View();
      ghost var last := PageUp(sz);
      CopyStart(lo, m, k, p, d, data, last);
      var i := 0;
      while i * PGSIZE < sz
        invariant 0 <= i <= last && Valid() && IsDir(owner, d)
        invariant Grown(k, View(), d, 0, i, {}) && Copied(m, View(), p, d, i)
        invariant |free| - Cost(View(), d, i, last) == |k.free| - Cost(k, d, 0, last)
      {
        ghost var n := View();
        CopyTurn(lo, m, k, n, p, d, data, i, last);
        var t := WalkPgdir(p, i, false);
        PteAt(n, p, i, t);
        var pte := mem[t][i % NPT];
        var page := mem[pte / PGSIZE];
        var added, held := AddPage(d, i, page, pte % PGSIZE);
        if !added {
          UndoCopy(d, held, m, k, n, data, i, page);
          d := 0;
          return;
        }
        i := i + 1;
      }
      CostDone(View(), d, last);
      CopyDone(lo, m, k, View(), d, data, last);
      CopyRights(lo, m, View(), p, d, data, last);
    }

    /** copyuvm's way out when memory is short at page v. */
    method UndoCopy(d: nat, held: nat, ghost m: Vm, ghost k: Vm, ghost n: Vm, ghost data: nat, ghost v: nat, ghost page: Page)
      requires Valid() && Sound(lo, m) && Sound(lo, n) && IsDir(n.owner, d)
      requires KernelSpace(m, k, d, data) && Grown(k, n, d, 0, v, {})
      requires if held == 0 then View() == n else |n.free| > 0 && held == n.free[0] && View() == Filled(n, page)
      modifies this`mem, this`head, this`free, this`owner
      ensures Valid() && SameFrames(m, View())
    {
      hide Sound, KernelSpace, SameFrames, Grown, Filled, ChildPart;
      HeldGrown(lo, k, n, View(), d, 0, v, held, page);
      if held != 0 {
        GrownDrop(lo, k, View(), d, 0, v, held);
        KFree(held);
      }
      ghost var x := View();
      PartOfChild(lo, m, k, x, d, data, v);
      FreeVm(d);
      PartGone(lo, m, x, View(), d);
    }
  }

  lemma {:induction false} ZeroedNone(n: Vm, d: nat, a: nat)
    ensures Zeroed(n, d, a, a)
  {
  }

  lemma {:induction false} CostDone(n: Vm, d: nat, b: nat)
    ensures Cost(n, d, b, b) == 0
  {
  }

  /** What a turn of allocuvm's loop has to work with. */
  lemma {:induction false} AllocTurn(lo: nat, m: Vm, n: Vm, d: nat, a: nat, v: nat, b: nat)
    requires Sound(lo, n) && IsDir(n.owner, d) && Vacant(m, d, a, b)
    requires a <= v < b <= USERPAGES && Grown(m, n, d, a, v, {}) && Zeroed(n, d, a, v)
    ensures !Present(Pte(n.mem, n.owner, d, v)) && Cost(n, d, v, b) >= 1 + TablesFor(n, d, v)
    ensures |n.free| >= 1 + TablesFor(n, d, v) ==>
              var o := Added(n, d, v, ZeroPage(), 6);
              && Grown(m, o, d, a, v + 1, {}) && Zeroed(o, d, a, v + 1) && IsDir(o.owner, d)
              && |o.free| - Cost(o, d, v + 1, b) == |n.free| - Cost(n, d, v, b)
  {
    hide Sound, Grown, Added, Cost, Zeroed, Pte;
    StillVacant(m, n, d, a, v, b);
    CostNow(n, d, v, b);
    if |n.free| >= 1 + TablesFor(n, d, v) {
      AddedZeroed(lo, m, n, d, a, v, b);
    }
  }

  ghost predicate Zeroed(n: Vm, d: nat, a: nat, v: nat) {
    forall u: nat | a <= u < v :: ZeroedAt(n, d, u)
  }

  /** Page u of d is a zeroed frame, present, writable and accessible to the user. */
  ghost predicate ZeroedAt(n: Vm, d: nat, u: nat) {
    var w := Pte(n.mem, n.owner, d, u);
    w % PGSIZE == 7 && Present(w) && FrameOf(w) < |n.mem| && n.mem[FrameOf(w)] == ZeroPage()
  }

  lemma {:induction false} ZeroedRights(lo: nat, n: Vm, d: nat, a: nat, b: nat)
    requires Sound(lo, n) && Zeroed(n, d, a, b)
    ensures forall u: nat | a <= u < b :: Rights(n, d, u) == Access(true, true)
  {
    forall u: nat | a <= u < b ensures Rights(n, d, u) == Access(true, true) {
      assert ZeroedAt(n, d, u);
      RightsOf(lo, n, d, u);
      FlagBits(Pte(n.mem, n.owner, d, u));
    }
  }

  lemma {:induction false} StillVacant(m: Vm, n: Vm, d: nat, a: nat, v: nat, b: nat)
    requires Vacant(m, d, a, b) && Grown(m, n, d, a, v, {}) && a <= v < b
    ensures !Present(Pte(n.mem, n.owner, d, v))
  {
  }

  lemma {:induction false} AddedZeroed(lo: nat, m: Vm, n: Vm, d: nat, a: nat, v: nat, b: nat)
    requires Sound(lo, n) && |n.free| >= 1 + TablesFor(n, d, v) && IsDir(n.owner, d)
    requires a <= v < b <= USERPAGES && !Present(Pte(n.mem, n.owner, d, v)) && Grown(m, n, d, a, v, {})
    requires Zeroed(n, d, a, v)
    ensures var o := Added(n, d, v, ZeroPage(), 6);
            && Grown(m, o, d, a, v + 1, {}) && Zeroed(o, d, a, v + 1) && IsDir(o.owner, d)
            && |o.free| - Cost(o, d, v + 1, b) == |n.free| - Cost(n, d, v, b)
  {
    AddedGrows(lo, m, n, d, a, v, ZeroPage(), 6);
    AddedCost(lo, n, d, v, b, ZeroPage(), 6);
    AddedFacts(lo, n, d, v, ZeroPage(), 6);
    var o := Added(n, d, v, ZeroPage(), 6);
    hide Sound, Grown, Added, Pte, TabRef, MapsPage, Lacking;
    forall u: nat | a <= u < v + 1 ensures ZeroedAt(o, d, u) {
      if u < v {
        assert ZeroedAt(n, d, u);
        assert PageKept(n, o, d, u);
      }
    }
  }

  lemma {:induction false} HeldGrown(lo: nat, m: Vm, n: Vm, x: Vm, d: nat, a: nat, v: nat, held: nat, page: Page)
    requires Sound(lo, n) && Grown(m, n, d, a, v, {}) && IsDir(n.owner, d)
    requires if held == 0 then x == n else |n.free| > 0 && held == n.free[0] && x == Filled(n, page)
    ensures Grown(m, x, d, a, v, if held == 0 then {} else {held}) && IsDir(x.owner, d)
  {
    if held != 0 {
      GrownTake(lo, m, n, d, a, v, page);
      FilledFacts(lo, n, d, v, page, 0);
      hide Grown, Sound, Pte, TabRef;
    }
  }

  lemma {:induction false} Undone(lo: nat, m: Vm, x: Vm, o: Vm, d: nat, a: nat, v: nat, b: nat, held: nat)
    requires Sound(lo, m) && Vacant(m, d, a, b) && Grown(m, x, d, a, v, if held == 0 then {} else {held})
    requires a <= v <= b && Shrunk(x, o, d, a, b)
    ensures Restored(m, o, d, if held == 0 then {} else {held})
  {
    hide Sound, Grown, Restored, Shrunk, Vacant;
    Rollback(lo, m, x, o, d, a, v, b, if held == 0 then {} else {held});
  }

  lemma {:induction false} HeldDrop(lo: nat, m: Vm, n: Vm, d: nat, held: nat)
    requires Sound(lo, n) && Restored(m, n, d, {held}) && IsDir(n.owner, d)
    ensures lo <= held < TOP == |n.mem| && Sound(lo, Dropped(n, held)) && Restored(m, Dropped(n, held), d, {})
    ensures IsDir(Dropped(n, held).owner, d)
  {
    assert held in {held};
    assert OwnerOk(lo, n.mem, n.owner, held);
    DroppedSound(lo, n, held);
    RestoredDrop(lo, m, n, d, held);
    hide Sound, Restored;
  }

  function Min(a: int, b: int): int {
    if a <= b then a else b
  }

  /** deallocuvm frees the frame before it clears the entry; the order does not matter. */
  lemma {:induction false} FreePageParts(lo: nat, m: Vm, d: nat, v: nat, t: nat)
    requires Sound(lo, m) && IsDir(m.owner, d) && v < USERPAGES && t < |m.mem|
    requires t == TabRef(m.mem, m.owner, d, v / NPT) && Present(m.mem[t][v % NPT])
    ensures lo <= FrameOf(m.mem[t][v % NPT]) < TOP && FrameOf(m.mem[t][v % NPT]) != t
    ensures Ref(m.mem, m.owner, User(d, v)) == FrameOf(m.mem[t][v % NPT])
    ensures var o := Dropped(m, FrameOf(m.mem[t][v % NPT]));
            && Unmapped(m, d, v) == o.(mem := o.mem[t := o.mem[t][v % NPT := 0]])
            && IsDir(o.owner, d)
  {
    var f := FrameOf(m.mem[t][v % NPT]);
    assert f == Ref(m.mem, m.owner, User(d, v)) && t == Ref(m.mem, m.owner, Tab(d, v / NPT));
    assert OwnerOk(lo, m.mem, m.owner, f) && m.owner[f] == User(d, v) && m.owner[t] == Tab(d, v / NPT);
    var o := Dropped(m, f);
    hide Sound, TabRef, Ref, OwnerOk;
    assert Store(m, d, v, 0, f, Other).mem[f := FreedPage(m.head)] == o.mem[t := o.mem[t][v % NPT := 0]];
    assert m.owner[f := Other] - {f} == m.owner - {f};
  }

  lemma {:induction false} PteAt(n: Vm, d: nat, v: nat, t: nat)
    requires TabRef(n.mem, n.owner, d, v / NPT) == t < |n.mem|
    ensures Pte(n.mem, n.owner, d, v) == n.mem[t][v % NPT]
  {
  }

  lemma {:induction false} NoTableNoPages(n: Vm, d: nat, v: nat, next: nat)
    requires TabRef(n.mem, n.owner, d, v / NPT) < 0 && next == (v / NPT + 1) * NPT
    ensures forall u: nat | v <= u < next :: !Present(Pte(n.mem, n.owner, d, u))
  {
  }

  lemma {:induction false} FreeMore(mem: seq<Page>, head: Word, free: seq<nat>, end: nat, f: nat)
    requires end <= f < TOP == |mem| && Chain(mem, head, free)
    requires forall k: nat | k < |free| :: end <= free[k] < f
    ensures Chain(mem[f := FreedPage(head)], Addr(f), [f] + free)
  {
    var mem', free' := mem[f := FreedPage(head)], [f] + free;
    forall k: nat | k < |free'| ensures LinkOk(mem', free', k) {
      assert k > 0 ==> LinkOk(mem, free, k - 1);
    }
  }
}
