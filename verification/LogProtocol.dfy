/** The on-disk redo log as a protocol over single-block writes: what a commit
    and a recovery write, in order, and what recovery makes of any disk. */
module LogProtocol {
  import opened Lists
  import opened Words

  const MAXOPBLOCKS: nat := 10
  const LOGSIZE: nat := 30

  type Disk = seq<Block>

  /** One block write; the disk performs each atomically. */
  datatype Write = Write(blockno: nat, data: Block)

  /** The log occupies blocks start .. start + size - 1; the first is its header. */
  datatype Geometry = Geometry(start: nat, size: nat)

  predicate Home(g: Geometry, k: nat) {
    k < g.start || g.start + g.size <= k
  }

  predicate FitsIn(g: Geometry, blocks: nat) {
    1 <= g.size && g.start + g.size <= blocks <= WORD_MOD
  }

  predicate Fits(g: Geometry, d: Disk) {
    FitsIn(g, |d|)
  }

  function Perform(d: Disk, w: Write): (r: Disk)
    ensures |r| == |d|
  {
    if w.blockno < |d| then d[w.blockno := w.data] else d
  }

  function Apply(d: Disk, ws: seq<Write>): (r: Disk)
    ensures |r| == |d|
  {
    if ws == [] then d else Perform(Apply(d, ws[..|ws| - 1]), ws[|ws| - 1])
  }

  ghost predicate SameHome(g: Geometry, d: Disk, e: Disk) {
    |d| == |e| && forall k: nat | k < |d| && Home(g, k) :: d[k] == e[k]
  }

  /** A list of logged block numbers that the log of a disk has room for. */
  ghost predicate Loggable(g: Geometry, blocks: nat, lh: seq<nat>) {
    && FitsIn(g, blocks)
    && |lh| <= LOGSIZE && |lh| < g.size
    && Distinct(lh)
    && forall i | 0 <= i < |lh| :: Home(g, lh[i]) && lh[i] < blocks
  }

  // ---- the header block ----

  /** The header block after its first i entries were overwritten with lh's. */
  function PutEntries(b: Block, lh: seq<nat>, i: nat): Block
    requires i <= |lh| <= LOGSIZE && forall j | 0 <= j < |lh| :: lh[j] < WORD_MOD
  {
    if i == 0 then PutWord(b, 0, |lh|) else PutWord(PutEntries(b, lh, i - 1), i, lh[i - 1])
  }

  /** What write_head stores: the count and the entries; later entries stay stale. */
  function PutHeader(b: Block, lh: seq<nat>): Block
    requires |lh| <= LOGSIZE && forall j | 0 <= j < |lh| :: lh[j] < WORD_MOD
  {
    PutEntries(b, lh, |lh|)
  }

  function HeaderCount(g: Geometry, d: Disk): Word
    requires Fits(g, d)
  {
    GetWord(d[g.start], 0)
  }

  /** The block numbers that read_head takes from the header. */
  function HeaderBlocks(g: Geometry, d: Disk): (lh: seq<nat>)
    requires Fits(g, d) && HeaderCount(g, d) <= LOGSIZE
    ensures |lh| == HeaderCount(g, d)
  {
    seq(HeaderCount(g, d), i requires 0 <= i < LOGSIZE => GetWord(d[g.start], i + 1))
  }

  ghost predicate GoodLog(g: Geometry, d: Disk) {
    Fits(g, d) && HeaderCount(g, d) <= LOGSIZE && Loggable(g, |d|, HeaderBlocks(g, d))
  }

  lemma {:induction false} EntriesReadBack(b: Block, lh: seq<nat>, i: nat, j: nat)
    requires i <= |lh| <= LOGSIZE && forall t | 0 <= t < |lh| :: lh[t] < WORD_MOD
    requires j <= i
    ensures GetWord(PutEntries(b, lh, i), j) == if j == 0 then |lh| else lh[j - 1]
  {
    if i == 0 {
      GetPutWord(b, 0, |lh|, j);
    } else {
      GetPutWord(PutEntries(b, lh, i - 1), i, lh[i - 1], j);
      if j < i {
        EntriesReadBack(b, lh, i - 1, j);
      }
    }
  }

  /** read_head after write_head gives back the logged list, whatever the block held. */
  lemma {:induction false} HeaderReadsBack(g: Geometry, d: Disk, b: Block, lh: seq<nat>)
    requires Fits(g, d) && |lh| <= LOGSIZE && forall t | 0 <= t < |lh| :: lh[t] < WORD_MOD
    requires d[g.start] == PutHeader(b, lh)
    ensures HeaderCount(g, d) == |lh| && HeaderBlocks(g, d) == lh
  {
    EntriesReadBack(b, lh, |lh|, 0);
    forall i | 0 <= i < |lh| ensures HeaderBlocks(g, d)[i] == lh[i] {
      EntriesReadBack(b, lh, |lh|, i + 1);
    }
  }

  // ---- write plans ----

  /** write_log: logged blocks go to the log area, in log order. */
  function CopyPlan(g: Geometry, lh: seq<nat>, view: Disk): (ws: seq<Write>)
    requires forall i | 0 <= i < |lh| :: lh[i] < |view|
    ensures |ws| == |lh|
  {
    seq(|lh|, i requires 0 <= i < |lh| => Write(g.start + 1 + i, view[lh[i]]))
  }

  /** install_trans: log blocks go to their home locations. */
  function InstallPlan(g: Geometry, lh: seq<nat>, d: Disk): (ws: seq<Write>)
    requires g.start + |lh| < |d|
    ensures |ws| == |lh|
  {
    seq(|lh|, i requires 0 <= i < |lh| => Write(lh[i], d[g.start + 1 + i]))
  }

  function HeaderWrite(g: Geometry, d: Disk, lh: seq<nat>): Write
    requires Fits(g, d) && |lh| <= LOGSIZE && forall j | 0 <= j < |lh| :: lh[j] < WORD_MOD
  {
    Write(g.start, PutHeader(d[g.start], lh))
  }

  /** The disk once write_log and the committing write_head are through. */
  function Logged(g: Geometry, lh: seq<nat>, d: Disk, view: Disk): (r: Disk)
    requires Fits(g, d) && |lh| <= LOGSIZE && |view| == |d|
    requires forall i | 0 <= i < |lh| :: lh[i] < |d|
    ensures |r| == |d|
  {
    Apply(d, CopyPlan(g, lh, view) + [HeaderWrite(g, d, lh)])
  }

  /** Every block that commit() writes, in order, starting from disk d with the
      cache showing `view`. */
  function CommitPlan(g: Geometry, lh: seq<nat>, d: Disk, view: Disk): seq<Write>
    requires Fits(g, d) && |lh| <= LOGSIZE && |lh| < g.size && |view| == |d|
    requires forall i | 0 <= i < |lh| :: lh[i] < |d|
  {
    var l := Logged(g, lh, d, view);
    if lh == [] then [] else
      CopyPlan(g, lh, view) + [HeaderWrite(g, d, lh)] + RecoveryPlan(g, lh, l)
  }

  /** install_trans followed by clearing the header, as in recover_from_log and
      in the tail of commit(). */
  function RecoveryPlan(g: Geometry, lh: seq<nat>, d: Disk): (ws: seq<Write>)
    requires Fits(g, d) && |lh| < g.size
    ensures |ws| == |lh| + 1
  {
    InstallPlan(g, lh, d) + [HeaderWrite(g, d, [])]
  }

  /** The disk that an undisturbed recovery leaves. */
  ghost function Recover(g: Geometry, d: Disk): Disk
    requires GoodLog(g, d)
  {
    Apply(d, RecoveryPlan(g, HeaderBlocks(g, d), d))
  }

  // ---- what prefixes of the plans do ----

  lemma ApplyPush(d: Disk, ws: seq<Write>, i: nat)
    requires i < |ws|
    ensures Apply(d, ws[..i + 1]) == Perform(Apply(d, ws[..i]), ws[i])
  {
    assert ws[..i + 1][..i] == ws[..i];
  }

  lemma {:induction false} ApplyConcat(d: Disk, ws: seq<Write>, vs: seq<Write>)
    ensures Apply(d, ws + vs) == Apply(Apply(d, ws), vs)
  {
    if vs == [] {
      assert ws + vs == ws;
    } else {
      var n := |vs| - 1;
      ApplyConcat(d, ws, vs[..n]);
      assert (ws + vs)[..|ws + vs| - 1] == ws + vs[..n];
    }
  }

  /** After i log-area writes only those i log blocks changed. */
  lemma {:induction false} CopyPrefix(g: Geometry, lh: seq<nat>, d: Disk, view: Disk, i: nat)
    requires Loggable(g, |d|, lh) && |view| == |d| && i <= |lh|
    ensures var e := Apply(d, CopyPlan(g, lh, view)[..i]);
            forall k: nat | k < |d| ::
              e[k] == if g.start < k <= g.start + i then view[lh[k - g.start - 1]] else d[k]
  {
    if i > 0 {
      CopyPrefix(g, lh, d, view, i - 1);
      ApplyPush(d, CopyPlan(g, lh, view), i - 1);
    }
  }

  /** Index of block k among the first i logged ones, or i when absent. */
  function Slot(lh: seq<nat>, i: nat, k: nat): (r: nat)
    requires i <= |lh|
    ensures r <= i && (r < i ==> lh[r] == k) && (r == i ==> k !in lh[..i])
  {
    if i == 0 then 0 else
      var r := Slot(lh, i - 1, k);
      if r < i - 1 then r else if lh[i - 1] == k then i - 1 else i
  }

  /** Block k after the first i logged blocks were installed. */
  function Installed(g: Geometry, lh: seq<nat>, d: Disk, i: nat, k: nat): Block
    requires i <= |lh| && g.start + |lh| < |d| && k < |d|
  {
    var s := Slot(lh, i, k);
    if s < i then d[g.start + 1 + s] else d[k]
  }

  /** After i installs exactly the first i logged blocks hold their log copies. */
  lemma {:induction false} InstallPrefix(g: Geometry, lh: seq<nat>, d: Disk, i: nat)
    requires Loggable(g, |d|, lh) && i <= |lh|
    ensures var e := Apply(d, InstallPlan(g, lh, d)[..i]);
            forall k: nat | k < |d| ::
              e[k] == Installed(g, lh, d, i, k)
  {
    if i > 0 {
      InstallPrefix(g, lh, d, i - 1);
      ApplyPush(d, InstallPlan(g, lh, d), i - 1);
    }
  }

  /** Pointwise meaning of recovery: a home block named by the header gets its
      log copy, any other home block keeps what it has, and the log is empty. */
  lemma {:induction false} RecoverMeaning(g: Geometry, d: Disk)
    requires GoodLog(g, d)
    ensures var e := Recover(g, d); var lh := HeaderBlocks(g, d);
            && |e| == |d|
            && (forall k: nat | k < |d| && Home(g, k) ::
                  e[k] == Installed(g, lh, d, |lh|, k))
            && GoodLog(g, e) && HeaderCount(g, e) == 0
  {
    var lh := HeaderBlocks(g, d);
    var p := InstallPlan(g, lh, d);
    InstallPrefix(g, lh, d, |lh|);
    assert p[..|lh|] == p;
    ApplyConcat(d, p, [HeaderWrite(g, d, [])]);
    var e := Apply(d, p);
    assert Apply(e, [HeaderWrite(g, d, [])]) == Perform(e, HeaderWrite(g, d, []));
    HeaderReadsBack(g, Recover(g, d), d[g.start], []);
  }

  lemma EmptyLogRecovers(g: Geometry, d: Disk)
    requires GoodLog(g, d) && HeaderCount(g, d) == 0
    ensures SameHome(g, Recover(g, d), d)
  {
    RecoverMeaning(g, d);
  }

  /** Header and log area unchanged, home blocks either installed or not yet:
      recovery gives the same home blocks. */
  lemma {:induction false} RecoverAgain(g: Geometry, d: Disk, e: Disk)
    requires GoodLog(g, d) && |e| == |d|
    requires forall k | g.start <= k < g.start + g.size :: e[k] == d[k]
    requires forall k: nat | k < |d| && Home(g, k) && k !in HeaderBlocks(g, d) :: e[k] == d[k]
    ensures GoodLog(g, e) && SameHome(g, Recover(g, e), Recover(g, d))
  {
    assert HeaderBlocks(g, e) == HeaderBlocks(g, d);
    RecoverMeaning(g, d);
    RecoverMeaning(g, e);
  }

  lemma {:induction false} InstallTouchesLoggedOnly(g: Geometry, lh: seq<nat>, d: Disk, j: nat)
    requires Loggable(g, |d|, lh) && j <= |lh|
    ensures var e := Apply(d, InstallPlan(g, lh, d)[..j]);
            forall k: nat | k < |d| && (k !in lh || !Home(g, k)) :: e[k] == d[k]
  {
    InstallPrefix(g, lh, d, j);
    var e := Apply(d, InstallPlan(g, lh, d)[..j]);
    forall k: nat | k < |d| && (k !in lh || !Home(g, k)) ensures e[k] == d[k] {
      assert e[k] == Installed(g, lh, d, j, k);
      assert forall t | 0 <= t < j :: lh[t] != k;
    }
  }

  lemma {:induction false} InstallRestartable(g: Geometry, d: Disk, lh: seq<nat>, j: nat)
    requires GoodLog(g, d) && lh == HeaderBlocks(g, d) && j <= |lh|
    ensures var e := Apply(d, InstallPlan(g, lh, d)[..j]);
            GoodLog(g, e) && SameHome(g, Recover(g, e), Recover(g, d))
  {
    InstallTouchesLoggedOnly(g, lh, d, j);
    RecoverAgain(g, d, Apply(d, InstallPlan(g, lh, d)[..j]));
  }

  /** A recovery cut off after any number of writes can be rerun: it still
      recovers the same home blocks. */
  lemma {:induction false} RecoveryRestartable(g: Geometry, d: Disk, lh: seq<nat>, j: nat)
    requires GoodLog(g, d) && lh == HeaderBlocks(g, d) && j <= |lh| + 1
    ensures var e := Apply(d, RecoveryPlan(g, lh, d)[..j]);
            GoodLog(g, e) && SameHome(g, Recover(g, e), Recover(g, d))
  {
    if j <= |lh| {
      assert RecoveryPlan(g, lh, d)[..j] == InstallPlan(g, lh, d)[..j];
      InstallRestartable(g, d, lh, j);
    } else {
      assert RecoveryPlan(g, lh, d)[..j] == RecoveryPlan(g, lh, d);
      RecoverMeaning(g, d);
      EmptyLogRecovers(g, Recover(g, d));
    }
  }

  /** The point of the protocol.  Cut off after j writes, a commit recovers to the
      old disk when the header write is not among them, and to the cache's view
      when it is. */
  lemma {:induction false} CommitAtomic(g: Geometry, lh: seq<nat>, d: Disk, view: Disk, j: nat)
    requires Loggable(g, |d|, lh) && lh != [] && GoodLog(g, d) && HeaderCount(g, d) == 0
    requires |view| == |d| && forall k: nat | k < |d| && Home(g, k) && k !in lh :: view[k] == d[k]
    requires j <= 2 * |lh| + 2
    ensures |CommitPlan(g, lh, d, view)| == 2 * |lh| + 2
    ensures var e := Apply(d, CommitPlan(g, lh, d, view)[..j]);
            GoodLog(g, e) && SameHome(g, Recover(g, e), if j <= |lh| then d else view)
  {
    if j <= |lh| {
      CommitHead(g, lh, d, view, j);
    } else {
      CommitTail(g, lh, d, view, j - |lh| - 1);
    }
  }

  /** Before the header write, a commit has not touched any home block. */
  lemma {:induction false} CommitHead(g: Geometry, lh: seq<nat>, d: Disk, view: Disk, j: nat)
    requires Loggable(g, |d|, lh) && lh != [] && GoodLog(g, d) && HeaderCount(g, d) == 0
    requires |view| == |d| && j <= |lh|
    ensures |CommitPlan(g, lh, d, view)| == 2 * |lh| + 2
    ensures var e := Apply(d, CommitPlan(g, lh, d, view)[..j]);
            GoodLog(g, e) && SameHome(g, Recover(g, e), d)
  {
    var plan := CommitPlan(g, lh, d, view);
    assert plan[..j] == CopyPlan(g, lh, view)[..j];
    CopyPrefix(g, lh, d, view, j);
    var e := Apply(d, plan[..j]);
    assert HeaderBlocks(g, e) == [];
    EmptyLogRecovers(g, e);
  }

  /** Past the header write, a commit is a recovery of the logged disk. */
  lemma {:induction false} CommitTail(g: Geometry, lh: seq<nat>, d: Disk, view: Disk, i: nat)
    requires Loggable(g, |d|, lh) && lh != [] && i <= |lh| + 1
    requires |view| == |d| && forall k: nat | k < |d| && Home(g, k) && k !in lh :: view[k] == d[k]
    ensures |CommitPlan(g, lh, d, view)| == 2 * |lh| + 2
    ensures var e := Apply(d, CommitPlan(g, lh, d, view)[..|lh| + 1 + i]);
            GoodLog(g, e) && SameHome(g, Recover(g, e), view)
  {
    var l := Logged(g, lh, d, view);
    CommitTailIsRecovery(g, lh, d, view, i);
    LoggedRecoversToView(g, lh, d, view);
    RecoveryRestartable(g, l, lh, i);
  }

  lemma {:induction false} CommitTailIsRecovery(g: Geometry, lh: seq<nat>, d: Disk, view: Disk, i: nat)
    requires Loggable(g, |d|, lh) && lh != [] && |view| == |d| && i <= |lh| + 1
    ensures var l := Logged(g, lh, d, view);
            && |CommitPlan(g, lh, d, view)| == 2 * |lh| + 2
            && Apply(d, CommitPlan(g, lh, d, view)[..|lh| + 1 + i]) == Apply(l, RecoveryPlan(g, lh, l)[..i])
  {
    var l := Logged(g, lh, d, view);
    var head := CopyPlan(g, lh, view) + [HeaderWrite(g, d, lh)];
    assert CommitPlan(g, lh, d, view)[..|lh| + 1 + i] == head + RecoveryPlan(g, lh, l)[..i];
    ApplyConcat(d, head, RecoveryPlan(g, lh, l)[..i]);
  }

  lemma {:induction false} LoggedMeaning(g: Geometry, lh: seq<nat>, d: Disk, view: Disk)
    requires Loggable(g, |d|, lh) && |view| == |d|
    ensures var l := Logged(g, lh, d, view);
            && l[g.start] == PutHeader(d[g.start], lh)
            && (forall i | 0 <= i < |lh| :: l[g.start + 1 + i] == view[lh[i]])
            && SameHome(g, l, d)
  {
    var p := CopyPlan(g, lh, view);
    assert p[..|lh|] == p;
    CopyPrefix(g, lh, d, view, |lh|);
    ApplyConcat(d, p, [HeaderWrite(g, d, lh)]);
    var e := Apply(d, p);
    assert Apply(e, [HeaderWrite(g, d, lh)]) == Perform(e, HeaderWrite(g, d, lh));
  }

  lemma {:induction false} LoggedRecoversToView(g: Geometry, lh: seq<nat>, d: Disk, view: Disk)
    requires Loggable(g, |d|, lh)
    requires |view| == |d| && forall k: nat | k < |d| && Home(g, k) && k !in lh :: view[k] == d[k]
    ensures var l := Logged(g, lh, d, view);
            GoodLog(g, l) && HeaderBlocks(g, l) == lh && SameHome(g, Recover(g, l), view)
  {
    var l := Logged(g, lh, d, view);
    LoggedMeaning(g, lh, d, view);
    HeaderReadsBack(g, l, d[g.start], lh);
    RecoverMeaning(g, l);
    forall k: nat | k < |d| && Home(g, k) ensures Recover(g, l)[k] == view[k] {
      assert Recover(g, l)[k] == Installed(g, lh, l, |lh|, k);
      assert lh[..|lh|] == lh;
    }
  }

  lemma {:induction false} CommitIsRecoveryOfLogged(g: Geometry, lh: seq<nat>, d: Disk, view: Disk)
    requires Loggable(g, |d|, lh) && lh != [] && |view| == |d|
    ensures var l := Logged(g, lh, d, view);
            && |CommitPlan(g, lh, d, view)| == 2 * |lh| + 2
            && Apply(d, CommitPlan(g, lh, d, view)) == Apply(l, RecoveryPlan(g, lh, l))
  {
    var l, plan := Logged(g, lh, d, view), CommitPlan(g, lh, d, view);
    CommitTailIsRecovery(g, lh, d, view, |lh| + 1);
    assert plan[..2 * |lh| + 2] == plan;
    assert RecoveryPlan(g, lh, l)[..|lh| + 1] == RecoveryPlan(g, lh, l);
  }

  /** An undisturbed commit leaves the disk as readers saw it, with an empty log. */
  lemma {:induction false} CommitEnds(g: Geometry, lh: seq<nat>, d: Disk, view: Disk)
    requires Loggable(g, |d|, lh) && lh != []
    requires |view| == |d| && forall k: nat | k < |d| && Home(g, k) && k !in lh :: view[k] == d[k]
    ensures var e := Apply(d, CommitPlan(g, lh, d, view));
            && |CommitPlan(g, lh, d, view)| == 2 * |lh| + 2
            && GoodLog(g, e) && HeaderCount(g, e) == 0 && SameHome(g, e, view)
  {
    CommitIsRecoveryOfLogged(g, lh, d, view);
    LoggedRecoversToView(g, lh, d, view);
    RecoverMeaning(g, Logged(g, lh, d, view));
  }
}
