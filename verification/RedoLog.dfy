/** log.c over the buffer cache: in-memory header, begin_op/end_op, log_write,
    commit and recovery.  Where the kernel panics the methods return false; the
    machine has then stopped, and only the disk counts. */
module RedoLog {
  import opened Lists
  import opened Words
  import opened LogProtocol
  import opened BufferCache
  import LogRuns

  /** The blocks whose buffers some process holds or waits for. */
  ghost function Held(bufs: seq<Buf>): set<nat> {
    set i | 0 <= i < |bufs| && bufs[i].refcnt > 0 :: bufs[i].blockno
  }

  /** Only readers hold buffers: blocks outside the log that are not pinned. */
  ghost predicate Quiet(g: Geometry, bufs: seq<Buf>) {
    forall i | 0 <= i < |bufs| && bufs[i].refcnt > 0 ::
      !bufs[i].dirty && bufs[i].dev == ROOTDEV && Home(g, bufs[i].blockno)
  }

  /** The same buffers are held, with the same contents. */
  ghost predicate SameHeld(a: seq<Buf>, b: seq<Buf>) {
    |a| == |b| && forall i | 0 <= i < |a| && (a[i].refcnt > 0 || b[i].refcnt > 0) :: a[i] == b[i]
  }

  ghost predicate HasFree(bufs: seq<Buf>) {
    exists i :: 0 <= i < |bufs| && Recyclable(bufs[i])
  }

  // ---- the code as steps of LogRuns ----

  /** What the log and its cache hold. */
  datatype Memory = Memory(disk: Disk, view: Disk, lh: seq<nat>, outstanding: nat, committing: bool, held: set<nat>)

  /** The log's own fields are those of the system s. */
  ghost predicate Counts(m: Memory, s: LogRuns.System) {
    && !s.phase.Recovering? && (m.committing <==> s.phase.Committing?)
    && s.lh == m.lh && |s.ops| == m.outstanding && forall op | op in s.ops :: op < s.nextOp
  }

  /** So are the disk and what the cache shows; the readers of s hold buffers here. */
  ghost predicate Shows(m: Memory, s: LogRuns.System) {
    Counts(m, s) && s.phase.Running? && s.disk == m.disk && s.view == m.view && s.held <= m.held
  }

  /** From m, the step can be taken exactly when ok, and then it leads to n. */
  ghost predicate WritesAs(g: Geometry, m: Memory, n: Memory, w: Write, ok: bool) {
    forall s, op | Shows(m, s) && op in s.ops ::
      && (ok <==> LogRuns.Enabled(g, s, LogRuns.LogWrite(op, w)))
      && (ok ==> Shows(n, LogRuns.Step(g, s, LogRuns.LogWrite(op, w))))
  }

  /** An end_op with others outstanding leads from m to n. */
  ghost predicate EndsAs(g: Geometry, m: Memory, n: Memory) {
    forall s, op | Shows(m, s) && op in s.ops ::
      LogRuns.Enabled(g, s, LogRuns.EndOp(op)) && Shows(n, LogRuns.Step(g, s, LogRuns.EndOp(op)))
  }

  /** The last end_op: its commit runs out of buffers exactly when not ok; else the whole
      commit of `count` writes leads from m to n. */
  ghost predicate CommitsAs(g: Geometry, m: Memory, n: Memory, count: nat, ok: bool) {
    forall s, op | Shows(m, s) && op in s.ops ::
      && LogRuns.Enabled(g, s, LogRuns.EndOp(op))
      && (s.held == m.held ==> (!ok <==> LogRuns.CommitRunsOut(LogRuns.Step(g, s, LogRuns.EndOp(op)))))
      && (ok ==> LogRuns.CanRun(g, s, LogRuns.LastEnd(op, count)) && Shows(n, LogRuns.Run(g, s, LogRuns.LastEnd(op, count))))
  }

  class Log {
    const g: Geometry
    const cache: Cache
    var lh: seq<nat>
    var outstanding: nat
    var committing: bool

    constructor (g: Geometry, cache: Cache)
      ensures this.g == g && this.cache == cache && lh == [] && outstanding == 0 && !committing
    {
      this.g, this.cache, lh, outstanding, committing := g, cache, [], 0, false;
    }

    ghost function Now(): Memory
      reads this, cache
    {
      Memory(cache.disk, cache.view, lh, outstanding, committing, Held(cache.bufs))
    }

    /** memmove between two held buffers, bwrite of the destination, brelse of both:
        whoever held a buffer before those two were read still holds it. */
    method CopyAndRelease(from: nat, to: nat, ghost before: seq<Buf>)
      requires cache.Valid() && from < NBUF && to < NBUF && from != to && |before| == NBUF
      requires cache.bufs[from].locked && cache.bufs[from].valid
      requires cache.bufs[to].locked && cache.bufs[to].valid
      requires cache.bufs[from].data == cache.view[cache.bufs[from].blockno]
      requires cache.bufs[from].blockno != cache.bufs[to].blockno
      requires cache.bufs[from].refcnt == 1 && cache.bufs[to].refcnt == 1
      requires before[from].refcnt == 0 && before[to].refcnt == 0
      requires forall i | 0 <= i < NBUF && i != from && i != to :: cache.bufs[i] == before[i]
      modifies cache
      ensures cache.Valid() && SameHeld(before, cache.bufs) && HasFree(cache.bufs)
      ensures Pinned(cache.bufs) == old(Pinned(cache.bufs)) - {old(cache.bufs)[to].blockno}
      ensures var w := Write(old(cache.bufs)[to].blockno, old(cache.bufs)[from].data);
              && cache.writes == old(cache.writes) + [w]
              && cache.disk == Perform(old(cache.disk), w)
              && cache.view == Perform(old(cache.view), w)
    {
      hide Cache.ListOk;
      cache.Store(to, cache.bufs[from].data);
      cache.BWrite(to);
      cache.BRelse(from);
      cache.BRelse(to);
      assert Recyclable(cache.bufs[to]);
    }

    /** One turn of write_log's loop. */
    method WriteLogBlock(tail: nat) returns (ok: bool)
      requires cache.Valid() && Quiet(g, cache.bufs) && Loggable(g, |cache.disk|, lh) && tail < |lh|
      requires Pinned(cache.bufs) == Elems(lh)
      modifies cache
      ensures ok <==> HasFree(old(cache.bufs))
      ensures !ok ==> cache.disk == old(cache.disk) && cache.writes == old(cache.writes)
      ensures ok ==> cache.Valid() && SameHeld(old(cache.bufs), cache.bufs) && HasFree(cache.bufs)
      ensures ok ==> Pinned(cache.bufs) == old(Pinned(cache.bufs))
      ensures ok ==> var w := Write(g.start + 1 + tail, old(cache.view)[lh[tail]]);
                     && cache.writes == old(cache.writes) + [w]
                     && cache.disk == Perform(old(cache.disk), w)
                     && cache.view == Perform(old(cache.view), w)
    {
      hide Cache.ListOk, Quiet, HasFree, Obtainable, LockedFor, Held, Coherent, Pinned;
      ghost var before := cache.bufs;
      LogBlockObtainable(g, cache.bufs, cache.disk, cache.view, g.start + tail + 1);
      var to := cache.BRead(g.start + tail + 1);
      ok := to.Got?;
      if !ok { return; }
      HomeObtainable(g, before, cache.bufs, cache.disk, cache.view, to.b, lh[tail]);
      var from := cache.BRead(lh[tail]);
      CopyAndRelease(from.b, to.b, before);
    }

    /** One turn of install_trans's loop: in a commit the destination is still
        pinned, in a recovery nothing is pinned or held. */
    method InstallBlock(tail: nat, ghost pinned: set<nat>) returns (ok: bool)
      requires cache.Valid() && Quiet(g, cache.bufs) && Loggable(g, |cache.disk|, lh) && tail < |lh|
      requires Pinned(cache.bufs) == pinned && (forall k | k in pinned :: Home(g, k))
      requires lh[tail] in pinned || (pinned == {} && Held(cache.bufs) == {})
      modifies cache
      ensures HasFree(old(cache.bufs)) ==> ok
      ensures !ok ==> cache.disk == old(cache.disk) && cache.writes == old(cache.writes)
      ensures ok ==> cache.Valid() && SameHeld(old(cache.bufs), cache.bufs) && HasFree(cache.bufs)
      ensures ok ==> Pinned(cache.bufs) == pinned - {lh[tail]}
      ensures ok ==> var w := Write(lh[tail], old(cache.view)[g.start + 1 + tail]);
                     && cache.writes == old(cache.writes) + [w]
                     && cache.disk == Perform(old(cache.disk), w)
                     && cache.view == Perform(old(cache.view), w)
    {
      hide Cache.ListOk, Quiet, HasFree, Obtainable, LockedFor, Held, Coherent, Pinned;
      ghost var before := cache.bufs;
      LogBlockObtainable(g, cache.bufs, cache.disk, cache.view, g.start + tail + 1);
      var from := cache.BRead(g.start + tail + 1);
      ok := from.Got?;
      if !ok { return; }
      HomeObtainable(g, before, cache.bufs, cache.disk, cache.view, from.b, lh[tail]);
      var to := cache.BRead(lh[tail]);
      CopyAndRelease(from.b, to.b, before);
    }

    /** The state of write_log's loop after `tail` turns. */
    ghost predicate Copying(tail: nat, b0: seq<Buf>, d0: Disk, v0: Disk, w0: seq<Write>)
      reads this, cache
      requires Loggable(g, |d0|, lh) && |v0| == |d0|
    {
      && tail <= |lh|
      && cache.Valid() && SameHeld(b0, cache.bufs) && Pinned(cache.bufs) == Elems(lh)
      && (if tail == 0 then cache.bufs == b0 else HasFree(b0) && HasFree(cache.bufs))
      && var ws := CopyPlan(g, lh, v0)[..tail];
      && cache.writes == w0 + ws && cache.disk == Apply(d0, ws) && cache.view == Apply(v0, ws)
    }

    method CopyNext(tail: nat, ghost b0: seq<Buf>, ghost d0: Disk, ghost v0: Disk, ghost w0: seq<Write>)
      returns (ok: bool)
      requires Loggable(g, |d0|, lh) && tail < |lh| && |v0| == |d0| && Quiet(g, b0)
      requires Copying(tail, b0, d0, v0, w0)
      modifies cache
      ensures ok <==> HasFree(b0)
      ensures ok ==> Copying(tail + 1, b0, d0, v0, w0)
      ensures !ok ==> cache.disk == d0 && cache.writes == w0
    {
      hide Cache.ListOk, Coherent, Quiet, SameHeld, HasFree, Held, Pinned;
      CopyAdvance(g, lh, d0, v0, tail);
      QuietSame(g, b0, cache.bufs);
      ghost var before := cache.bufs;
      ok := WriteLogBlock(tail);
      if ok {
        SameHeldChain(b0, before, cache.bufs);
      }
    }

    /** write_log: the logged blocks, as readers see them, go to the log area. */
    method WriteLog() returns (ok: bool)
      requires cache.Valid() && Quiet(g, cache.bufs) && Loggable(g, |cache.disk|, lh)
      requires Pinned(cache.bufs) == Elems(lh)
      modifies cache
      ensures ok <==> lh == [] || HasFree(old(cache.bufs))
      ensures !ok ==> cache.disk == old(cache.disk) && cache.writes == old(cache.writes)
      ensures ok ==> cache.Valid() && SameHeld(old(cache.bufs), cache.bufs)
      ensures ok ==> Pinned(cache.bufs) == old(Pinned(cache.bufs)) && (lh != [] ==> HasFree(cache.bufs))
      ensures ok ==> var ws := CopyPlan(g, lh, old(cache.view));
                     && cache.writes == old(cache.writes) + ws
                     && cache.disk == Apply(old(cache.disk), ws)
                     && cache.view == Apply(old(cache.view), ws)
    {
      ghost var b0, d0, v0, w0 := cache.bufs, cache.disk, cache.view, cache.writes;
      assert CopyPlan(g, lh, v0)[..0] == [];
      SameHeldSelf(b0);
      ok := true;
      var tail := 0;
      while tail < |lh|
        invariant ok && Copying(tail, b0, d0, v0, w0)
      {
        ok := CopyNext(tail, b0, d0, v0, w0);
        if !ok { return; }
        tail := tail + 1;
      }
      assert CopyPlan(g, lh, v0)[..tail] == CopyPlan(g, lh, v0);
    }

    /** write_head: the in-memory header goes over the header block. */
    method WriteHead() returns (ok: bool)
      requires cache.Valid() && Quiet(g, cache.bufs) && Loggable(g, |cache.disk|, lh)
      requires g.start !in Pinned(cache.bufs)
      modifies cache
      ensures ok <==> HasFree(old(cache.bufs))
      ensures !ok ==> cache.disk == old(cache.disk) && cache.writes == old(cache.writes)
      ensures ok ==> cache.Valid() && SameHeld(old(cache.bufs), cache.bufs) && HasFree(cache.bufs)
      ensures ok ==> Pinned(cache.bufs) == old(Pinned(cache.bufs))
      ensures ok ==> var w := HeaderWrite(g, old(cache.disk), lh);
                     && cache.writes == old(cache.writes) + [w]
                     && cache.disk == Perform(old(cache.disk), w)
                     && cache.view == Perform(old(cache.view), w)
    {
      hide Cache.ListOk;
      LogBlockObtainable(g, cache.bufs, cache.disk, cache.view, g.start);
      var r := cache.BRead(g.start);
      ok := r.Got?;
      if !ok { return; }
      var data := EncodeHeader(cache.bufs[r.b].data);
      cache.Store(r.b, data);
      cache.BWrite(r.b);
      cache.BRelse(r.b);
      assert Recyclable(cache.bufs[r.b]);
    }

    method EncodeHeader(old0: Block) returns (data: Block)
      requires |lh| <= LOGSIZE && forall j | 0 <= j < |lh| :: lh[j] < WORD_MOD
      ensures data == PutHeader(old0, lh)
    {
      data := PutWord(old0, 0, |lh|);
      for i := 0 to |lh|
        invariant data == PutEntries(old0, lh, i)
      {
        data := PutWord(data, i + 1, lh[i]);
      }
    }

    /** read_head: the in-memory header becomes what the header block says. */
    method ReadHead() returns (ok: bool)
      requires cache.Valid() && Held(cache.bufs) == {} && Pinned(cache.bufs) == {} && GoodLog(g, cache.disk)
      modifies this`lh, cache
      ensures ok && cache.Valid() && Held(cache.bufs) == {} && Pinned(cache.bufs) == {}
      ensures cache.disk == old(cache.disk) && cache.view == old(cache.view) && cache.writes == old(cache.writes)
      ensures lh == HeaderBlocks(g, old(cache.disk))
    {
      NoneHeld(cache.bufs);
      NoPinsObtainable(cache.bufs, cache.disk, cache.view, 0, g.start);
      var r := cache.BRead(g.start);
      ok := r.Got?;
      lh := DecodeHeader(cache.bufs[r.b].data);
      cache.BRelse(r.b);
    }

    method DecodeHeader(data: Block) returns (blocks: seq<nat>)
      requires GetWord(data, 0) <= LOGSIZE
      ensures |blocks| == GetWord(data, 0)
      ensures forall i | 0 <= i < |blocks| :: blocks[i] == GetWord(data, i + 1)
    {
      blocks := [];
      for i := 0 to GetWord(data, 0)
        invariant |blocks| == i && forall j | 0 <= j < i :: blocks[j] == GetWord(data, j + 1)
      {
        blocks := blocks + [GetWord(data, i + 1)];
      }
    }

    /** The state of install_trans's loop after `tail` turns. */
    ghost predicate Installing(tail: nat, b0: seq<Buf>, d0: Disk, v0: Disk, w0: seq<Write>, pinned: set<nat>)
      reads this, cache
      requires Loggable(g, |d0|, lh)
    {
      && tail <= |lh|
      && cache.Valid() && SameHeld(b0, cache.bufs) && HasFree(cache.bufs)
      && Pinned(cache.bufs) == pinned - Elems(lh[..tail])
      && var ws := InstallPlan(g, lh, d0)[..tail];
      && cache.writes == w0 + ws && cache.disk == Apply(d0, ws) && cache.view == Apply(v0, ws)
    }

    method InstallNext(tail: nat, ghost b0: seq<Buf>, ghost d0: Disk, ghost v0: Disk, ghost w0: seq<Write>,
                       ghost pinned: set<nat>)
      returns (ok: bool)
      requires Loggable(g, |d0|, lh) && tail < |lh| && |v0| == |d0| && Quiet(g, b0)
      requires forall k | g.start <= k < g.start + g.size :: v0[k] == d0[k]
      requires pinned == Elems(lh) || (pinned == {} && Held(b0) == {})
      requires Installing(tail, b0, d0, v0, w0, pinned)
      modifies cache
      ensures ok && Installing(tail + 1, b0, d0, v0, w0, pinned)
    {
      hide Cache.ListOk, Coherent, Quiet, SameHeld, HasFree, Held, Pinned, Apply, InstallPlan, Elems;
      InstallAdvance(g, lh, d0, v0, tail);
      StillPinned(g, d0, lh, tail, pinned);
      QuietSame(g, b0, cache.bufs);
      ghost var before := cache.bufs;
      ok := InstallBlock(tail, Pinned(cache.bufs));
      SameHeldChain(b0, before, cache.bufs);
    }

    /** install_trans: log copies go home, in log order. */
    method InstallTrans() returns (ok: bool)
      requires cache.Valid() && Quiet(g, cache.bufs) && Loggable(g, |cache.disk|, lh)
      requires Pinned(cache.bufs) == Elems(lh) || (Pinned(cache.bufs) == {} && Held(cache.bufs) == {})
      requires HasFree(cache.bufs)
      requires forall k | g.start <= k < g.start + g.size :: cache.view[k] == cache.disk[k]
      modifies cache
      ensures ok && cache.Valid() && SameHeld(old(cache.bufs), cache.bufs)
      ensures Pinned(cache.bufs) == {} && HasFree(cache.bufs)
      ensures var ws := InstallPlan(g, lh, old(cache.disk));
              && cache.writes == old(cache.writes) + ws
              && cache.disk == Apply(old(cache.disk), ws)
              && cache.view == Apply(old(cache.view), ws)
    {
      ghost var b0, d0, v0, w0, pinned := cache.bufs, cache.disk, cache.view, cache.writes, Pinned(cache.bufs);
      assert Elems(lh[..0]) == {};
      assert InstallPlan(g, lh, d0)[..0] == [];
      ok := true;
      for tail := 0 to |lh|
        invariant ok && Installing(tail, b0, d0, v0, w0, pinned)
      {
        ok := InstallNext(tail, b0, d0, v0, w0, pinned);
      }
      assert InstallPlan(g, lh, d0)[..|lh|] == InstallPlan(g, lh, d0) && lh[..|lh|] == lh;
    }

    /** Between operations the log is empty on disk, and exactly the logged blocks
        are pinned in the cache. */
    ghost predicate Valid()
      reads this, cache
    {
      && cache.Valid() && Loggable(g, |cache.disk|, lh) && Pinned(cache.bufs) == Elems(lh)
      && GoodLog(g, cache.disk) && HeaderCount(g, cache.disk) == 0
    }

    /** The second half of commit() and of recover_from_log(): install, then clear
        the header. */
    method InstallAndClear() returns (ok: bool)
      requires cache.Valid() && Quiet(g, cache.bufs) && Loggable(g, |cache.disk|, lh)
      requires Pinned(cache.bufs) == Elems(lh) || (Pinned(cache.bufs) == {} && Held(cache.bufs) == {})
      requires HasFree(cache.bufs)
      modifies this`lh, cache
      ensures ok && cache.Valid() && SameHeld(old(cache.bufs), cache.bufs) && lh == [] && Pinned(cache.bufs) == {}
      ensures var ws := RecoveryPlan(g, old(lh), old(cache.disk));
              && cache.writes == old(cache.writes) + ws
              && cache.disk == Apply(old(cache.disk), ws)
              && cache.view == Apply(old(cache.view), ws)
    {
      hide Cache.ListOk, Coherent, Quiet, SameHeld, HasFree, Held, Apply, InstallPlan, Pinned;
      ViewAgrees(cache.bufs, cache.disk, cache.view);
      ghost var b0, d0, v0, w0, lh0 := cache.bufs, cache.disk, cache.view, cache.writes, lh;
      ClearAfterInstall(g, lh, d0, v0);
      assert forall k | k in Elems(lh) :: Home(g, k);
      ok := InstallTrans();
      lh := [];
      QuietSame(g, b0, cache.bufs);
      ghost var b1 := cache.bufs;
      ok := WriteHead();
      SameHeldChain(b0, b1, cache.bufs);
      assert cache.writes == w0 + RecoveryPlan(g, lh0, d0);
    }

    /** The first two steps of commit(): write_log and the header write that commits. */
    method LogAndHead() returns (ok: bool)
      requires cache.Valid() && Quiet(g, cache.bufs) && Loggable(g, |cache.disk|, lh) && lh != []
      requires Pinned(cache.bufs) == Elems(lh)
      modifies cache
      ensures ok <==> HasFree(old(cache.bufs))
      ensures !ok ==> cache.disk == old(cache.disk) && cache.writes == old(cache.writes)
      ensures ok ==> cache.Valid() && SameHeld(old(cache.bufs), cache.bufs) && HasFree(cache.bufs)
      ensures ok ==> Pinned(cache.bufs) == Elems(lh)
      ensures ok ==> && cache.disk == Logged(g, lh, old(cache.disk), old(cache.view))
                     && cache.writes == old(cache.writes)
                          + (CopyPlan(g, lh, old(cache.view)) + [HeaderWrite(g, old(cache.disk), lh)])
    {
      hide Cache.ListOk, Coherent, Quiet, SameHeld, HasFree, Held, Apply, CopyPlan, Pinned, Logged;
      ViewAgrees(cache.bufs, cache.disk, cache.view);
      ghost var b0 := cache.bufs;
      HeadInParts(g, lh, cache.disk, cache.view);
      assert !Home(g, g.start);
      assert forall k | k in Elems(lh) :: Home(g, k);
      ok := WriteLog();
      if !ok { return; }
      QuietSame(g, b0, cache.bufs);
      ghost var b1 := cache.bufs;
      ok := WriteHead();
      SameHeldChain(b0, b1, cache.bufs);
    }

    /** The four steps of commit() when something is logged. */
    method CommitLogged() returns (ok: bool)
      requires cache.Valid() && Quiet(g, cache.bufs) && Loggable(g, |cache.disk|, lh) && lh != []
      requires Pinned(cache.bufs) == Elems(lh)
      modifies this`lh, cache
      ensures ok <==> HasFree(old(cache.bufs))
      ensures !ok ==> cache.disk == old(cache.disk) && cache.writes == old(cache.writes)
      ensures ok ==> cache.Valid() && SameHeld(old(cache.bufs), cache.bufs) && lh == [] && Pinned(cache.bufs) == {}
      ensures ok ==> var ws := CommitPlan(g, old(lh), old(cache.disk), old(cache.view));
                     cache.writes == old(cache.writes) + ws && cache.disk == Apply(old(cache.disk), ws)
    {
      hide Cache.ListOk, CommitPlan, Logged, CopyPlan, RecoveryPlan, HeaderWrite, Apply, Coherent, Pinned, Quiet, SameHeld, HasFree, Held;
      ViewAgrees(cache.bufs, cache.disk, cache.view);
      ghost var b0, d0, v0, w0, lh0 := cache.bufs, cache.disk, cache.view, cache.writes, lh;
      CommitInParts(g, lh, d0, v0);
      ok := LogAndHead();
      if !ok { return; }
      QuietSame(g, b0, cache.bufs);
      ghost var b1 := cache.bufs;
      ok := InstallAndClear();
      SameHeldChain(b0, b1, cache.bufs);
      assert cache.writes == w0 + CommitPlan(g, lh0, d0, v0);
    }

    /** commit(), while readers may hold buffers of blocks that are not logged: the writes
        are exactly the commit plan, in order.  It panics exactly when logged and held
        blocks take up all buffers. */
    method Commit() returns (ok: bool)
      requires Valid() && Quiet(g, cache.bufs)
      modifies this`lh, cache
      ensures ok <==> old(lh) == [] || |old(lh)| + |Held(old(cache.bufs))| < NBUF
      ensures !ok ==> cache.disk == old(cache.disk) && cache.writes == old(cache.writes)
      ensures ok ==> Valid() && SameHeld(old(cache.bufs), cache.bufs) && lh == []
      ensures ok ==> SameHome(g, cache.view, old(cache.view)) && cache.disk == cache.view
      ensures ok ==> var ws := CommitPlan(g, old(lh), old(cache.disk), old(cache.view));
                     cache.writes == old(cache.writes) + ws && cache.disk == Apply(old(cache.disk), ws)
    {
      hide Cache.ListOk, HasFree, Quiet, Held, SameHeld, Coherent, Pinned, CommitPlan, Apply;
      ok := true;
      ghost var d0, v0, lh0 := cache.disk, cache.view, lh;
      ViewAgreesOff(cache.bufs, cache.disk, cache.view, lh);
      FreeIffRoom(g, cache.bufs, cache.disk, cache.view, lh);
      SameHeldSelf(cache.bufs);
      if |lh| > 0 {
        ok := CommitLogged();
        if !ok { return; }
        CommitEnds(g, lh0, d0, v0);
        ViewAgreesOff(cache.bufs, cache.disk, cache.view, lh);
      } else {
        NothingToCommit(g, d0, v0);
      }
    }

    /** recover_from_log at boot: the writes are exactly the recovery plan of the
        disk as found, it cannot fail, and it is a recovery of the run theorems. */
    method RecoverFromLog() returns (ok: bool)
      requires cache.Valid() && Held(cache.bufs) == {} && Pinned(cache.bufs) == {} && GoodLog(g, cache.disk)
      requires outstanding == 0 && !committing
      modifies this`lh, cache
      ensures ok && Valid() && Held(cache.bufs) == {} && lh == []
      ensures cache.disk == Recover(g, old(cache.disk)) && cache.view == cache.disk
      ensures cache.writes == old(cache.writes)
                + RecoveryPlan(g, HeaderBlocks(g, old(cache.disk)), old(cache.disk))
      ensures var acts := LogRuns.Writes(HeaderCount(g, old(cache.disk)) + 1) + [LogRuns.Finish];
              && LogRuns.CanRun(g, LogRuns.Boot(g, old(cache.disk)), acts)
              && Shows(Now(), LogRuns.Run(g, LogRuns.Boot(g, old(cache.disk)), acts))
    {
      hide Cache.ListOk;
      ghost var d0 := cache.disk;
      RecoverMeaning(g, cache.disk);
      ok := ReadHead();
      NoneHeld(cache.bufs);
      AllClean(cache.bufs);
      ghost var b1 := cache.bufs;
      ok := InstallAndClear();
      QuietSame(g, b1, cache.bufs);
      ViewAgrees(cache.bufs, cache.disk, cache.view);
      LogRuns.RunPlan(g, LogRuns.Boot(g, d0));
    }

    /** begin_op, once: it is admitted exactly when the system can take the begin_op step,
        and then it has taken it; otherwise it goes to sleep.  An admitted operation has
        room reserved beside all others. */
    method TryBeginOp() returns (admitted: bool)
      modifies this`outstanding
      ensures forall s | Counts(old(Now()), s) :: admitted <==> LogRuns.Enabled(g, s, LogRuns.BeginOp)
      ensures forall s, p | Counts(old(Now()), s) :: !admitted <==> LogRuns.Enabled(g, s, LogRuns.BeginOpSleep(p))
      ensures forall s | Counts(old(Now()), s) && admitted :: Counts(Now(), LogRuns.Step(g, s, LogRuns.BeginOp))
      ensures admitted ==> |lh| + outstanding * MAXOPBLOCKS <= LOGSIZE
      ensures outstanding == if admitted then old(outstanding) + 1 else old(outstanding)
    {
      admitted := false;
      if committing {
      } else if |lh| + (outstanding + 1) * MAXOPBLOCKS > LOGSIZE {
      } else {
        outstanding := outstanding + 1;
        admitted := true;
      }
    }

    /** end_op: the last operation out commits everything logged so far.  In the run
        theorems' terms it is the end_op step, followed by all writes of the commit and
        its finish if it was the last; it panics exactly when that commit runs out of
        buffers. */
    method EndOp() returns (ok: bool)
      requires Valid() && outstanding > 0
      requires outstanding == 1 ==> Quiet(g, cache.bufs)
      modifies this, cache
      ensures outstanding == old(outstanding) - 1
      ensures ok <==> !old(committing)
                      && (outstanding == 0 ==> old(lh) == [] || |old(lh)| + |Held(old(cache.bufs))| < NBUF)
      ensures ok ==> Valid() && !committing
      ensures !ok || outstanding > 0 ==> cache.disk == old(cache.disk) && cache.writes == old(cache.writes)
      ensures ok && outstanding > 0 ==> lh == old(lh) && cache.view == old(cache.view)
      ensures ok && outstanding == 0 ==>
                && lh == [] && SameHome(g, cache.view, old(cache.view))
                && cache.writes == old(cache.writes)
                     + CommitPlan(g, old(lh), old(cache.disk), old(cache.view))
      ensures ok && outstanding > 0 ==> EndsAs(g, old(Now()), Now())
      ensures !old(committing) && outstanding == 0 ==>
                CommitsAs(g, old(Now()), Now(), |CommitPlan(g, old(lh), old(cache.disk), old(cache.view))|, ok)
    {
      hide Cache.ListOk, Quiet, Coherent, Held, SameHeld, EndsAs, CommitsAs, GoodLog, Pinned, Apply, CommitPlan, SameHome;
      ViewAgrees(cache.bufs, cache.disk, cache.view);
      ghost var m := Now();
      outstanding := outstanding - 1;
      ok := !committing;
      if !ok { return; }
      if outstanding == 0 {
        FreeIffRoom(g, cache.bufs, cache.disk, cache.view, lh);
        committing := true;
        ghost var b0 := cache.bufs;
        ok := Commit();
        committing := false;
        if ok {
          QuietSame(g, b0, cache.bufs);
        }
        LastEndCommits(g, m, Now(), ok);
      } else {
        EndStep(g, m);
      }
    }

    /** log_write on a held buffer whose contents the caller has changed. */
    method LogWrite(b: nat) returns (ok: bool)
      requires Valid() && b < NBUF && cache.bufs[b].locked && cache.bufs[b].valid
      requires Home(g, cache.bufs[b].blockno)
      modifies this`lh, cache
      ensures ok <==> |old(lh)| < LOGSIZE && |old(lh)| < g.size - 1 && outstanding >= 1
      ensures !ok ==> lh == old(lh) && cache.view == old(cache.view)
      ensures ok ==> Valid() && cache.bufs == old(cache.bufs)[b := old(cache.bufs)[b].(dirty := true)]
      ensures ok ==> lh == if cache.bufs[b].blockno in old(lh) then old(lh) else old(lh) + [cache.bufs[b].blockno]
      ensures ok ==> cache.bufs[b].blockno < |old(cache.view)|
      ensures ok ==> cache.view == old(cache.view)[cache.bufs[b].blockno := cache.bufs[b].data]
      ensures cache.disk == old(cache.disk) && cache.writes == old(cache.writes)
      ensures WritesAs(g, old(Now()), Now(), Write(old(cache.bufs)[b].blockno, old(cache.bufs)[b].data), ok)
    {
      hide Cache.ListOk;
      ghost var b0, m := cache.bufs, Now();
      var k := cache.bufs[b].blockno;
      assert BufOk(cache.bufs[b], cache.view);
      assert k in Held(b0);
      ok := !(|lh| >= LOGSIZE || |lh| >= g.size - 1 || outstanding < 1);
      if ok {
        Enter(k);
        cache.Pin(b);
        DirtyHeld(b0, b);
      }
      hide WritesAs, Held, Coherent, Pinned, GoodLog;
      LogWriteStep(g, m, Now(), Write(k, b0[b].data), b0, ok);
    }

    /** log_write's loop: a block that is logged already keeps its slot. */
    method Enter(k: nat)
      requires Loggable(g, |cache.disk|, lh) && Home(g, k) && k < |cache.disk|
      requires |lh| < LOGSIZE && |lh| < g.size - 1
      modifies this`lh
      ensures Loggable(g, |cache.disk|, lh) && Elems(lh) == Elems(old(lh)) + {k}
      ensures lh == if k in old(lh) then old(lh) else old(lh) + [k]
    {
      var i := 0;
      while i < |lh| && lh[i] != k
        invariant i <= |lh| && k !in lh[..i]
      {
        i := i + 1;
      }
      assert lh[..|lh|] == lh;
      AbsorbLoggable(g, |cache.disk|, lh, k);
      if i == |lh| {
        lh := lh + [k];
      }
    }
  }

  lemma {:induction false} LogWriteStep(g: Geometry, m: Memory, n: Memory, w: Write, bufs: seq<Buf>, ok: bool)
    requires Home(g, w.blockno) && w.blockno < |m.disk| == |m.view|
    requires |bufs| == NBUF && Pinned(bufs) == Elems(m.lh) && m.held == Held(bufs) && w.blockno in Held(bufs)
    requires ok <==> |m.lh| < LOGSIZE && |m.lh| < g.size - 1 && m.outstanding >= 1
    requires ok ==> n == m.(view := m.view[w.blockno := w.data],
                            lh := if w.blockno in m.lh then m.lh else m.lh + [w.blockno])
    ensures WritesAs(g, m, n, w, ok)
  {
    forall s, op | Shows(m, s) && op in s.ops
      ensures ok <==> LogRuns.Enabled(g, s, LogRuns.LogWrite(op, w))
      ensures ok ==> Shows(n, LogRuns.Step(g, s, LogRuns.LogWrite(op, w)))
    {
      BusyRoom(bufs, s.held, Elems(s.lh), w.blockno);
      if ok {
        SameKeys(s.ops, LogRuns.Step(g, s, LogRuns.LogWrite(op, w)).ops);
      } else {
        assert |s.ops| > 0;
      }
    }
  }

  lemma {:induction false} SameKeys<A, B>(m: map<A, B>, n: map<A, B>)
    requires m.Keys == n.Keys
    ensures |m| == |n|
  {
    assert |m| == |m.Keys| && |n| == |n.Keys|;
  }

  lemma {:induction false} EndStep(g: Geometry, m: Memory)
    requires !m.committing && m.outstanding > 1 && |m.view| == |m.disk| && Loggable(g, |m.disk|, m.lh)
    ensures EndsAs(g, m, m.(outstanding := m.outstanding - 1))
  {
    forall s, op | Shows(m, s) && op in s.ops
      ensures LogRuns.Enabled(g, s, LogRuns.EndOp(op))
      ensures Shows(m.(outstanding := m.outstanding - 1), LogRuns.Step(g, s, LogRuns.EndOp(op)))
    {
      OneLess(s.ops, op);
    }
  }

  lemma {:induction false} OneLess<A, B>(m: map<A, B>, k: A)
    requires k in m
    ensures |m - {k}| == |m| - 1
  {
    assert (m - {k}).Keys == m.Keys - {k};
    assert |m - {k}| == |(m - {k}).Keys| && |m| == |m.Keys|;
  }

  lemma {:induction false} LastEndCommits(g: Geometry, m: Memory, n: Memory, ok: bool)
    requires !m.committing && m.outstanding == 1 && |m.view| == |m.disk| && Loggable(g, |m.disk|, m.lh)
    requires ok <==> m.lh == [] || |Elems(m.lh) + m.held| < NBUF
    requires ok ==> var d := Apply(m.disk, CommitPlan(g, m.lh, m.disk, m.view));
                    n == Memory(d, d, [], 0, false, m.held)
    ensures CommitsAs(g, m, n, |CommitPlan(g, m.lh, m.disk, m.view)|, ok)
  {
    hide LogRuns.Enabled, LogRuns.Step, LogRuns.CommitRunsOut, LogRuns.CanRun, LogRuns.Run, Apply, CommitPlan;
    forall s, op | Shows(m, s) && op in s.ops
      ensures LogRuns.Enabled(g, s, LogRuns.EndOp(op))
      ensures s.held == m.held ==> (!ok <==> LogRuns.CommitRunsOut(LogRuns.Step(g, s, LogRuns.EndOp(op))))
      ensures ok ==> var acts := LogRuns.LastEnd(op, |CommitPlan(g, m.lh, m.disk, m.view)|);
                     LogRuns.CanRun(g, s, acts) && Shows(n, LogRuns.Run(g, s, acts))
    {
      LastEndRuns(g, s, op, m.held);
    }
  }

  /** The last end_op as a run, and exactly when its commit runs out of buffers. */
  lemma {:induction false} LastEndRuns(g: Geometry, s: LogRuns.System, op: LogRuns.OpId, held: set<nat>)
    requires s.phase.Running? && op in s.ops && |s.ops| == 1 && |s.view| == |s.disk|
    requires Loggable(g, |s.disk|, s.lh) && s.held <= held
    ensures LogRuns.Enabled(g, s, LogRuns.EndOp(op))
    ensures LogRuns.CommitRunsOut(LogRuns.Step(g, s, LogRuns.EndOp(op)))
            <==> s.lh != [] && |Elems(s.lh) + s.held| >= NBUF
    ensures s.lh == [] || |Elems(s.lh) + held| < NBUF ==>
              var ws := CommitPlan(g, s.lh, s.disk, s.view); var acts := LogRuns.LastEnd(op, |ws|);
              && LogRuns.CanRun(g, s, acts)
              && var t := LogRuns.Run(g, s, acts); var d := Apply(s.disk, ws);
              t == s.(disk := d, view := d, lh := [], ops := map[], sleepers := {}, durable := t.durable)
  {
    OneLess(s.ops, op);
    CountSubset(Elems(s.lh) + s.held, Elems(s.lh) + held);
    if s.lh == [] || |Elems(s.lh) + held| < NBUF {
      LogRuns.RunLastEnd(g, s, op);
    }
  }

  lemma {:induction false} AbsorbLoggable(g: Geometry, blocks: nat, lh: seq<nat>, k: nat)
    requires Loggable(g, blocks, lh) && Home(g, k) && k < blocks && |lh| < LOGSIZE && |lh| < g.size - 1
    ensures k in lh ==> Elems(lh) == Elems(lh) + {k}
    ensures k !in lh ==> Loggable(g, blocks, lh + [k]) && Elems(lh + [k]) == Elems(lh) + {k}
  {
  }

  // ---- who holds buffers ----

  lemma {:induction false} QuietSame(g: Geometry, a: seq<Buf>, b: seq<Buf>)
    requires Quiet(g, a) && SameHeld(a, b)
    ensures Quiet(g, b) && Held(b) == Held(a)
  {
    assert forall i | 0 <= i < |a| :: a[i].refcnt > 0 <==> b[i].refcnt > 0;
    assert forall i | 0 <= i < |a| && a[i].refcnt > 0 :: a[i].blockno == b[i].blockno;
  }

  lemma SameHeldSelf(a: seq<Buf>)
    ensures SameHeld(a, a)
  {
  }

  lemma {:induction false} SameHeldChain(a: seq<Buf>, b: seq<Buf>, c: seq<Buf>)
    requires SameHeld(a, b) && SameHeld(b, c)
    ensures SameHeld(a, c)
  {
    forall i | 0 <= i < |a| && (a[i].refcnt > 0 || c[i].refcnt > 0) ensures a[i] == c[i] {
      assert a[i].refcnt > 0 ==> a[i] == b[i];
    }
  }

  lemma {:induction false} NoneHeld(bufs: seq<Buf>)
    requires Held(bufs) == {}
    ensures forall i | 0 <= i < |bufs| :: bufs[i].refcnt == 0
  {
    forall i | 0 <= i < |bufs| ensures bufs[i].refcnt == 0 {
      assert bufs[i].blockno !in Held(bufs);
    }
  }

  /** Pinning a buffer that is held changes nothing about who holds what. */
  lemma {:induction false} DirtyHeld(bufs: seq<Buf>, b: nat)
    requires b < |bufs|
    ensures Held(bufs[b := bufs[b].(dirty := true)]) == Held(bufs)
  {
    var c := bufs[b := bufs[b].(dirty := true)];
    assert forall i | 0 <= i < |c| :: c[i].refcnt == bufs[i].refcnt && c[i].blockno == bufs[i].blockno;
  }

  lemma {:induction false} AllClean(bufs: seq<Buf>)
    requires Pinned(bufs) == {} && |bufs| > 0
    requires forall i | 0 <= i < |bufs| :: bufs[i].refcnt == 0
    ensures HasFree(bufs)
  {
    assert bufs[0].blockno !in Pinned(bufs);
    assert Recyclable(bufs[0]);
  }

  /** Where nothing is pinned the disk is what readers see. */
  lemma {:induction false} ViewAgrees(bufs: seq<Buf>, d: Disk, v: Disk)
    requires Coherent(bufs, d, v)
    ensures |d| == |v| && forall k: nat | k < |d| && k !in Pinned(bufs) :: v[k] == d[k]
  {
  }

  lemma {:induction false} ViewAgreesOff(bufs: seq<Buf>, d: Disk, v: Disk, lh: seq<nat>)
    requires Coherent(bufs, d, v) && Pinned(bufs) == Elems(lh)
    ensures |d| == |v| && (forall k: nat | k < |d| && k !in lh :: v[k] == d[k]) && (lh == [] ==> d == v)
  {
    ViewAgrees(bufs, d, v);
    assert forall k: nat | k !in lh :: k !in Elems(lh);
  }

  lemma NothingToCommit(g: Geometry, d: Disk, v: Disk)
    requires Fits(g, d) && |v| == |d|
    ensures CommitPlan(g, [], d, v) == [] && Apply(d, []) == d
  {
  }

  lemma {:induction false} HeadInParts(g: Geometry, lh: seq<nat>, d: Disk, v: Disk)
    requires Loggable(g, |d|, lh) && |v| == |d|
    ensures var ws := CopyPlan(g, lh, v); var w := HeaderWrite(g, d, lh);
            HeaderWrite(g, Apply(d, ws), lh) == w && Perform(Apply(d, ws), w) == Logged(g, lh, d, v)
  {
    var ws, w := CopyPlan(g, lh, v), HeaderWrite(g, d, lh);
    assert ws[..|lh|] == ws;
    CopyPrefix(g, lh, d, v, |lh|);
    assert (ws + [w])[..|ws|] == ws && (ws + [w])[..|ws| + 1] == ws + [w];
    ApplyPush(d, ws + [w], |ws|);
  }

  lemma {:induction false} CommitInParts(g: Geometry, lh: seq<nat>, d: Disk, v: Disk)
    requires Loggable(g, |d|, lh) && lh != [] && |v| == |d|
    ensures var ws := CopyPlan(g, lh, v) + [HeaderWrite(g, d, lh)]; var l := Logged(g, lh, d, v);
            && |l| == |d|
            && CommitPlan(g, lh, d, v) == ws + RecoveryPlan(g, lh, l)
            && Apply(d, CommitPlan(g, lh, d, v)) == Apply(l, RecoveryPlan(g, lh, l))
  {
    CommitIsRecoveryOfLogged(g, lh, d, v);
  }

  /** Header write after the installs, in terms of the disk before them. */
  lemma {:induction false} ClearAfterInstall(g: Geometry, lh: seq<nat>, d: Disk, v: Disk)
    requires Loggable(g, |d|, lh) && |v| == |d|
    ensures var ws := InstallPlan(g, lh, d); var w := HeaderWrite(g, d, []);
            && Apply(d, ws)[g.start] == d[g.start]
            && HeaderWrite(g, Apply(d, ws), []) == w
            && Apply(d, RecoveryPlan(g, lh, d)) == Perform(Apply(d, ws), w)
            && Apply(v, RecoveryPlan(g, lh, d)) == Perform(Apply(v, ws), w)
  {
    var ws, w := InstallPlan(g, lh, d), HeaderWrite(g, d, []);
    assert ws[..|lh|] == ws;
    InstallTouchesLoggedOnly(g, lh, d, |lh|);
    assert (ws + [w])[..|ws|] == ws;
    ApplyPush(d, ws + [w], |ws|);
    ApplyPush(v, ws + [w], |ws|);
    assert (ws + [w])[..|ws| + 1] == ws + [w];
  }

  /** What is pinned after i installs, and after one more. */
  lemma {:induction false} StillPinned(g: Geometry, d: Disk, lh: seq<nat>, i: nat, pinned: set<nat>)
    requires Loggable(g, |d|, lh) && i < |lh| && (pinned == Elems(lh) || pinned == {})
    ensures var now := pinned - Elems(lh[..i]);
            && (pinned == Elems(lh) ==> lh[i] in now)
            && (forall k | k in now :: Home(g, k))
            && now - {lh[i]} == pinned - Elems(lh[..i + 1])
  {
    assert lh[..i + 1] == lh[..i] + [lh[i]];
  }

  lemma {:induction false} CopyAdvance(g: Geometry, lh: seq<nat>, d: Disk, v: Disk, i: nat)
    requires Loggable(g, |d|, lh) && i < |lh| && |v| == |d|
    ensures var plan := CopyPlan(g, lh, v); var w := Write(g.start + 1 + i, v[lh[i]]);
            && Apply(v, plan[..i])[lh[i]] == v[lh[i]]
            && plan[..i + 1] == plan[..i] + [w]
            && Apply(d, plan[..i + 1]) == Perform(Apply(d, plan[..i]), w)
            && Apply(v, plan[..i + 1]) == Perform(Apply(v, plan[..i]), w)
  {
    CopyPrefix(g, lh, v, v, i);
    ApplyPush(d, CopyPlan(g, lh, v), i);
    ApplyPush(v, CopyPlan(g, lh, v), i);
  }

  lemma {:induction false} InstallAdvance(g: Geometry, lh: seq<nat>, d: Disk, v: Disk, i: nat)
    requires Loggable(g, |d|, lh) && i < |lh| && |v| == |d|
    requires forall k | g.start <= k < g.start + g.size :: v[k] == d[k]
    ensures var plan := InstallPlan(g, lh, d); var w := Write(lh[i], d[g.start + 1 + i]);
            && Apply(v, plan[..i])[g.start + 1 + i] == d[g.start + 1 + i]
            && plan[..i + 1] == plan[..i] + [w]
            && Apply(d, plan[..i + 1]) == Perform(Apply(d, plan[..i]), w)
            && Apply(v, plan[..i + 1]) == Perform(Apply(v, plan[..i]), w)
  {
    assert InstallPlan(g, lh, d) == InstallPlan(g, lh, v);
    InstallTouchesLoggedOnly(g, lh, v, i);
    ApplyPush(d, InstallPlan(g, lh, d), i);
    ApplyPush(v, InstallPlan(g, lh, d), i);
  }

  lemma {:induction false} NoPinsObtainable(bufs: seq<Buf>, disk: Disk, view: Disk, held: nat, k: nat)
    requires Coherent(bufs, disk, view) && Pinned(bufs) == {} && |bufs| > 1
    requires forall i | 0 <= i < |bufs| && i != held :: bufs[i].refcnt == 0
    requires held < |bufs| && bufs[held].refcnt > 0 ==> !Is(bufs[held], ROOTDEV, k)
    ensures Obtainable(bufs, k) && !LockedFor(bufs, k)
  {
    var i := if held == 0 then 1 else 0;
    assert bufs[i].blockno !in Pinned(bufs);
    assert Recyclable(bufs[i]);
    assert forall i | 0 <= i < |bufs| && bufs[i].locked :: BufOk(bufs[i], view);
  }

  /** Beside a clean buffer f just taken for the log, a logged block can be read at once,
      and nobody else holds it. */
  lemma {:induction false} HomeObtainable(g: Geometry, before: seq<Buf>, now: seq<Buf>, disk: Disk, view: Disk, f: nat, k: nat)
    requires Quiet(g, before) && f < |before| == |now| && |now| > 1 && now == before[f := now[f]]
    requires Coherent(now, disk, view) && !now[f].dirty && !Is(now[f], ROOTDEV, k)
    requires k in Pinned(now) || (Pinned(now) == {} && Held(before) == {})
    ensures Obtainable(now, k) && !LockedFor(now, k)
    ensures forall i | 0 <= i < |now| && Is(now[i], ROOTDEV, k) :: i != f && now[i].refcnt == 0
  {
    if k in Pinned(now) {
      var i :| 0 <= i < |now| && now[i].dirty && now[i].blockno == k;
      assert BufOk(now[i], view) && Is(now[i], ROOTDEV, k);
    } else {
      NoneHeld(before);
      NoPinsObtainable(now, disk, view, f, k);
    }
  }

  /** While only readers hold buffers, a block of the log can be read at once exactly
      when some buffer can be recycled. */
  lemma {:induction false} LogBlockObtainable(g: Geometry, bufs: seq<Buf>, disk: Disk, view: Disk, k: nat)
    requires Coherent(bufs, disk, view) && Quiet(g, bufs) && !Home(g, k) && k !in Pinned(bufs)
    ensures !LockedFor(bufs, k) && (Obtainable(bufs, k) <==> HasFree(bufs))
    ensures forall i | 0 <= i < |bufs| && Is(bufs[i], ROOTDEV, k) :: !bufs[i].dirty && bufs[i].refcnt == 0
  {
    assert forall i | 0 <= i < |bufs| && Is(bufs[i], ROOTDEV, k) :: !bufs[i].dirty && bufs[i].refcnt == 0;
    assert forall i | 0 <= i < |bufs| && bufs[i].locked :: BufOk(bufs[i], view);
  }

  // ---- counting buffers ----

  predicate Busy(b: Buf) {
    b.dirty || b.refcnt > 0
  }

  /** The blocks of those of the first n buffers that are pinned or held, in buffer order. */
  ghost function BusyBlocks(bufs: seq<Buf>, n: nat): (s: seq<nat>)
    requires n <= |bufs|
    ensures |s| <= n
  {
    if n == 0 then [] else BusyBlocks(bufs, n - 1) + if Busy(bufs[n - 1]) then [bufs[n - 1].blockno] else []
  }

  lemma {:induction false} BusyBlocksFull(bufs: seq<Buf>, n: nat)
    requires n <= |bufs|
    ensures |BusyBlocks(bufs, n)| == n <==> forall i | 0 <= i < n :: Busy(bufs[i])
  {
    if n > 0 {
      BusyBlocksFull(bufs, n - 1);
    }
  }

  lemma {:induction false} BusyBlocksHas(bufs: seq<Buf>, n: nat, k: nat)
    requires n <= |bufs|
    ensures k in BusyBlocks(bufs, n) <==> exists i :: 0 <= i < n && Busy(bufs[i]) && bufs[i].blockno == k
  {
    if n > 0 {
      BusyBlocksHas(bufs, n - 1, k);
    }
  }

  lemma {:induction false} BusyElems(bufs: seq<Buf>)
    ensures Elems(BusyBlocks(bufs, |bufs|)) == Pinned(bufs) + Held(bufs)
  {
    forall k: nat ensures k in Elems(BusyBlocks(bufs, |bufs|)) <==> k in Pinned(bufs) + Held(bufs) {
      BusyBlocksHas(bufs, |bufs|, k);
    }
  }

  lemma {:induction false} BusyBlocksDistinct(g: Geometry, bufs: seq<Buf>, disk: Disk, view: Disk, n: nat)
    requires Coherent(bufs, disk, view) && Quiet(g, bufs) && n <= |bufs|
    ensures Distinct(BusyBlocks(bufs, n))
  {
    if n > 0 {
      BusyBlocksDistinct(g, bufs, disk, view, n - 1);
      var b := n - 1;
      BusyBlocksHas(bufs, b, bufs[b].blockno);
      forall i | 0 <= i < b && Busy(bufs[i]) && Busy(bufs[b]) ensures bufs[i].blockno != bufs[b].blockno {
        assert BufOk(bufs[i], view) && BufOk(bufs[b], view);
      }
      if Busy(bufs[b]) {
        SnocDistinct(BusyBlocks(bufs, b), bufs[b].blockno);
      }
    }
  }

  lemma {:induction false} ReadersElsewhere(g: Geometry, bufs: seq<Buf>, disk: Disk, view: Disk)
    requires Coherent(bufs, disk, view) && Quiet(g, bufs)
    ensures Pinned(bufs) !! Held(bufs)
  {
    forall i, j | 0 <= i < |bufs| && 0 <= j < |bufs| && bufs[i].dirty && bufs[j].refcnt > 0
      ensures bufs[i].blockno != bufs[j].blockno
    {
      assert BufOk(bufs[i], view);
    }
  }

  /** Some buffer can be recycled exactly when logged blocks and readers leave one over. */
  lemma {:induction false} FreeIffRoom(g: Geometry, bufs: seq<Buf>, disk: Disk, view: Disk, lh: seq<nat>)
    requires Coherent(bufs, disk, view) && Quiet(g, bufs)
    requires |bufs| == NBUF && Pinned(bufs) == Elems(lh) && Distinct(lh)
    ensures HasFree(bufs) <==> |lh| + |Held(bufs)| < NBUF
    ensures |Elems(lh) + Held(bufs)| == |lh| + |Held(bufs)|
  {
    var s := BusyBlocks(bufs, NBUF);
    BusyBlocksDistinct(g, bufs, disk, view, NBUF);
    BusyBlocksFull(bufs, NBUF);
    BusyElems(bufs);
    ReadersElsewhere(g, bufs, disk, view);
    hide Coherent, BusyBlocks, Held, Pinned, Quiet;
    CountDistinct(s);
    CountDistinct(lh);
    CountUnion(Elems(lh), Held(bufs));
    assert HasFree(bufs) <==> exists i :: 0 <= i < NBUF && !Busy(bufs[i]) by {
      assert forall i | 0 <= i < NBUF :: Recyclable(bufs[i]) <==> !Busy(bufs[i]);
    }
  }

  /** A block in a buffer that is held: buffers suffice for it beside the others in use. */
  lemma {:induction false} BusyRoom(bufs: seq<Buf>, held: set<nat>, pins: set<nat>, k: nat)
    requires |bufs| == NBUF && pins == Pinned(bufs) && held <= Held(bufs) && k in Held(bufs)
    ensures k in pins + held || |pins + held| < NBUF
  {
    var s := BusyBlocks(bufs, NBUF);
    BusyElems(bufs);
    CountElems(s);
    if k !in pins + held {
      CountSubset(pins + held + {k}, Elems(s));
    }
  }
}
