/** Whole runs of the logging layer: file-system operations of any number of
    processes interleave, commits reach the disk one block at a time, and the
    machine may stop between any two steps. */
module LogRuns {
  import opened Lists
  import opened Words
  import opened LogProtocol
  import opened BufferCache

  type OpId = nat

  /** A log_write made by one begin_op/end_op bracket. */
  datatype Event = Event(op: OpId, write: Write)

  /** `from` is the disk when the commit or recovery began; `done` of the writes
      in `plan` have reached the disk since. */
  datatype Phase =
    | Running
    | Committing(from: Disk, plan: seq<Write>, done: nat)
    | Recovering(from: Disk, plan: seq<Write>, done: nat)

  /** view is what the buffer cache shows; ops maps each outstanding operation to
      the blocks it has logged; sleepers wait in begin_op; held are the blocks
      whose buffers are held by readers, who need no begin_op.  history and
      durable record every log_write so far and how many of them have committed. */
  datatype System = System(
    disk: Disk, view: Disk, lh: seq<nat>, ops: map<OpId, set<nat>>, nextOp: OpId,
    phase: Phase, sleepers: set<nat>, held: set<nat>, history: seq<Event>, durable: nat)

  datatype Action =
    | BeginOp
    | BeginOpSleep(proc: nat)
    | LogWrite(op: OpId, write: Write)
    | EndOp(op: OpId)
    | Hold(blockno: nat)
    | Drop(blockno: nat)
    | DiskWrite
    | Finish
    | Crash

  /** begin_op's reservation test (it goes to sleep when this fails). */
  predicate Reservable(s: System) {
    |s.lh| + (|s.ops| + 1) * MAXOPBLOCKS <= LOGSIZE
  }

  /** log_write's panic test. */
  predicate LogWritePanics(g: Geometry, s: System) {
    |s.lh| >= LOGSIZE || |s.lh| >= g.size - 1
  }

  /** The blocks pinned in the cache: a commit unpins each as it installs it. */
  ghost function Pins(s: System): set<nat> {
    if s.phase.Committing? && s.phase.done > |s.lh| then
      var i := s.phase.done - |s.lh| - 1;
      if i < |s.lh| then Elems(s.lh[i..]) else {}
    else Elems(s.lh)
  }

  /** Some buffer is neither pinned nor held. */
  ghost predicate BufferLeft(s: System) {
    |Pins(s) + s.held| < NBUF
  }

  /** bget finds a buffer for block k: the block's own, or one to recycle. */
  ghost predicate Room(s: System, k: nat) {
    k in Pins(s) + s.held || BufferLeft(s)
  }

  /** Operations write, and readers read, blocks of the disk outside the log. */
  predicate Usable(g: Geometry, s: System, k: nat) {
    Home(g, k) && k < |s.disk|
  }

  ghost predicate Enabled(g: Geometry, s: System, a: Action) {
    match a
    case BeginOp => s.phase.Running? && Reservable(s)
    case BeginOpSleep(_) => s.phase.Committing? || (s.phase.Running? && !Reservable(s))
    case LogWrite(op, w) =>
      && op in s.ops && Usable(g, s, w.blockno) && |s.view| == |s.disk|
      && Room(s, w.blockno) && !LogWritePanics(g, s)
    case EndOp(op) =>
      && op in s.ops
      && Fits(g, s.disk) && |s.lh| <= LOGSIZE && |s.lh| < g.size && |s.view| == |s.disk|
      && forall i | 0 <= i < |s.lh| :: s.lh[i] < |s.disk|
    case Hold(k) => !s.phase.Recovering? && Usable(g, s, k) && Room(s, k)
    case Drop(k) => k in s.held
    case DiskWrite =>
      && !s.phase.Running? && s.phase.done < |s.phase.plan|
      && (s.phase.Committing? ==> BufferLeft(s))
    case Finish => !s.phase.Running? && s.phase.done == |s.phase.plan|
    case Crash =>
      && Fits(g, s.disk) && HeaderCount(g, s.disk) <= LOGSIZE && HeaderCount(g, s.disk) < g.size
      && s.durable <= |s.history|
  }

  /** log absorption: a block already logged keeps its slot. */
  function Absorb(lh: seq<nat>, k: nat): seq<nat> {
    if k in lh then lh else lh + [k]
  }

  function PowerOn(g: Geometry, d: Disk, nextOp: OpId, history: seq<Event>): System
    requires Fits(g, d) && HeaderCount(g, d) <= LOGSIZE && HeaderCount(g, d) < g.size
  {
    System(d, d, [], map[], nextOp, Recovering(d, RecoveryPlan(g, HeaderBlocks(g, d), d), 0), {},
           {}, history, |history|)
  }

  ghost function Step(g: Geometry, s: System, a: Action): System
    requires Enabled(g, s, a)
  {
    match a
    case BeginOp => s.(ops := s.ops[s.nextOp := {}], nextOp := s.nextOp + 1)
    case BeginOpSleep(p) => s.(sleepers := s.sleepers + {p})
    case LogWrite(op, w) =>
      s.(view := Perform(s.view, w), lh := Absorb(s.lh, w.blockno),
         ops := s.ops[op := s.ops[op] + {w.blockno}], history := s.history + [Event(op, w)])
    case EndOp(op) =>
      var rest := s.ops - {op};
      if rest == map[] then
        s.(ops := rest, phase := Committing(s.disk, CommitPlan(g, s.lh, s.disk, s.view), 0))
      else
        s.(ops := rest, sleepers := {})
    case Hold(k) => s.(held := s.held + {k})
    case Drop(k) => s.(held := s.held - {k})
    case DiskWrite =>
      var p := s.phase;
      s.(disk := Perform(s.disk, p.plan[p.done]), phase := p.(done := p.done + 1),
         durable := if p.Committing? && p.done == |s.lh| then |s.history| else s.durable)
    case Finish => s.(phase := Running, view := s.disk, lh := [], sleepers := {})
    case Crash => PowerOn(g, s.disk, s.nextOp, s.history[..s.durable])
  }

  /** The disk after a list of log_writes, each taking effect at once. */
  function Effect(base: Disk, h: seq<Event>): (d: Disk)
    ensures |d| == |base|
  {
    if h == [] then base else Perform(Effect(base, h[..|h| - 1]), h[|h| - 1].write)
  }

  // ---- the invariant ----

  /** Operations outstanding or still to come have no durable write. */
  ghost predicate OpsSeparate(s: System) {
    && s.durable <= |s.history|
    && (forall i | 0 <= i < |s.history| :: s.history[i].op < s.nextOp)
    && (forall op | op in s.ops :: op < s.nextOp && s.ops[op] <= Elems(s.lh))
    && (forall i | 0 <= i < s.durable :: s.history[i].op !in s.ops)
    && (forall i, j | 0 <= i < s.durable <= j < |s.history| :: s.history[i].op != s.history[j].op)
  }

  ghost predicate CacheAhead(g: Geometry, s: System, d: Disk) {
    && Loggable(g, |d|, s.lh) && GoodLog(g, d) && HeaderCount(g, d) == 0
    && |s.view| == |d|
    && forall k: nat | k < |d| && Home(g, k) && k !in s.lh :: s.view[k] == d[k]
  }

  ghost predicate RunningInv(g: Geometry, base: Disk, s: System)
    requires OpsSeparate(s)
  {
    && CacheAhead(g, s, s.disk)
    && SameHome(g, s.disk, Effect(base, s.history[..s.durable]))
    && SameHome(g, s.view, Effect(base, s.history))
    && (s.lh == [] ==> s.durable == |s.history|)
    && (s.ops == map[] ==> s.lh == [])
    && (s.sleepers != {} ==> !Reservable(s))
  }

  ghost predicate CommittingInv(g: Geometry, base: Disk, s: System, p: Phase)
    requires p.Committing? && OpsSeparate(s)
  {
    && s.ops == map[]
    && CacheAhead(g, s, p.from)
    && p.plan == CommitPlan(g, s.lh, p.from, s.view) && p.done <= |p.plan|
    && s.disk == Apply(p.from, p.plan[..p.done])
    && (p.done <= |s.lh| ==> SameHome(g, p.from, Effect(base, s.history[..s.durable])))
    && (p.done > |s.lh| || s.lh == [] ==> s.durable == |s.history|)
    && SameHome(g, s.view, Effect(base, s.history))
  }

  ghost predicate RecoveringInv(g: Geometry, base: Disk, s: System, p: Phase)
    requires p.Recovering?
  {
    && s.ops == map[] && s.lh == [] && s.durable == |s.history| && s.sleepers == {} && s.held == {}
    && GoodLog(g, p.from) && p.plan == RecoveryPlan(g, HeaderBlocks(g, p.from), p.from)
    && p.done <= |p.plan|
    && s.disk == Apply(p.from, p.plan[..p.done])
    && SameHome(g, Recover(g, p.from), Effect(base, s.history))
  }

  ghost predicate Inv(g: Geometry, base: Disk, s: System) {
    && OpsSeparate(s)
    && match s.phase
       case Running => RunningInv(g, base, s)
       case Committing(_, _, _) => CommittingInv(g, base, s, s.phase)
       case Recovering(_, _, _) => RecoveringInv(g, base, s, s.phase)
  }

  /** The durability half: whatever the phase, recovering the disk as it is now
      yields the committed writes and nothing else. */
  lemma {:induction false} InvRecovers(g: Geometry, base: Disk, s: System)
    requires Inv(g, base, s)
    ensures GoodLog(g, s.disk)
    ensures SameHome(g, Recover(g, s.disk), Effect(base, s.history[..s.durable]))
  {
    match s.phase
    case Running =>
      EmptyLogRecovers(g, s.disk);
    case Committing(_, _, _) =>
      CommittingRecovers(g, base, s, s.phase);
    case Recovering(from, plan, done) =>
      RecoveryRestartable(g, from, HeaderBlocks(g, from), done);
      assert s.history[..|s.history|] == s.history;
  }

  lemma {:induction false} CommittingRecovers(g: Geometry, base: Disk, s: System, p: Phase)
    requires OpsSeparate(s) && p.Committing? && CommittingInv(g, base, s, p)
    ensures GoodLog(g, s.disk)
    ensures SameHome(g, Recover(g, s.disk), Effect(base, s.history[..s.durable]))
  {
    if s.lh == [] {
      EmptyLogRecovers(g, s.disk);
    } else {
      CommitAtomic(g, s.lh, p.from, s.view, p.done);
    }
    assert s.history[..|s.history|] == s.history;
  }

  // ---- every step keeps it ----

  lemma {:induction false} BeginOpKeeps(g: Geometry, base: Disk, s: System)
    requires Inv(g, base, s) && Enabled(g, s, BeginOp)
    ensures Inv(g, base, Step(g, s, BeginOp))
  {
  }

  /** A sleeper in begin_op always has a commit or an outstanding operation to
      wait for. */
  lemma {:induction false} SleepKeeps(g: Geometry, base: Disk, s: System, p: nat)
    requires Inv(g, base, s) && Enabled(g, s, BeginOpSleep(p))
    ensures Inv(g, base, Step(g, s, BeginOpSleep(p)))
  {
  }

  lemma {:induction false} LogWriteKeepsOps(g: Geometry, s: System, op: OpId, w: Write)
    requires OpsSeparate(s) && Enabled(g, s, LogWrite(op, w))
    ensures OpsSeparate(Step(g, s, LogWrite(op, w)))
  {
    AbsorbElems(s.lh, w.blockno);
  }

  lemma {:induction false} AbsorbElems(lh: seq<nat>, k: nat)
    ensures Elems(Absorb(lh, k)) == Elems(lh) + {k} && forall i | 0 <= i < |lh| :: Absorb(lh, k)[i] == lh[i]
    ensures Distinct(lh) ==> Distinct(Absorb(lh, k))
  {
  }

  lemma {:induction false} LogWriteKeepsCache(g: Geometry, s: System, op: OpId, w: Write)
    requires s.phase.Running? && CacheAhead(g, s, s.disk) && Enabled(g, s, LogWrite(op, w))
    ensures CacheAhead(g, Step(g, s, LogWrite(op, w)), s.disk)
  {
    AbsorbElems(s.lh, w.blockno);
    assert w.blockno in Elems(Absorb(s.lh, w.blockno));
  }

  lemma {:induction false} EffectPush(g: Geometry, base: Disk, view: Disk, h: seq<Event>, e: Event)
    requires SameHome(g, view, Effect(base, h))
    ensures SameHome(g, Perform(view, e.write), Effect(base, h + [e]))
  {
    assert (h + [e])[..|h|] == h;
  }

  lemma {:induction false} LogWriteKeeps(g: Geometry, base: Disk, s: System, op: OpId, w: Write)
    requires Inv(g, base, s) && Enabled(g, s, LogWrite(op, w))
    ensures Inv(g, base, Step(g, s, LogWrite(op, w)))
  {
    LogWriteKeepsOps(g, s, op, w);
    assert |Step(g, s, LogWrite(op, w)).ops| == |s.ops|;
    assert s.durable <= |s.history|;
    assert (s.history + [Event(op, w)])[..s.durable] == s.history[..s.durable];
    LogWriteKeepsCache(g, s, op, w);
    EffectPush(g, base, s.view, s.history, Event(op, w));
  }

  lemma {:induction false} EndOpKeeps(g: Geometry, base: Disk, s: System, op: OpId)
    requires Inv(g, base, s) && Enabled(g, s, EndOp(op))
    ensures Inv(g, base, Step(g, s, EndOp(op)))
  {
    var t := Step(g, s, EndOp(op));
    if t.phase.Committing? {
      assert t.phase.plan[..0] == [];
    }
  }

  lemma {:induction false} ReadersKeep(g: Geometry, base: Disk, s: System, a: Action)
    requires Inv(g, base, s) && Enabled(g, s, a) && (a.Hold? || a.Drop?)
    ensures Inv(g, base, Step(g, s, a))
  {
  }

  lemma {:induction false} DiskWriteKeeps(g: Geometry, base: Disk, s: System)
    requires Inv(g, base, s) && Enabled(g, s, DiskWrite)
    ensures Inv(g, base, Step(g, s, DiskWrite))
  {
    hide SameHome, Effect, CommitPlan, RecoveryPlan, HeaderBlocks, Recover, Apply, Perform, Loggable, GoodLog, Pins;
    ApplyPush(s.phase.from, s.phase.plan, s.phase.done);
  }

  /** A quiet system: nothing cached, logged or outstanding. */
  lemma {:induction false} QuietInv(g: Geometry, base: Disk, s: System)
    requires OpsSeparate(s) && s.phase.Running? && s.ops == map[] && s.lh == [] && s.sleepers == {}
    requires s.view == s.disk && s.durable == |s.history|
    requires GoodLog(g, s.disk) && HeaderCount(g, s.disk) == 0
    requires SameHome(g, s.disk, Effect(base, s.history))
    ensures Inv(g, base, s)
  {
    assert s.history[..s.durable] == s.history;
  }

  lemma {:induction false} RecoveryFinishKeeps(g: Geometry, base: Disk, s: System)
    requires Inv(g, base, s) && s.phase.Recovering? && Enabled(g, s, Finish)
    ensures Inv(g, base, Step(g, s, Finish))
  {
    var p := s.phase;
    assert p.plan[..p.done] == p.plan;
    RecoverMeaning(g, p.from);
    QuietInv(g, base, Step(g, s, Finish));
  }

  /** A commit leaves the disk equal to what readers saw in the cache. */
  lemma {:induction false} CommitFinishDisk(g: Geometry, base: Disk, s: System)
    requires Inv(g, base, s) && s.phase.Committing? && Enabled(g, s, Finish)
    ensures GoodLog(g, s.disk) && HeaderCount(g, s.disk) == 0 && SameHome(g, s.disk, s.view)
    ensures s.durable == |s.history|
  {
    var p := s.phase;
    assert p.plan[..p.done] == p.plan;
    if s.lh != [] {
      CommitEnds(g, s.lh, p.from, s.view);
    }
  }

  lemma {:induction false} CommitFinishKeeps(g: Geometry, base: Disk, s: System)
    requires Inv(g, base, s) && s.phase.Committing? && Enabled(g, s, Finish)
    ensures Inv(g, base, Step(g, s, Finish))
  {
    CommitFinishDisk(g, base, s);
    QuietInv(g, base, Step(g, s, Finish));
  }

  lemma {:induction false} PowerOnInv(g: Geometry, base: Disk, d: Disk, nextOp: OpId, h: seq<Event>)
    requires GoodLog(g, d) && SameHome(g, Recover(g, d), Effect(base, h))
    requires forall i | 0 <= i < |h| :: h[i].op < nextOp
    ensures Inv(g, base, PowerOn(g, d, nextOp, h))
  {
    assert PowerOn(g, d, nextOp, h).phase.plan[..0] == [];
  }

  lemma {:induction false} CrashKeeps(g: Geometry, base: Disk, s: System)
    requires Inv(g, base, s) && Enabled(g, s, Crash)
    ensures Inv(g, base, Step(g, s, Crash))
  {
    InvRecovers(g, base, s);
    PowerOnInv(g, base, s.disk, s.nextOp, s.history[..s.durable]);
  }

  lemma {:induction false} StepKeeps(g: Geometry, base: Disk, s: System, a: Action)
    requires Inv(g, base, s) && Enabled(g, s, a)
    ensures Inv(g, base, Step(g, s, a))
  {
    hide Inv;
    match a
    case BeginOp => BeginOpKeeps(g, base, s);
    case BeginOpSleep(p) => SleepKeeps(g, base, s, p);
    case LogWrite(op, w) => LogWriteKeeps(g, base, s, op, w);
    case EndOp(op) => EndOpKeeps(g, base, s, op);
    case Hold(_) | Drop(_) => ReadersKeep(g, base, s, a);
    case DiskWrite => DiskWriteKeeps(g, base, s);
    case Finish =>
      if s.phase.Recovering? {
        RecoveryFinishKeeps(g, base, s);
      } else {
        CommitFinishKeeps(g, base, s);
      }
    case Crash => CrashKeeps(g, base, s);
  }

  // ---- whole runs ----

  ghost predicate CanRun(g: Geometry, s: System, acts: seq<Action>)
    decreases |acts|
  {
    acts == [] || (Enabled(g, s, acts[0]) && CanRun(g, Step(g, s, acts[0]), acts[1..]))
  }

  ghost function Run(g: Geometry, s: System, acts: seq<Action>): System
    requires CanRun(g, s, acts)
    decreases |acts|
  {
    if acts == [] then s else Run(g, Step(g, s, acts[0]), acts[1..])
  }

  /** Power-on with any disk whose log is good. */
  ghost function Boot(g: Geometry, d: Disk): System
    requires GoodLog(g, d)
  {
    PowerOn(g, d, 0, [])
  }

  lemma {:induction false} RunKeeps(g: Geometry, base: Disk, s: System, acts: seq<Action>)
    requires Inv(g, base, s) && CanRun(g, s, acts)
    ensures Inv(g, base, Run(g, s, acts))
    decreases |acts|
  {
    if acts != [] {
      StepKeeps(g, base, s, acts[0]);
      RunKeeps(g, base, Step(g, s, acts[0]), acts[1..]);
    }
  }

  lemma {:induction false} BootInv(g: Geometry, d: Disk)
    requires GoodLog(g, d)
    ensures Inv(g, Recover(g, d), Boot(g, d))
  {
    PowerOnInv(g, Recover(g, d), d, 0, []);
  }

  /** Crash atomicity.  After any run, with any number of crashes anywhere in it,
      recovering the disk gives exactly the first `durable` log_writes applied to
      the disk found at boot; no operation has writes on both sides of that cut,
      and no operation still outstanding has a write before it. */
  lemma {:induction false} CrashAtomicity(g: Geometry, d: Disk, acts: seq<Action>)
    requires GoodLog(g, d) && CanRun(g, Boot(g, d), acts)
    ensures var s := Run(g, Boot(g, d), acts);
            && GoodLog(g, s.disk) && s.durable <= |s.history|
            && SameHome(g, Recover(g, s.disk), Effect(Recover(g, d), s.history[..s.durable]))
            && (forall i, j | 0 <= i < s.durable <= j < |s.history| :: s.history[i].op != s.history[j].op)
            && (forall i | 0 <= i < s.durable :: s.history[i].op !in s.ops)
  {
    BootInv(g, d);
    RunKeeps(g, Recover(g, d), Boot(g, d), acts);
    InvRecovers(g, Recover(g, d), Run(g, Boot(g, d), acts));
  }

  /** Once end_op's commit is over, everything logged so far is durable, and what
      is durable stays durable: the committed history only grows. */
  lemma {:induction false} DurableGrows(g: Geometry, base: Disk, s: System, a: Action)
    requires Inv(g, base, s) && Enabled(g, s, a)
    ensures var t := Step(g, s, a);
            && s.durable <= t.durable <= |t.history|
            && t.history[..s.durable] == s.history[..s.durable]
            && (a.Finish? ==> t.durable == |t.history|)
  {
    StepKeeps(g, base, s, a);
  }

  /** Reads of home blocks always see every log_write so far, in order, before,
      during and after a commit. */
  lemma {:induction false} ReadersSeeAllWrites(g: Geometry, d: Disk, acts: seq<Action>)
    requires GoodLog(g, d) && CanRun(g, Boot(g, d), acts)
    ensures var s := Run(g, Boot(g, d), acts);
            s.phase.Recovering? || SameHome(g, s.view, Effect(Recover(g, d), s.history))
  {
    BootInv(g, d);
    RunKeeps(g, Recover(g, d), Boot(g, d), acts);
  }

  /** The guards that stand for no test in the code hold in every state of a run: the
      machine can stop anywhere, an outstanding operation can always end, and only a
      missing buffer or log_write's own test stops a write. */
  lemma {:induction false} GuardsHold(g: Geometry, base: Disk, s: System)
    requires Inv(g, base, s)
    ensures Enabled(g, s, Crash)
    ensures forall op | op in s.ops :: Enabled(g, s, EndOp(op))
    ensures forall op, w: Write | op in s.ops && Usable(g, s, w.blockno) ::
              Enabled(g, s, LogWrite(op, w)) <==> Room(s, w.blockno) && !LogWritePanics(g, s)
  {
    InvRecovers(g, base, s);
  }

  /** Who sleeps in begin_op and which buffers are held, exactly: an end_op with others
      outstanding, the end of a commit and a crash wake everybody, a crash ends all
      holding, and nothing else changes either but the step of that name. */
  lemma {:induction false} SleepersAndHolders(g: Geometry, s: System, a: Action)
    requires Enabled(g, s, a)
    ensures var t := Step(g, s, a);
            && (forall p :: p in t.sleepers <==>
                  a == BeginOpSleep(p) || (p in s.sleepers && !a.Finish? && !a.Crash? && (a.EndOp? ==> |s.ops| == 1)))
            && (forall k :: k in t.held <==>
                  a == Hold(k) || (k in s.held && !a.Crash? && a != Drop(k)))
  {
    hide CommitPlan, RecoveryPlan, HeaderBlocks, HeaderCount, Perform, Pins, Absorb, Home;
    if a.EndOp? {
      LastOp(s.ops, a.op);
    }
  }

  lemma {:induction false} LastOp(ops: map<OpId, set<nat>>, op: OpId)
    requires op in ops
    ensures ops - {op} == map[] <==> |ops| == 1
  {
    assert (ops - {op}).Keys == ops.Keys - {op};
    assert |(ops - {op}).Keys| == |ops.Keys| - 1;
  }

  /** The blocks that a commit keeps pinned are exactly the home blocks that it has still
      to write. */
  lemma {:induction false} PinsAreDue(g: Geometry, base: Disk, s: System, k: nat)
    requires Inv(g, base, s) && s.phase.Committing?
    ensures k in Pins(s) <==>
            exists j :: s.phase.done <= j < |s.phase.plan| && s.phase.plan[j].blockno == k && Home(g, k)
  {
    if s.lh != [] {
      CommitPlanBlocks(g, s.lh, s.phase.from, s.view);
      hide CommitPlan, Apply, GoodLog, SameHome, Effect, OpsSeparate;
      DueBlocks(g, |s.disk|, s.lh, s.phase.plan, s.phase.done, k);
    }
  }

  lemma {:induction false} DueBlocks(g: Geometry, blocks: nat, lh: seq<nat>, ws: seq<Write>, done: nat, k: nat)
    requires Loggable(g, blocks, lh) && |ws| == 2 * |lh| + 2 && done <= |ws|
    requires forall j | 0 <= j < |ws| :: ws[j].blockno ==
               if j < |lh| then g.start + 1 + j else if |lh| < j <= 2 * |lh| then lh[j - |lh| - 1] else g.start
    ensures (exists j :: done <= j < |ws| && ws[j].blockno == k && Home(g, k)) <==>
            exists i :: 0 <= i < |lh| && lh[i] == k && |lh| + 1 + i >= done
  {
    if i :| 0 <= i < |lh| && lh[i] == k && |lh| + 1 + i >= done {
      assert ws[|lh| + 1 + i].blockno == k;
    }
  }

  lemma {:induction false} CommitPlanBlocks(g: Geometry, lh: seq<nat>, d: Disk, view: Disk)
    requires Loggable(g, |d|, lh) && |view| == |d| && lh != []
    ensures var ws := CommitPlan(g, lh, d, view); var n := |lh|;
            && |ws| == 2 * n + 2
            && (forall j | 0 <= j < |ws| ::
                  ws[j].blockno == if j < n then g.start + 1 + j else if n < j <= 2 * n then lh[j - n - 1] else g.start)
  {
  }

  // ---- operations of a limited size ----

  /** At most `blocks` distinct blocks logged by each operation, and at most
      `readers` buffers held outside operations. */
  datatype Limits = Limits(blocks: nat, readers: nat)

  ghost predicate Within(s: System, lim: Limits) {
    (forall op | op in s.ops :: |s.ops[op]| <= lim.blocks) && |s.held| <= lim.readers
  }

  /** A run all of whose states are within the limits. */
  ghost predicate CanRunWithin(g: Geometry, s: System, acts: seq<Action>, lim: Limits)
    decreases |acts|
  {
    && Within(s, lim)
    && (acts == [] || (Enabled(g, s, acts[0]) && CanRunWithin(g, Step(g, s, acts[0]), acts[1..], lim)))
  }

  lemma {:induction false} WithinCanRun(g: Geometry, s: System, acts: seq<Action>, lim: Limits)
    requires CanRunWithin(g, s, acts, lim)
    ensures CanRun(g, s, acts) && Within(Run(g, s, acts), lim)
    decreases |acts|
  {
    if acts != [] {
      WithinCanRun(g, Step(g, s, acts[0]), acts[1..], lim);
    }
  }

  /** Distinct blocks that the outstanding operations may still log. */
  ghost function Spare(ops: map<OpId, set<nat>>, b: nat): int
    decreases |ops|
  {
    if ops == map[] then 0 else
      var op :| op in ops;
      b - |ops[op]| + Spare(ops - {op}, b)
  }

  lemma {:induction false} SpareSplit(ops: map<OpId, set<nat>>, b: nat, op: OpId)
    requires op in ops
    ensures Spare(ops, b) == b - |ops[op]| + Spare(ops - {op}, b)
    decreases |ops|
  {
    var c :| c in ops && Spare(ops, b) == b - |ops[c]| + Spare(ops - {c}, b);
    if c != op {
      SpareSplit(ops - {c}, b, op);
      SpareSplit(ops - {op}, b, c);
      assert ops - {c} - {op} == ops - {op} - {c};
    }
  }

  lemma {:induction false} SpareBound(ops: map<OpId, set<nat>>, b: nat)
    requires forall o | o in ops :: |ops[o]| <= b
    ensures 0 <= Spare(ops, b) <= |ops| * b
    decreases |ops|
  {
    if ops != map[] {
      var op :| op in ops;
      SpareSplit(ops, b, op);
      SpareBound(ops - {op}, b);
      assert |ops - {op}| == |ops| - 1;
      assert |ops| * b == (|ops| - 1) * b + b;
    }
  }

  /** What begin_op's test makes of operations of at most b blocks: the log never has to
      take more than MAXOPBLOCKS + 2 * b, which for b == MAXOPBLOCKS is LOGSIZE. */
  ghost predicate Reserved(s: System, b: nat) {
    && |s.lh| + Spare(s.ops, b) <= MAXOPBLOCKS + 2 * b
    && (b == 0 ==> s.lh == [])
  }

  lemma AtMostThree(logged: nat, ops: nat, b: nat, spare: nat)
    requires logged + (ops + 1) * MAXOPBLOCKS <= LOGSIZE && b <= MAXOPBLOCKS
    requires spare <= ops * b && (ops == 0 ==> logged == 0)
    ensures logged + spare + b <= MAXOPBLOCKS + 2 * b
  {
    assert ops == 0 || ops == 1 || ops == 2;
  }

  lemma {:induction false} BeginOpReserves(g: Geometry, base: Disk, s: System, b: nat)
    requires Inv(g, base, s) && Enabled(g, s, BeginOp) && Reserved(s, b) && b <= MAXOPBLOCKS
    requires forall op | op in s.ops :: |s.ops[op]| <= b
    ensures Reserved(Step(g, s, BeginOp), b)
  {
    var t := Step(g, s, BeginOp);
    SpareSplit(t.ops, b, s.nextOp);
    assert t.ops - {s.nextOp} == s.ops;
    SpareBound(s.ops, b);
    assert s.phase.Running? && (|s.ops| == 0 ==> s.lh == []);
    AtMostThree(|s.lh|, |s.ops|, b, Spare(s.ops, b));
  }

  lemma {:induction false} LogWriteReserves(g: Geometry, base: Disk, s: System, b: nat, op: OpId, w: Write)
    requires Inv(g, base, s) && Enabled(g, s, LogWrite(op, w)) && Reserved(s, b)
    requires |s.ops[op] + {w.blockno}| <= b
    ensures Reserved(Step(g, s, LogWrite(op, w)), b)
  {
    var t := Step(g, s, LogWrite(op, w));
    SpareSplit(t.ops, b, op);
    SpareSplit(s.ops, b, op);
    assert t.ops - {op} == s.ops - {op};
    assert w.blockno !in s.lh ==> w.blockno !in s.ops[op];
  }

  lemma {:induction false} StepReserves(g: Geometry, base: Disk, s: System, a: Action, lim: Limits)
    requires Inv(g, base, s) && Enabled(g, s, a) && lim.blocks <= MAXOPBLOCKS
    requires Within(s, lim) && Within(Step(g, s, a), lim) && Reserved(s, lim.blocks)
    ensures Reserved(Step(g, s, a), lim.blocks)
  {
    var t := Step(g, s, a);
    match a
    case BeginOp => BeginOpReserves(g, base, s, lim.blocks);
    case LogWrite(op, w) =>
      assert t.ops[op] == s.ops[op] + {w.blockno};
      LogWriteReserves(g, base, s, lim.blocks, op, w);
    case EndOp(op) => SpareSplit(s.ops, lim.blocks, op);
    case _ => SpareBound(map[], lim.blocks);
  }

  lemma {:induction false} RunReserves(g: Geometry, base: Disk, s: System, acts: seq<Action>, lim: Limits)
    requires Inv(g, base, s) && CanRunWithin(g, s, acts, lim) && CanRun(g, s, acts)
    requires lim.blocks <= MAXOPBLOCKS && Reserved(s, lim.blocks)
    ensures Reserved(Run(g, s, acts), lim.blocks)
    decreases |acts|
  {
    if acts != [] {
      StepKeeps(g, base, s, acts[0]);
      var t := Step(g, s, acts[0]);
      StepReserves(g, base, s, acts[0], lim);
      RunReserves(g, base, t, acts[1..], lim);
    }
  }

  /** The bookkeeping of every run: a logged block has one slot, and holds every block
      that an outstanding operation has logged; while a commit or a recovery is in
      progress no operation is outstanding, so neither log_write nor end_op (whose panic
      tests for a commit) can run; and a process asleep in begin_op has a commit in
      progress to wake it, or else the log has no room for it and there is an outstanding
      operation to wake it: nobody sleeps while begin_op would succeed. */
  lemma {:induction false} Bookkeeping(g: Geometry, d: Disk, acts: seq<Action>)
    requires GoodLog(g, d) && CanRun(g, Boot(g, d), acts)
    ensures var s := Run(g, Boot(g, d), acts);
            && Loggable(g, |d|, s.lh)
            && (forall op | op in s.ops :: s.ops[op] <= Elems(s.lh))
            && (!s.phase.Running? ==> s.ops == map[])
            && (s.sleepers != {} ==> s.phase.Committing? || (s.phase.Running? && s.ops != map[] && !Reservable(s)))
            && (s.sleepers != {} ==> !Enabled(g, s, BeginOp))
  {
    BootInv(g, d);
    RunKeeps(g, Recover(g, d), Boot(g, d), acts);
    RunSize(g, Boot(g, d), acts);
  }

  lemma {:induction false} RunSize(g: Geometry, s: System, acts: seq<Action>)
    requires CanRun(g, s, acts)
    ensures |Run(g, s, acts).disk| == |s.disk|
    decreases |acts|
  {
    if acts != [] {
      RunSize(g, Step(g, s, acts[0]), acts[1..]);
    }
  }

  /** The reservation over every run whose operations log at most b <= MAXOPBLOCKS
      distinct blocks each: logged blocks and what outstanding operations may still log
      stay within MAXOPBLOCKS + 2 * b. */
  lemma {:induction false} ReservationHolds(g: Geometry, d: Disk, acts: seq<Action>, lim: Limits)
    requires GoodLog(g, d) && CanRunWithin(g, Boot(g, d), acts, lim) && lim.blocks <= MAXOPBLOCKS
    ensures CanRun(g, Boot(g, d), acts) && Reserved(Run(g, Boot(g, d), acts), lim.blocks)
  {
    WithinCanRun(g, Boot(g, d), acts, lim);
    BootInv(g, d);
    SpareBound(map[], lim.blocks);
    RunReserves(g, Recover(g, d), Boot(g, d), acts, lim);
  }

  /** The most blocks that are ever logged at once. */
  function MostLogged(g: Geometry, b: nat): nat {
    if b == 0 || g.size == 0 then 0 else Min(LOGSIZE, Min(g.size - 1, MAXOPBLOCKS + 2 * b))
  }

  function Min(x: nat, y: nat): nat {
    if x < y then x else y
  }

  lemma {:induction false} LogBounded(g: Geometry, d: Disk, acts: seq<Action>, lim: Limits)
    requires GoodLog(g, d) && CanRunWithin(g, Boot(g, d), acts, lim)
    ensures CanRun(g, Boot(g, d), acts) && |Run(g, Boot(g, d), acts).lh| <= MostLogged(g, lim.blocks)
  {
    WithinCanRun(g, Boot(g, d), acts, lim);
    Bookkeeping(g, d, acts);
    if lim.blocks <= MAXOPBLOCKS {
      ReservationHolds(g, d, acts, lim);
      SpareBound(Run(g, Boot(g, d), acts).ops, lim.blocks);
    }
  }

  lemma {:induction false} RunSnoc(g: Geometry, s: System, acts: seq<Action>, a: Action)
    requires CanRun(g, s, acts) && Enabled(g, Run(g, s, acts), a)
    ensures CanRun(g, s, acts + [a]) && Run(g, s, acts + [a]) == Step(g, Run(g, s, acts), a)
    decreases |acts|
  {
    if acts == [] {
      assert acts + [a] == [a] && [a][1..] == [];
    } else {
      RunSnoc(g, Step(g, s, acts[0]), acts[1..], a);
      assert (acts + [a])[1..] == acts[1..] + [a];
    }
  }

  // ---- a whole commit, a whole recovery ----

  function Writes(n: nat): seq<Action> {
    seq(n, _ => DiskWrite)
  }

  lemma PinsWithin(s: System)
    ensures Pins(s) <= Elems(s.lh)
  {
  }

  /** The next n writes of a commit or recovery, undisturbed. */
  lemma {:induction false} RunWrites(g: Geometry, s: System, n: nat)
    requires !s.phase.Running? && s.phase.done == 0 && n <= |s.phase.plan|
    requires s.disk == s.phase.from && (s.phase.Committing? ==> |Elems(s.lh) + s.held| < NBUF)
    ensures CanRun(g, s, Writes(n))
    ensures var t := Run(g, s, Writes(n));
            t == s.(disk := Apply(s.disk, s.phase.plan[..n]), phase := s.phase.(done := n), durable := t.durable)
  {
    hide Pins, Elems, Perform;
    if n > 0 {
      RunWrites(g, s, n - 1);
      var t := Run(g, s, Writes(n - 1));
      PinsWithin(t);
      CountSubset(Pins(t) + t.held, Elems(s.lh) + s.held);
      RunSnoc(g, s, Writes(n - 1), DiskWrite);
      assert Writes(n) == Writes(n - 1) + [DiskWrite];
      ApplyPush(s.disk, s.phase.plan, n - 1);
    }
  }

  /** All writes of a commit or recovery, and the step back to normal. */
  lemma {:induction false} RunPlan(g: Geometry, s: System)
    requires !s.phase.Running? && s.phase.done == 0
    requires s.disk == s.phase.from && (s.phase.plan != [] && s.phase.Committing? ==> |Elems(s.lh) + s.held| < NBUF)
    ensures var acts := Writes(|s.phase.plan|) + [Finish];
            && CanRun(g, s, acts)
            && var t := Run(g, s, acts); var d := Apply(s.disk, s.phase.plan);
            t == s.(disk := d, view := d, lh := [], phase := Running, sleepers := {}, durable := t.durable)
  {
    var n := |s.phase.plan|;
    if n > 0 {
      RunWrites(g, s, n);
    }
    assert s.phase.plan[..n] == s.phase.plan;
    RunSnoc(g, s, Writes(n), Finish);
  }

  /** What end_op by the last outstanding operation does when nothing stops it. */
  function LastEnd(op: OpId, n: nat): seq<Action> {
    [EndOp(op)] + (Writes(n) + [Finish])
  }

  lemma {:induction false} RunLastEnd(g: Geometry, s: System, op: OpId)
    requires s.phase.Running? && Enabled(g, s, EndOp(op)) && s.ops - {op} == map[]
    requires s.lh == [] || |Elems(s.lh) + s.held| < NBUF
    ensures var ws := CommitPlan(g, s.lh, s.disk, s.view);
            && CanRun(g, s, LastEnd(op, |ws|))
            && var t := Run(g, s, LastEnd(op, |ws|)); var d := Apply(s.disk, ws);
            t == s.(disk := d, view := d, lh := [], ops := map[], sleepers := {}, durable := t.durable)
  {
    var ws := CommitPlan(g, s.lh, s.disk, s.view);
    RunPlan(g, Step(g, s, EndOp(op)));
    assert LastEnd(op, |ws|)[1..] == Writes(|ws|) + [Finish];
  }

  // ---- runs that fill the log ----

  lemma {:induction false} WithinSnoc(g: Geometry, s: System, acts: seq<Action>, a: Action, lim: Limits)
    requires CanRunWithin(g, s, acts, lim) && CanRun(g, s, acts) && Enabled(g, Run(g, s, acts), a)
    requires Within(Step(g, Run(g, s, acts), a), lim)
    ensures CanRunWithin(g, s, acts + [a], lim)
    decreases |acts|
  {
    if acts == [] {
      assert acts + [a] == [a] && [a][1..] == [];
    } else {
      WithinSnoc(g, Step(g, s, acts[0]), acts[1..], a, lim);
      assert (acts + [a])[1..] == acts[1..] + [a];
    }
  }

  /** s can be reached from power-on within the limits. */
  ghost predicate Reached(g: Geometry, d: Disk, acts: seq<Action>, lim: Limits, s: System)
    requires GoodLog(g, d)
  {
    CanRunWithin(g, Boot(g, d), acts, lim) && CanRun(g, Boot(g, d), acts) && Run(g, Boot(g, d), acts) == s
  }

  lemma {:induction false} Extend(g: Geometry, d: Disk, acts: seq<Action>, lim: Limits, s: System, a: Action)
    requires GoodLog(g, d) && Reached(g, d, acts, lim, s) && Enabled(g, s, a) && Within(Step(g, s, a), lim)
    ensures Reached(g, d, acts + [a], lim, Step(g, s, a))
  {
    RunSnoc(g, Boot(g, d), acts, a);
    WithinSnoc(g, Boot(g, d), acts, a, lim);
  }

  /** The first n blocks after the log are logged, and nobody reads. */
  ghost predicate Filled(g: Geometry, d: Disk, s: System, n: nat) {
    && s.phase.Running? && |s.disk| == |d| && |s.view| == |d| && s.held == {}
    && |s.lh| == n && forall i | 0 <= i < n :: s.lh[i] == g.start + g.size + i
  }

  lemma {:induction false} FilledPins(g: Geometry, d: Disk, s: System, n: nat)
    requires Filled(g, d, s, n)
    ensures |Pins(s)| == n && Pins(s) == Elems(s.lh) && Pins(s) + s.held == Pins(s)
    ensures forall k | k in Pins(s) :: g.start + g.size <= k < g.start + g.size + n
  {
    CountDistinct(s.lh);
  }

  lemma {:induction false} FillStep(g: Geometry, d: Disk, s: System, n: nat, op: OpId) returns (a: Action)
    requires Filled(g, d, s, n) && n < LOGSIZE && n < g.size - 1 && g.start + g.size + n < |d| && op in s.ops
    ensures Enabled(g, s, a)
    ensures var t := Step(g, s, a);
            Filled(g, d, t, n + 1) && t.nextOp == s.nextOp && t.ops == s.ops[op := s.ops[op] + {g.start + g.size + n}]
  {
    FilledPins(g, d, s, n);
    a := LogWrite(op, Write(g.start + g.size + n, ZeroBlock()));
  }

  /** Operation 0 waits while i short operations come and go. */
  ghost predicate Climbed(g: Geometry, d: Disk, s: System, i: nat) {
    Filled(g, d, s, i) && s.ops == map[0 := {}] && s.nextOp == i + 1
  }

  lemma {:induction false} FirstOp(g: Geometry, d: Disk, lim: Limits) returns (acts: seq<Action>, s: System)
    requires GoodLog(g, d) && HeaderCount(g, d) == 0
    ensures Reached(g, d, acts, lim, s) && Climbed(g, d, s, 0)
  {
    s, acts := Boot(g, d), [];
    Extend(g, d, acts, lim, s, DiskWrite);
    s, acts := Step(g, s, DiskWrite), acts + [DiskWrite];
    Extend(g, d, acts, lim, s, Finish);
    s, acts := Step(g, s, Finish), acts + [Finish];
    Extend(g, d, acts, lim, s, BeginOp);
    s, acts := Step(g, s, BeginOp), acts + [BeginOp];
  }

  lemma {:induction false} ShortBegins(g: Geometry, d: Disk, s: System, i: nat)
    requires Climbed(g, d, s, i) && i <= MAXOPBLOCKS
    ensures Enabled(g, s, BeginOp)
    ensures var u := Step(g, s, BeginOp); Filled(g, d, u, i) && u.ops == map[0 := {}, i + 1 := {}] && u.nextOp == i + 2
  {
  }

  lemma {:induction false} ShortEnds(g: Geometry, d: Disk, s: System, i: nat)
    requires Filled(g, d, s, i + 1) && i < MAXOPBLOCKS && i < g.size - 1 && g.start + g.size + i < |d| && Fits(g, d)
    requires s.ops.Keys == {0, i + 1} && s.ops[0] == {} && s.nextOp == i + 2
    ensures Enabled(g, s, EndOp(i + 1)) && Climbed(g, d, Step(g, s, EndOp(i + 1)), i + 1)
  {
    assert s.ops - {i + 1} == map[0 := {}] && 0 in s.ops - {i + 1};
  }

  /** One more operation logs one block and ends, while operation 0 is outstanding. */
  lemma {:induction false} ShortOp(g: Geometry, d: Disk, lim: Limits, acts: seq<Action>, s: System, i: nat)
    returns (more: seq<Action>, t: System)
    requires GoodLog(g, d) && lim.blocks >= 1 && Reached(g, d, acts, lim, s) && Climbed(g, d, s, i)
    requires i < MAXOPBLOCKS && i < g.size - 1 && g.start + g.size + i < |d|
    ensures Reached(g, d, more, lim, t) && Climbed(g, d, t, i + 1)
  {
    hide CanRun, CanRunWithin, Reached, Step, Enabled;
    ShortBegins(g, d, s, i);
    Extend(g, d, acts, lim, s, BeginOp);
    t, more := Step(g, s, BeginOp), acts + [BeginOp];
    var a := FillStep(g, d, t, i, i + 1);
    Extend(g, d, more, lim, t, a);
    t, more := Step(g, t, a), more + [a];
    ShortEnds(g, d, t, i);
    Extend(g, d, more, lim, t, EndOp(i + 1));
    t, more := Step(g, t, EndOp(i + 1)), more + [EndOp(i + 1)];
  }

  lemma {:induction false} Climb(g: Geometry, d: Disk, lim: Limits, i: nat) returns (acts: seq<Action>, s: System)
    requires GoodLog(g, d) && HeaderCount(g, d) == 0 && lim.blocks >= 1
    requires i <= MAXOPBLOCKS && i < g.size && g.start + g.size + i <= |d|
    ensures Reached(g, d, acts, lim, s) && Climbed(g, d, s, i)
  {
    if i == 0 {
      acts, s := FirstOp(g, d, lim);
    } else {
      acts, s := Climb(g, d, lim, i - 1);
      acts, s := ShortOp(g, d, lim, acts, s, i - 1);
    }
  }

  /** After m blocks of short operations, operations 0 and m + 1 have logged j more,
      operation 0 the first b of them. */
  ghost predicate Loaded(g: Geometry, d: Disk, s: System, b: nat, m: nat, j: nat) {
    && Filled(g, d, s, m + j) && s.ops.Keys == {0, m + 1}
    && |s.ops[0]| <= Min(j, b) && |s.ops[m + 1]| <= if j < b then 0 else j - b
  }

  lemma {:induction false} LoadStep(g: Geometry, d: Disk, s: System, b: nat, m: nat, j: nat) returns (a: Action)
    requires Loaded(g, d, s, b, m, j) && j < 2 * b
    requires m + j < LOGSIZE && m + j < g.size - 1 && g.start + g.size + m + j < |d|
    ensures Enabled(g, s, a) && Loaded(g, d, Step(g, s, a), b, m, j + 1)
  {
    hide Filled, Enabled, Step;
    a := FillStep(g, d, s, m + j, if j < b then 0 else m + 1);
  }

  lemma {:induction false} Load(g: Geometry, d: Disk, lim: Limits, m: nat, j: nat) returns (acts: seq<Action>, s: System)
    requires GoodLog(g, d) && HeaderCount(g, d) == 0 && lim.blocks >= 1 && j <= 2 * lim.blocks
    requires m <= MAXOPBLOCKS && m + j <= LOGSIZE && m + j < g.size && g.start + g.size + m + j <= |d|
    ensures Reached(g, d, acts, lim, s) && Loaded(g, d, s, lim.blocks, m, j)
  {
    if j == 0 {
      acts, s := Climb(g, d, lim, m);
      Extend(g, d, acts, lim, s, BeginOp);
      acts, s := acts + [BeginOp], Step(g, s, BeginOp);
    } else {
      acts, s := Load(g, d, lim, m, j - 1);
      var a := LoadStep(g, d, s, lim.blocks, m, j - 1);
      Extend(g, d, acts, lim, s, a);
      acts, s := acts + [a], Step(g, s, a);
    }
  }

  /** A run within the limits that logs as much as LogBounded allows: short operations
      first, while one that has not written yet keeps the log from committing, and then
      two long ones. */
  lemma {:induction false} FillLog(g: Geometry, d: Disk, lim: Limits)
    returns (acts: seq<Action>, s: System, op: OpId, last: OpId)
    requires GoodLog(g, d) && HeaderCount(g, d) == 0 && lim.blocks >= 1 && g.start + g.size + LOGSIZE <= |d|
    ensures Reached(g, d, acts, lim, s) && Filled(g, d, s, MostLogged(g, lim.blocks))
    ensures op != last && s.ops.Keys == {op, last}
  {
    var n := MostLogged(g, lim.blocks);
    var m := Min(n, MAXOPBLOCKS);
    acts, s := Load(g, d, lim, m, n - m);
    op, last := 0, m + 1;
  }

  // ---- the two panics ----

  /** Some outstanding operation, which stays within b distinct blocks, meets log_write's
      "too big a transaction". */
  ghost predicate Panics(g: Geometry, s: System, b: nat) {
    exists op, k: nat :: op in s.ops && Usable(g, s, k) && |s.ops[op] + {k}| <= b && LogWritePanics(g, s)
  }

  /** A full log panics even for a block that is logged already. */
  lemma {:induction false} FullLogPanics(g: Geometry, d: Disk, s: System, b: nat, n: nat, op: OpId)
    requires Filled(g, d, s, n) && LogWritePanics(g, s) && op in s.ops && 1 <= b && |s.ops[op]| <= b
    requires s.ops[op] <= Elems(s.lh) && g.start + g.size + n <= |d| && g.start + g.size < |d|
    ensures Panics(g, s, b)
  {
    var k := g.start + g.size;
    if |s.ops[op]| == b {
      k :| k in s.ops[op];
      assert k in s.lh;
      assert s.ops[op] + {k} == s.ops[op];
    }
    assert Usable(g, s, k) && |s.ops[op] + {k}| <= b;
  }

  ghost predicate NeverPanicsIn(g: Geometry, d: Disk, acts: seq<Action>, lim: Limits)
    requires GoodLog(g, d)
  {
    CanRunWithin(g, Boot(g, d), acts, lim) && CanRun(g, Boot(g, d), acts) ==>
      !Panics(g, Run(g, Boot(g, d), acts), lim.blocks)
  }

  lemma {:induction false} PanicReached(g: Geometry, d: Disk, lim: Limits) returns (acts: seq<Action>)
    requires GoodLog(g, d) && HeaderCount(g, d) == 0 && g.start + g.size + LOGSIZE <= |d|
    requires lim.blocks >= 1 && (lim.blocks >= MAXOPBLOCKS || g.size < MAXOPBLOCKS + 2 * lim.blocks + 2)
    ensures CanRunWithin(g, Boot(g, d), acts, lim) && CanRun(g, Boot(g, d), acts)
    ensures Panics(g, Run(g, Boot(g, d), acts), lim.blocks)
  {
    var s, op, last;
    acts, s, op, last := FillLog(g, d, lim);
    Bookkeeping(g, d, acts);
    WithinCanRun(g, Boot(g, d), acts, lim);
    FullLogPanics(g, d, s, lim.blocks, MostLogged(g, lim.blocks), op);
  }

  /** begin_op's reservation keeps every run clear of log_write's panic exactly when
      operations log fewer than MAXOPBLOCKS distinct blocks each and the log holds what
      that leads to: log_write tests for a full log before it looks for the block, so
      with MAXOPBLOCKS blocks each there is a way into the panic at every log size. */
  lemma {:induction false} ReservationSoundIff(g: Geometry, d: Disk, lim: Limits)
    requires GoodLog(g, d) && HeaderCount(g, d) == 0 && g.start + g.size + LOGSIZE <= |d|
    ensures (lim.blocks == 0 || (lim.blocks < MAXOPBLOCKS && g.size >= MAXOPBLOCKS + 2 * lim.blocks + 2))
            <==> (forall acts :: NeverPanicsIn(g, d, acts, lim))
  {
    var b := lim.blocks;
    if b == 0 || (b < MAXOPBLOCKS && g.size >= MAXOPBLOCKS + 2 * b + 2) {
      forall acts ensures NeverPanicsIn(g, d, acts, lim) {
        if CanRunWithin(g, Boot(g, d), acts, lim) {
          LogBounded(g, d, acts, lim);
        }
      }
    } else {
      var acts := PanicReached(g, d, lim);
      assert !NeverPanicsIn(g, d, acts, lim);
    }
  }

  /** commit has a block to write and bget has no buffer for the log block. */
  ghost predicate CommitRunsOut(s: System) {
    s.phase.Committing? && s.phase.done < |s.phase.plan| && !BufferLeft(s)
  }

  ghost predicate NeverRunsOutIn(g: Geometry, d: Disk, acts: seq<Action>, lim: Limits)
    requires GoodLog(g, d)
  {
    CanRunWithin(g, Boot(g, d), acts, lim) && CanRun(g, Boot(g, d), acts) ==>
      !CommitRunsOut(Run(g, Boot(g, d), acts))
  }

  lemma {:induction false} PinsBounded(s: System)
    requires Distinct(s.lh)
    ensures |Pins(s)| <= |s.lh| && |Pins(s) + s.held| <= |s.lh| + |s.held|
  {
    CountDistinct(s.lh);
    CountUnion(Pins(s), s.held);
    PinsWithin(s);
    CountSubset(Pins(s), Elems(s.lh));
  }

  lemma {:induction false} BuffersSuffice(g: Geometry, d: Disk, acts: seq<Action>, lim: Limits)
    requires GoodLog(g, d) && CanRunWithin(g, Boot(g, d), acts, lim) && CanRun(g, Boot(g, d), acts)
    requires MostLogged(g, lim.blocks) == 0 || MostLogged(g, lim.blocks) + lim.readers < NBUF
    ensures !CommitRunsOut(Run(g, Boot(g, d), acts))
  {
    LogBounded(g, d, acts, lim);
    WithinCanRun(g, Boot(g, d), acts, lim);
    BootInv(g, d);
    RunKeeps(g, Recover(g, d), Boot(g, d), acts);
    PinsBounded(Run(g, Boot(g, d), acts));
  }

  /** Readers hold r of the buffers that a log of n blocks leaves. */
  ghost predicate ReadersHold(g: Geometry, d: Disk, s: System, t: System, n: nat, r: nat) {
    && Filled(g, d, s, n) && t == s.(held := t.held) && |t.held| == r
    && forall k | k in t.held :: g.start + g.size + n <= k < g.start + g.size + n + r
  }

  lemma {:induction false} ReadPins(g: Geometry, d: Disk, s: System, t: System, n: nat, r: nat)
    requires ReadersHold(g, d, s, t, n, r)
    ensures |Pins(t) + t.held| == n + r && Pins(t) == Elems(t.lh)
  {
    FilledPins(g, d, s, n);
    assert Pins(t) == Pins(s);
    CountUnion(Pins(t), t.held);
  }

  lemma {:induction false} HoldOne(g: Geometry, d: Disk, s: System, t: System, n: nat, r: nat) returns (a: Action)
    requires ReadersHold(g, d, s, t, n, r) && n + r < NBUF && g.start + g.size + NBUF <= |d|
    ensures Enabled(g, t, a) && ReadersHold(g, d, s, Step(g, t, a), n, r + 1)
  {
    ReadPins(g, d, s, t, n, r);
    a := Hold(g.start + g.size + n + r);
  }

  lemma {:induction false} HoldMore(g: Geometry, d: Disk, lim: Limits, acts: seq<Action>, s: System, n: nat, r: nat)
    returns (more: seq<Action>, t: System)
    requires GoodLog(g, d) && Reached(g, d, acts, lim, s) && Filled(g, d, s, n)
    requires n + r <= NBUF && r <= lim.readers && g.start + g.size + NBUF <= |d|
    ensures Reached(g, d, more, lim, t) && ReadersHold(g, d, s, t, n, r)
  {
    hide Enabled, Step, CanRunWithin;
    more, t := acts, s;
    if r > 0 {
      more, t := HoldMore(g, d, lim, acts, s, n, r - 1);
      var a := HoldOne(g, d, s, t, n, r - 1);
      WithinCanRun(g, Boot(g, d), more, lim);
      Extend(g, d, more, lim, t, a);
      more, t := more + [a], Step(g, t, a);
    }
  }

  lemma {:induction false} EndSteps(g: Geometry, base: Disk, s: System, op: OpId, last: OpId)
    requires Inv(g, base, s) && s.phase.Running? && op != last && s.ops.Keys == {op, last}
    ensures Enabled(g, s, EndOp(op))
    ensures var u := Step(g, s, EndOp(op));
            && u == s.(ops := s.ops - {op}, sleepers := {})
            && Enabled(g, u, EndOp(last))
            && var t := Step(g, u, EndOp(last));
            && t.phase.Committing? && t.phase.done == 0 && t.lh == s.lh && t.held == s.held && t.ops == map[]
            && |t.phase.plan| == if s.lh == [] then 0 else 2 * |s.lh| + 2
  {
    GuardsHold(g, base, s);
    assert last in s.ops - {op};
  }

  /** The last two operations end, and the commit begins. */
  lemma {:induction false} EndBoth(g: Geometry, d: Disk, lim: Limits, acts: seq<Action>, s: System, op: OpId, last: OpId)
    returns (more: seq<Action>, t: System)
    requires GoodLog(g, d) && Reached(g, d, acts, lim, s) && s.phase.Running?
    requires op != last && s.ops.Keys == {op, last}
    ensures Reached(g, d, more, lim, t) && t.phase.Committing? && t.phase.done == 0
    ensures t.lh == s.lh && t.held == s.held
    ensures |t.phase.plan| == if s.lh == [] then 0 else 2 * |s.lh| + 2
  {
    hide Inv, Enabled, Step, CanRun, CanRunWithin, Run;
    BootInv(g, d);
    RunKeeps(g, Recover(g, d), Boot(g, d), acts);
    WithinCanRun(g, Boot(g, d), acts, lim);
    EndSteps(g, Recover(g, d), s, op, last);
    Extend(g, d, acts, lim, s, EndOp(op));
    more, t := acts + [EndOp(op)], Step(g, s, EndOp(op));
    Extend(g, d, more, lim, t, EndOp(last));
    more, t := more + [EndOp(last)], Step(g, t, EndOp(last));
  }

  lemma {:induction false} RunsOut(g: Geometry, d: Disk, lim: Limits) returns (acts: seq<Action>)
    requires GoodLog(g, d) && HeaderCount(g, d) == 0 && g.start + g.size + LOGSIZE <= |d|
    requires MostLogged(g, lim.blocks) > 0 && MostLogged(g, lim.blocks) + lim.readers >= NBUF
    ensures CanRunWithin(g, Boot(g, d), acts, lim) && CanRun(g, Boot(g, d), acts)
    ensures CommitRunsOut(Run(g, Boot(g, d), acts))
  {
    var s, op, last;
    acts, s, op, last := FillLog(g, d, lim);
    var n, t := MostLogged(g, lim.blocks), s;
    acts, t := HoldMore(g, d, lim, acts, s, n, NBUF - n);
    ReadPins(g, d, s, t, n, NBUF - n);
    acts, t := EndBoth(g, d, lim, acts, t, op, last);
  }

  /** commit finds a buffer in every run within the limits exactly when the most that can
      be logged and the most that readers can hold leave one over.  For operations of
      MAXOPBLOCKS blocks and r readers that is a log of at most NBUF - r blocks. */
  lemma {:induction false} CommitHasBufferIff(g: Geometry, d: Disk, lim: Limits)
    requires GoodLog(g, d) && HeaderCount(g, d) == 0 && g.start + g.size + LOGSIZE <= |d|
    ensures (MostLogged(g, lim.blocks) == 0 || MostLogged(g, lim.blocks) + lim.readers < NBUF)
            <==> (forall acts :: NeverRunsOutIn(g, d, acts, lim))
    ensures lim.blocks >= MAXOPBLOCKS ==>
              ((g.size == 1 || g.size + lim.readers <= NBUF) <==> (forall acts :: NeverRunsOutIn(g, d, acts, lim)))
  {
    if MostLogged(g, lim.blocks) == 0 || MostLogged(g, lim.blocks) + lim.readers < NBUF {
      forall acts ensures NeverRunsOutIn(g, d, acts, lim) {
        if CanRunWithin(g, Boot(g, d), acts, lim) && CanRun(g, Boot(g, d), acts) {
          BuffersSuffice(g, d, acts, lim);
        }
      }
    } else {
      var acts := RunsOut(g, d, lim);
      assert !NeverRunsOutIn(g, d, acts, lim);
    }
  }
}
