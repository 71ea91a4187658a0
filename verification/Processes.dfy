/** Sleep and wakeup: sleep locks, wait and exit, as an interleaving of processes
    at the granularity of spin-lock operations.  ptable.lock and each sleep lock's
    own spin lock are explicit; any process may take the next step. */
module Processes {
  import opened ProcState

  datatype Chan = NoChan | LockChan(l: nat) | ProcChan(p: nat) | OtherChan(c: nat)

  /** Where a process is in the code that the protocol is about.
      Test .. Reacquire: acquiresleep; Clear .. Unlock: releasesleep. */
  datatype Pc =
    | Run
    | Test(l: nat)          // holds lk->lk; looks at lk->locked
    | ToSleep(l: nat)       // in sleep(): about to take ptable.lock
    | DropSpin(l: nat)      // holds both; about to release lk->lk
    | GoSleep(l: nat)       // holds ptable.lock; about to set SLEEPING and switch away
    | LockPark(l: nat)      // switched away in sleep()
    | Wake(l: nat)          // back, with ptable.lock
    | Reacquire(l: nat)     // about to take lk->lk again
    | Clear(l: nat)         // releasesleep: holds lk->lk
    | ToWakeup(l: nat)      // locked is 0; about to take ptable.lock
    | Wakeup(l: nat)        // holds both; about to run wakeup1
    | DropTable(l: nat)     // wakeup1 done
    | Unlock(l: nat)        // about to release lk->lk
    | WaitScan              // wait(): holds ptable.lock
    | WaitPark              // switched away in wait()
    | Exiting               // exit(): holds ptable.lock
    | Dead
    | Park                  // switched away in yield(), fork's child, or another sleep()
    | Back                  // back from there, with ptable.lock
    | Forking(c: nat)       // fork(): slot c is EMBRYO
    | Forked(c: nat)        // fork(): c's parent is set

  /** held is the set of sleep locks the process has acquired and not released. */
  datatype Proc = Proc(st: State, parent: int, chan: Chan, killed: bool, pc: Pc, held: set<nat>)

  /** table and spin name the process that holds each spin lock, -1 for none. */
  datatype System = System(procs: seq<Proc>, init: nat, table: int, spin: seq<int>, locked: seq<bool>)

  datatype Action =
    | AcquireSpin(l: nat) | TestLocked | TakeTable | ReleaseSpin | FallAsleep | Tidy
    | ReleaseEnter(l: nat) | ClearLocked | WakeTable | WakeAll | ReleaseTable | ReleaseDone
    | Dispatch
    | WaitEnter | Reap(c: nat) | WaitNone | WaitSleep
    | ExitEnter | ExitDone
    | Kill(t: nat)
    | Yield | SleepOther(c: nat) | WakeOther(c: nat) | Resume
    | AllocProc(c: nat) | ForkFails | SetParent | ForkRuns

  predicate HoldsTable(pc: Pc) {
    pc.DropSpin? || pc.GoSleep? || pc.Wake? || pc.Wakeup? || pc.DropTable? || pc.WaitScan? || pc.Exiting? || pc.Back?
  }

  predicate HoldsSpin(pc: Pc, l: nat) {
    pc == Test(l) || pc == ToSleep(l) || pc == DropSpin(l) || Releasing(pc, l) || pc == Clear(l)
      || pc == DropTable(l) || pc == Unlock(l)
  }

  /** releasesleep has cleared `locked` and has not run wakeup1 yet. */
  predicate Releasing(pc: Pc, l: nat) {
    pc == ToWakeup(l) || pc == Wakeup(l)
  }

  /** acquiresleep saw the lock taken and is going to sleep, or is asleep, on it. */
  predicate WaitsFor(p: Proc, l: nat) {
    p.pc == ToSleep(l) || p.pc == DropSpin(l) || p.pc == GoSleep(l) || (p.pc == LockPark(l) && p.st == Sleeping)
  }

  /** The sleep lock that the place in the code is about, or -1. */
  function LockOf(pc: Pc): int {
    match pc
    case Test(l) => l
    case ToSleep(l) => l
    case DropSpin(l) => l
    case GoSleep(l) => l
    case LockPark(l) => l
    case Wake(l) => l
    case Reacquire(l) => l
    case Clear(l) => l
    case ToWakeup(l) => l
    case Wakeup(l) => l
    case DropTable(l) => l
    case Unlock(l) => l
    case _ => -1
  }

  predicate Parked(pc: Pc) {
    pc.LockPark? || pc.WaitPark? || pc.Park?
  }

  /** wakeup1(chan). */
  function Woken(procs: seq<Proc>, chan: Chan): (r: seq<Proc>)
    ensures |r| == |procs|
    ensures forall i | 0 <= i < |r| :: r[i] == if procs[i].st == Sleeping && procs[i].chan == chan
                                               then procs[i].(st := Runnable) else procs[i]
  {
    seq(|procs|, i requires 0 <= i < |procs| =>
      if procs[i].st == Sleeping && procs[i].chan == chan then procs[i].(st := Runnable) else procs[i])
  }

  /** exit's reparenting: p's children go to init. */
  function Reparented(procs: seq<Proc>, p: nat, init: nat): (r: seq<Proc>)
    ensures |r| == |procs|
    ensures forall i | 0 <= i < |r| :: r[i] == if procs[i].parent == p then procs[i].(parent := init) else procs[i]
  {
    seq(|procs|, i requires 0 <= i < |procs| =>
      if procs[i].parent == p then procs[i].(parent := init) else procs[i])
  }

  predicate IsChild(y: System, c: nat, p: nat) {
    c < |y.procs| && y.procs[c].parent == p
  }

  ghost predicate HasZombie(y: System, p: nat) {
    exists c: nat :: IsChild(y, c, p) && y.procs[c].st == Zombie
  }

  ghost predicate Enabled(y: System, p: nat, a: Action)
    requires p < |y.procs|
  {
    var q := y.procs[p];
    && (a.Dispatch? || a.WakeOther? || q.st == Running)
    && match a
       case AcquireSpin(l) => l < |y.spin| && (q.pc == Run || q.pc == Reacquire(l)) && y.spin[l] == -1
       case TestLocked => q.pc.Test? && q.pc.l < |y.spin| == |y.locked|
       case TakeTable => q.pc.ToSleep? && y.table == -1
       case ReleaseSpin => q.pc.DropSpin? && q.pc.l < |y.spin|
       case FallAsleep => q.pc.GoSleep?
       case Tidy => q.pc.Wake?
       case ReleaseEnter(l) => l < |y.spin| && q.pc == Run && l in q.held && y.spin[l] == -1
       case ClearLocked => q.pc.Clear? && q.pc.l < |y.locked|
       case WakeTable => q.pc.ToWakeup? && y.table == -1
       case WakeAll => q.pc.Wakeup?
       case ReleaseTable => q.pc.DropTable?
       case ReleaseDone => q.pc.Unlock? && q.pc.l < |y.spin|
       case Dispatch => q.st == Runnable && Parked(q.pc) && y.table == -1
       case WaitEnter => q.pc == Run && y.table == -1
       case Reap(c) => q.pc.WaitScan? && IsChild(y, c, p) && y.procs[c].st == Zombie
       case WaitNone => q.pc.WaitScan? && !HasZombie(y, p) && (q.killed || !exists c: nat :: IsChild(y, c, p))
       case WaitSleep => q.pc.WaitScan? && !HasZombie(y, p) && !q.killed && (exists c: nat :: IsChild(y, c, p))
       case ExitEnter => q.pc == Run && p != y.init && y.table == -1
       case ExitDone => q.pc.Exiting?
       case Kill(t) => q.pc == Run && t < |y.procs| && y.table == -1
       case Yield => q.pc == Run && y.table == -1
       case SleepOther(_) => q.pc == Run && y.table == -1
       case WakeOther(_) => y.table == -1
       case Resume => q.pc.Back?
       case AllocProc(c) => q.pc == Run && c < |y.procs| && y.procs[c].st == Unused && y.table == -1
       case ForkFails => q.pc.Forking? && q.pc.c < |y.procs|
       case SetParent => q.pc.Forking? && q.pc.c < |y.procs|
       case ForkRuns => q.pc.Forked? && q.pc.c < |y.procs| && y.table == -1
  }

  function At(y: System, p: nat, q: Proc): System
    requires p < |y.procs|
  {
    y.(procs := y.procs[p := q])
  }

  // acquiresleep

  function DoAcquireSpin(y: System, p: nat, l: nat): System
    requires p < |y.procs| && l < |y.spin|
  {
    At(y, p, y.procs[p].(pc := Test(l))).(spin := y.spin[l := p])
  }

  function DoTest(y: System, p: nat, l: nat): System
    requires p < |y.procs| && l < |y.spin| == |y.locked|
  {
    var q := y.procs[p];
    if y.locked[l] then At(y, p, q.(pc := ToSleep(l)))
    else At(y, p, q.(pc := Run, held := q.held + {l})).(spin := y.spin[l := -1], locked := y.locked[l := true])
  }

  function DoReleaseSpin(y: System, p: nat, l: nat, pc: Pc): System
    requires p < |y.procs| && l < |y.spin|
  {
    At(y, p, y.procs[p].(pc := pc)).(spin := y.spin[l := -1])
  }

  function DoFallAsleep(y: System, p: nat, pc: Pc, chan: Chan): System
    requires p < |y.procs|
  {
    At(y, p, y.procs[p].(pc := pc, st := Sleeping, chan := chan)).(table := -1)
  }

  function DoTidy(y: System, p: nat, pc: Pc): System
    requires p < |y.procs|
  {
    At(y, p, y.procs[p].(pc := pc, chan := NoChan)).(table := -1)
  }

  // releasesleep

  function DoReleaseEnter(y: System, p: nat, l: nat): System
    requires p < |y.procs| && l < |y.spin|
  {
    At(y, p, y.procs[p].(pc := Clear(l))).(spin := y.spin[l := p])
  }

  function DoClear(y: System, p: nat, l: nat): System
    requires p < |y.procs| && l < |y.locked|
  {
    At(y, p, y.procs[p].(pc := ToWakeup(l), held := y.procs[p].held - {l})).(locked := y.locked[l := false])
  }

  function DoWakeAll(y: System, p: nat, l: nat): System
    requires p < |y.procs|
  {
    At(y.(procs := Woken(y.procs, LockChan(l))), p, y.procs[p].(pc := DropTable(l)))
  }

  // taking and releasing ptable.lock

  function DoTakeTable(y: System, p: nat, pc: Pc): System
    requires p < |y.procs|
  {
    At(y, p, y.procs[p].(pc := pc)).(table := p)
  }

  function DoReleaseTable(y: System, p: nat, pc: Pc): System
    requires p < |y.procs|
  {
    At(y, p, y.procs[p].(pc := pc)).(table := -1)
  }

  /** The scheduler switches to p, which comes back holding ptable.lock. */
  function DoDispatch(y: System, p: nat): System
    requires p < |y.procs|
  {
    var q := y.procs[p];
    var pc := if q.pc.LockPark? then Wake(q.pc.l) else if q.pc.WaitPark? then WaitScan else Back;
    At(y, p, q.(st := Running, pc := pc)).(table := p)
  }

  function DoYield(y: System, p: nat): System
    requires p < |y.procs|
  {
    At(y, p, y.procs[p].(pc := Park, st := Runnable))
  }

  // wait, exit, kill, fork

  const EMPTY_SLOT: Proc := Proc(Unused, -1, NoChan, false, Dead, {})

  function DoReap(y: System, p: nat, c: nat): System
    requires p < |y.procs| && c < |y.procs|
  {
    At(At(y, p, y.procs[p].(pc := Run)), c, EMPTY_SLOT).(table := -1)
  }

  /** wakeup1(parent), then the children go to init, which is woken if one of them
      is a zombie, then p is a zombie itself. */
  ghost function DoExit(y: System, p: nat): System
    requires p < |y.procs|
  {
    var q := y.procs[p];
    var woken := if q.parent >= 0 then Woken(y.procs, ProcChan(q.parent)) else y.procs;
    var moved := Reparented(woken, p, y.init);
    var again := if HasZombie(y, p) then Woken(moved, ProcChan(y.init)) else moved;
    At(y.(procs := again), p, again[p].(st := Zombie, pc := Dead)).(table := -1)
  }

  function DoKill(y: System, t: nat): System
    requires t < |y.procs|
  {
    var k := y.procs[t];
    At(y, t, k.(killed := true, st := if k.st == Sleeping then Runnable else k.st))
  }

  function DoAlloc(y: System, p: nat, c: nat): System
    requires p < |y.procs| && c < |y.procs|
  {
    At(At(y, c, y.procs[c].(st := Embryo)), p, y.procs[p].(pc := Forking(c)))
  }

  function DoForkFails(y: System, p: nat, c: nat): System
    requires p < |y.procs| && c < |y.procs|
  {
    At(At(y, c, y.procs[c].(st := Unused)), p, y.procs[p].(pc := Run))
  }

  function DoSetParent(y: System, p: nat, c: nat): System
    requires p < |y.procs| && c < |y.procs|
  {
    At(At(y, c, y.procs[c].(parent := p)), p, y.procs[p].(pc := Forked(c)))
  }

  function DoForkRuns(y: System, p: nat, c: nat): System
    requires p < |y.procs| && c < |y.procs|
  {
    At(At(y, c, y.procs[c].(st := Runnable, pc := Park)), p, y.procs[p].(pc := Run))
  }

  ghost function Step(y: System, p: nat, a: Action): System
    requires p < |y.procs| && Enabled(y, p, a)
  {
    var q := y.procs[p];
    match a
    case AcquireSpin(l) => DoAcquireSpin(y, p, l)
    case TestLocked => DoTest(y, p, q.pc.l)
    case TakeTable => DoTakeTable(y, p, DropSpin(q.pc.l))
    case ReleaseSpin => DoReleaseSpin(y, p, q.pc.l, GoSleep(q.pc.l))
    case FallAsleep => DoFallAsleep(y, p, LockPark(q.pc.l), LockChan(q.pc.l))
    case Tidy => DoTidy(y, p, Reacquire(q.pc.l))
    case ReleaseEnter(l) => DoReleaseEnter(y, p, l)
    case ClearLocked => DoClear(y, p, q.pc.l)
    case WakeTable => DoTakeTable(y, p, Wakeup(q.pc.l))
    case WakeAll => DoWakeAll(y, p, q.pc.l)
    case ReleaseTable => DoReleaseTable(y, p, Unlock(q.pc.l))
    case ReleaseDone => DoReleaseSpin(y, p, q.pc.l, Run)
    case Dispatch => DoDispatch(y, p)
    case WaitEnter => DoTakeTable(y, p, WaitScan)
    case Reap(c) => DoReap(y, p, c)
    case WaitNone => DoReleaseTable(y, p, Run)
    case WaitSleep => DoFallAsleep(y, p, WaitPark, ProcChan(p))
    case ExitEnter => DoTakeTable(y, p, Exiting)
    case ExitDone => DoExit(y, p)
    case Kill(t) => DoKill(y, t)
    case Yield => DoYield(y, p)
    case SleepOther(c) => DoFallAsleep(y, p, Park, OtherChan(c))
    case WakeOther(c) => y.(procs := Woken(y.procs, OtherChan(c)))
    case Resume => DoTidy(y, p, Run)
    case AllocProc(c) => DoAlloc(y, p, c)
    case ForkFails => DoForkFails(y, p, q.pc.c)
    case SetParent => DoSetParent(y, p, q.pc.c)
    case ForkRuns => DoForkRuns(y, p, q.pc.c)
  }

  // ---- the invariant ----

  predicate Alive(q: Proc) {
    q.st == Sleeping || q.st == Runnable || q.st == Running
  }

  predicate Shape(y: System) {
    && |y.spin| == |y.locked| && -1 <= y.table < |y.procs|
    && (forall l | 0 <= l < |y.spin| :: -1 <= y.spin[l] < |y.procs|)
    && y.init < |y.procs| && Alive(y.procs[y.init]) && y.procs[y.init].pc != Exiting
    && y.procs[y.init].parent < 0
  }

  /** The spin locks that p holds are those its place in the code says. */
  ghost predicate SpinOk(y: System, p: nat, q: Proc) {
    && LockOf(q.pc) < |y.spin| && (HoldsTable(q.pc) <==> y.table == p)
    && (forall l: nat | l < |y.spin| :: HoldsSpin(q.pc, l) <==> y.spin[l] == p)
  }

  predicate StateOk(q: Proc, p: nat) {
    && (Parked(q.pc) <==> q.st == Sleeping || q.st == Runnable)
    && (q.pc == Dead <==> q.st == Unused || q.st == Embryo || q.st == Zombie)
    && (q.st == Sleeping && q.pc.LockPark? ==> q.chan == LockChan(q.pc.l))
    && (q.st == Sleeping && q.pc.WaitPark? ==> q.chan == ProcChan(p))
    && (q.st == Sleeping && q.pc == Park ==> q.chan.OtherChan?)
  }

  /** The sleep lock is held, or its releaser has yet to wake the sleepers. */
  ghost predicate Guarded(y: System, l: nat) {
    && l < |y.locked| == |y.spin|
    && (y.locked[l] || (0 <= y.spin[l] < |y.procs| && Releasing(y.procs[y.spin[l]].pc, l)))
  }

  ghost predicate SleepOk(y: System, p: nat, q: Proc) {
    && (forall l: nat | WaitsFor(q, l) :: Guarded(y, l))
    && (q.st == Sleeping && q.pc.WaitPark? ==> !HasZombie(y, p))
  }

  ghost predicate ParentOk(y: System, p: nat, q: Proc) {
    && q.parent < |y.procs| && (q.parent >= 0 ==> Alive(y.procs[q.parent]) && q.parent != p)
    && (q.st == Unused ==> q.parent < 0)
  }

  ghost predicate HeldOk(y: System, p: nat, q: Proc) {
    && (forall l | l in q.held :: l < |y.locked| && y.locked[l])
    && (q.pc.Clear? ==> q.pc.l in q.held)
    && (forall r: nat, l | r < |y.procs| && r != p && l in q.held :: l !in y.procs[r].held)
  }

  ghost predicate ForkOk(y: System, p: nat, q: Proc) {
    && (q.pc.Forking? || q.pc.Forked? ==>
          && q.pc.c < |y.procs| && q.pc.c != p && y.procs[q.pc.c].st == Embryo
          && forall r: nat | r < |y.procs| && r != p && (y.procs[r].pc.Forking? || y.procs[r].pc.Forked?) ::
               y.procs[r].pc.c != q.pc.c)
    && (q.pc.Forking? && q.pc.c < |y.procs| ==> y.procs[q.pc.c].parent < 0)
    && (q.pc.Forked? && q.pc.c < |y.procs| ==> y.procs[q.pc.c].parent == p)
  }

  ghost predicate ProcOk(y: System, p: nat)
    requires p < |y.procs|
  {
    var q := y.procs[p];
    SpinOk(y, p, q) && StateOk(q, p) && SleepOk(y, p, q) && ParentOk(y, p, q) && HeldOk(y, p, q) && ForkOk(y, p, q)
  }

  ghost predicate Inv(y: System) {
    Shape(y) && forall p: nat | p < |y.procs| :: ProcOk(y, p)
  }

  // ---- steps that change one process ----

  /** A spin lock that p may have taken or released, and nobody else has. */
  predicate Between(before: int, after: int, p: nat) {
    before == after || ((before == p || before == -1) && (after == p || after == -1))
  }

  predicate Unawaited(y: System, p: nat, l: nat) {
    forall r: nat | r < |y.procs| && r != p :: !WaitsFor(y.procs[r], l)
  }

  /** p's step leaves the other processes, their locks and their children alone. */
  ghost predicate Local(y: System, y': System, p: nat)
    requires p < |y.procs|
  {
    && |y'.procs| == |y.procs| && y'.procs == y.procs[p := y'.procs[p]] && y'.init == y.init
    && |y'.spin| == |y.spin| && |y'.locked| == |y.locked| && Shape(y')
    && y'.procs[p].parent == y.procs[p].parent && Alive(y.procs[p]) && Alive(y'.procs[p])
    && !y'.procs[p].pc.Forking? && !y'.procs[p].pc.Forked?
    && Between(y.table, y'.table, p)
    && (forall l: nat | l < |y.spin| :: Between(y.spin[l], y'.spin[l], p))
    && (forall l: nat | Guarded(y, l) :: Guarded(y', l) || Unawaited(y, p, l))
    && (forall l: nat | l < |y.locked| && y.locked[l] && l !in y.procs[p].held :: y'.locked[l] && l !in y'.procs[p].held)
  }

  lemma {:induction false} LocalOther(y: System, y': System, p: nat, r: nat)
    requires p < |y.procs| && Local(y, y', p) && r < |y.procs| && r != p
    requires ProcOk(y, p) && ProcOk(y, r)
    ensures ProcOk(y', r)
  {
    var q := y.procs[r];
    assert y'.procs[r] == q;
    assert HeldOk(y', r, q) by {
      forall x: nat, l | x < |y'.procs| && x != r && l in q.held ensures l !in y'.procs[x].held {
        assert l !in y.procs[x].held;
      }
    }
    assert SleepOk(y', r, q) by {
      forall c: nat | IsChild(y', c, r) ensures y'.procs[c].st == Zombie ==> HasZombie(y, r) {
        assert IsChild(y, c, r);
      }
    }
    assert SpinOk(y', r, q) && ParentOk(y', r, q);
    assert ForkOk(y', r, q);
  }

  lemma {:induction false} LocalKeeps(y: System, y': System, p: nat)
    requires Inv(y) && p < |y.procs| && Local(y, y', p) && ProcOk(y', p)
    ensures Inv(y')
  {
    assert |y'.procs| == |y.procs| && Shape(y');
    hide Local, ProcOk;
    forall r: nat | r < |y'.procs| ensures ProcOk(y', r) {
      assert ProcOk(y, p) && ProcOk(y, r);
      if r != p {
        LocalOther(y, y', p, r);
      }
    }
  }

  lemma {:induction false} AcquireSpinKeeps(y: System, p: nat, l: nat)
    requires Inv(y) && p < |y.procs| && l < |y.spin| && y.spin[l] == -1 && y.procs[p].st == Running
    requires y.procs[p].pc == Run || y.procs[p].pc == Reacquire(l)
    ensures Inv(DoAcquireSpin(y, p, l))
  {
    assert ProcOk(y, p);
    var y' := DoAcquireSpin(y, p, l);
    assert Local(y, y', p);
    LocalKeeps(y, y', p);
  }

  /** The test of lk->locked: a process that finds it set goes to sleep ... */
  lemma {:induction false} TestTakenKeeps(y: System, p: nat, l: nat)
    requires Inv(y) && p < |y.procs| && l < |y.spin| && y.procs[p].pc == Test(l) && y.locked[l]
    ensures Inv(DoTest(y, p, l))
  {
    assert ProcOk(y, p);
    var y' := DoTest(y, p, l);
    assert Local(y, y', p);
    LocalKeeps(y, y', p);
  }

  /** ... and one that finds it clear is the only holder. */
  lemma {:induction false} TestFreeKeeps(y: System, p: nat, l: nat)
    requires Inv(y) && p < |y.procs| && l < |y.spin| && y.procs[p].pc == Test(l) && !y.locked[l]
    ensures Inv(DoTest(y, p, l))
  {
    assert ProcOk(y, p);
    var y' := DoTest(y, p, l);
    forall r: nat | r < |y.procs| ensures l !in y.procs[r].held {
      assert ProcOk(y, r);
    }
    assert Local(y, y', p);
    LocalKeeps(y, y', p);
  }

  lemma {:induction false} ReleaseSpinKeeps(y: System, p: nat, l: nat)
    requires Inv(y) && p < |y.procs| && l < |y.spin| && y.procs[p].pc == DropSpin(l)
    ensures Inv(DoReleaseSpin(y, p, l, GoSleep(l)))
  {
    assert ProcOk(y, p);
    var y' := DoReleaseSpin(y, p, l, GoSleep(l));
    assert Guarded(y, l) && Guarded(y', l);
    assert Local(y, y', p);
    LocalKeeps(y, y', p);
  }

  lemma {:induction false} ReleaseDoneKeeps(y: System, p: nat, l: nat)
    requires Inv(y) && p < |y.procs| && l < |y.spin| && y.procs[p].pc == Unlock(l)
    ensures Inv(DoReleaseSpin(y, p, l, Run))
  {
    assert ProcOk(y, p);
    var y' := DoReleaseSpin(y, p, l, Run);
    assert Local(y, y', p);
    LocalKeeps(y, y', p);
  }

  lemma {:induction false} FallAsleepKeeps(y: System, p: nat, l: nat)
    requires Inv(y) && p < |y.procs| && y.procs[p].pc == GoSleep(l)
    ensures Inv(DoFallAsleep(y, p, LockPark(l), LockChan(l)))
  {
    assert ProcOk(y, p);
    var y' := DoFallAsleep(y, p, LockPark(l), LockChan(l));
    assert Guarded(y, l) && Guarded(y', l);
    assert Local(y, y', p);
    LocalKeeps(y, y', p);
  }

  lemma {:induction false} WaitSleepKeeps(y: System, p: nat)
    requires Inv(y) && p < |y.procs| && y.procs[p].pc == WaitScan && !HasZombie(y, p)
    ensures Inv(DoFallAsleep(y, p, WaitPark, ProcChan(p)))
  {
    assert ProcOk(y, p);
    var y' := DoFallAsleep(y, p, WaitPark, ProcChan(p));
    forall c: nat | IsChild(y', c, p) ensures y'.procs[c].st != Zombie {
      assert IsChild(y, c, p);
    }
    assert Local(y, y', p);
    LocalKeeps(y, y', p);
  }

  lemma {:induction false} SleepOtherKeeps(y: System, p: nat, c: nat)
    requires Inv(y) && p < |y.procs| && y.procs[p].pc == Run && y.table == -1
    ensures Inv(DoFallAsleep(y, p, Park, OtherChan(c)))
  {
    assert ProcOk(y, p);
    var y' := DoFallAsleep(y, p, Park, OtherChan(c));
    assert Local(y, y', p);
    LocalKeeps(y, y', p);
  }

  lemma {:induction false} TidyKeeps(y: System, p: nat, pc: Pc)
    requires Inv(y) && p < |y.procs|
    requires (y.procs[p].pc.Wake? && pc == Reacquire(y.procs[p].pc.l)) || (y.procs[p].pc.Back? && pc == Run)
    ensures Inv(DoTidy(y, p, pc))
  {
    assert ProcOk(y, p);
    var y' := DoTidy(y, p, pc);
    assert Local(y, y', p);
    LocalKeeps(y, y', p);
  }

  lemma {:induction false} ReleaseEnterKeeps(y: System, p: nat, l: nat)
    requires Inv(y) && p < |y.procs| && l < |y.spin| && y.spin[l] == -1
    requires y.procs[p].pc == Run && l in y.procs[p].held
    ensures Inv(DoReleaseEnter(y, p, l))
  {
    assert ProcOk(y, p);
    var y' := DoReleaseEnter(y, p, l);
    assert Local(y, y', p);
    LocalKeeps(y, y', p);
  }

  lemma {:induction false} ClearKeeps(y: System, p: nat, l: nat)
    requires Inv(y) && p < |y.procs| && l < |y.locked| && y.procs[p].pc == Clear(l)
    ensures Inv(DoClear(y, p, l))
  {
    assert ProcOk(y, p);
    var y' := DoClear(y, p, l);
    assert Guarded(y', l);
    assert Local(y, y', p);
    LocalKeeps(y, y', p);
  }

  /** Steps that take ptable.lock and go on at pc. */
  predicate Takes(before: Pc, after: Pc) {
    || (before.ToSleep? && after == DropSpin(before.l))
    || (before.ToWakeup? && after == Wakeup(before.l))
    || (before == Run && (after == WaitScan || after == Exiting))
  }

  lemma {:induction false} TakeTableKeeps(y: System, p: nat, pc: Pc)
    requires Inv(y) && p < |y.procs| && y.table == -1 && Takes(y.procs[p].pc, pc)
    requires pc == Exiting ==> p != y.init
    ensures Inv(DoTakeTable(y, p, pc))
  {
    assert ProcOk(y, p);
    var y' := DoTakeTable(y, p, pc);
    assert pc.DropSpin? ==> Guarded(y, pc.l) && Guarded(y', pc.l);
    assert Local(y, y', p);
    LocalKeeps(y, y', p);
  }

  lemma {:induction false} ReleaseTableKeeps(y: System, p: nat, pc: Pc)
    requires Inv(y) && p < |y.procs|
    requires (y.procs[p].pc.DropTable? && pc == Unlock(y.procs[p].pc.l)) || (y.procs[p].pc.WaitScan? && pc == Run)
    ensures Inv(DoReleaseTable(y, p, pc))
  {
    assert ProcOk(y, p);
    var y' := DoReleaseTable(y, p, pc);
    assert Local(y, y', p);
    LocalKeeps(y, y', p);
  }

  lemma {:induction false} DispatchKeeps(y: System, p: nat)
    requires Inv(y) && p < |y.procs| && y.table == -1 && y.procs[p].st == Runnable
    ensures Inv(DoDispatch(y, p))
  {
    assert ProcOk(y, p);
    var y' := DoDispatch(y, p);
    assert Local(y, y', p);
    LocalKeeps(y, y', p);
  }

  lemma {:induction false} YieldKeeps(y: System, p: nat)
    requires Inv(y) && p < |y.procs| && y.table == -1 && y.procs[p].pc == Run
    ensures Inv(DoYield(y, p))
  {
    assert ProcOk(y, p);
    var y' := DoYield(y, p);
    assert Local(y, y', p);
    LocalKeeps(y, y', p);
  }

  // ---- wakeups ----

  /** Some sleepers have become runnable, and some processes have been marked killed. */
  ghost predicate Roused(y: System, y': System) {
    && |y'.procs| == |y.procs| && y'.(procs := y.procs) == y
    && forall i: nat | i < |y.procs| ::
         && y'.procs[i] == y.procs[i].(st := y'.procs[i].st, killed := y'.procs[i].killed)
         && (y'.procs[i].st == y.procs[i].st || (y.procs[i].st == Sleeping && y'.procs[i].st == Runnable))
  }

  lemma {:induction false} RousedProc(y: System, y': System, p: nat)
    requires Shape(y) && Roused(y, y') && p < |y.procs| && ProcOk(y, p)
    ensures ProcOk(y', p)
  {
    var q, q' := y.procs[p], y'.procs[p];
    assert HeldOk(y', p, q') by {
      forall r: nat, l | r < |y'.procs| && r != p && l in q'.held ensures l !in y'.procs[r].held {
        assert l !in y.procs[r].held;
      }
    }
    assert SleepOk(y', p, q') by {
      assert q.st == q'.st || q'.st == Runnable;
      forall l: nat | WaitsFor(q', l) ensures Guarded(y', l) {
        assert WaitsFor(q, l) && Guarded(y, l);
      }
      forall c: nat | IsChild(y', c, p) ensures y'.procs[c].st == Zombie ==> HasZombie(y, p) {
        assert IsChild(y, c, p);
      }
    }
    assert ForkOk(y', p, q');
  }

  lemma {:induction false} RousedKeeps(y: System, y': System)
    requires Inv(y) && Roused(y, y')
    ensures Inv(y')
  {
    assert Shape(y');
    assert |y'.procs| == |y.procs|;
    hide ProcOk, Roused;
    forall p: nat | p < |y'.procs| ensures ProcOk(y', p) {
      assert ProcOk(y, p);
      RousedProc(y, y', p);
    }
  }

  lemma {:induction false} WokenKeeps(y: System, chan: Chan)
    requires Inv(y)
    ensures Inv(y.(procs := Woken(y.procs, chan)))
  {
    var y' := y.(procs := Woken(y.procs, chan));
    assert Roused(y, y') by { hide Inv; }
    hide ProcOk, Roused, Shape;
    RousedKeeps(y, y');
  }

  lemma {:induction false} KillKeeps(y: System, t: nat)
    requires Inv(y) && t < |y.procs|
    ensures Inv(DoKill(y, t))
  {
    hide Inv;
    RousedKeeps(y, DoKill(y, t));
  }

  /** wakeup1 in releasesleep: whoever was going to sleep on the lock has been woken. */
  lemma {:induction false} WakeAllKeeps(y: System, p: nat, l: nat)
    requires Inv(y) && p < |y.procs| && y.procs[p].pc == Wakeup(l)
    ensures Inv(DoWakeAll(y, p, l))
  {
    var y1 := y.(procs := Woken(y.procs, LockChan(l)));
    WokenKeeps(y, LockChan(l));
    assert ProcOk(y, p) && ProcOk(y1, p);
    assert y1.procs[p] == y.procs[p];
    WakeAllOther(y, p, l);
    WakeAllPc(y1, p, l);
  }

  lemma {:induction false} WakeAllOther(y: System, p: nat, l: nat)
    requires Inv(y) && p < |y.procs| && y.procs[p].pc == Wakeup(l)
    ensures Unawaited(y.(procs := Woken(y.procs, LockChan(l))), p, l)
  {
    var z := Woken(y.procs, LockChan(l));
    assert ProcOk(y, p);
    forall r: nat | r < |y.procs| && r != p ensures !WaitsFor(z[r], l) {
      assert ProcOk(y, r);
      assert WaitsFor(z[r], l) ==> WaitsFor(y.procs[r], l) && Guarded(y, l);
    }
  }

  lemma {:induction false} WakeAllPc(y: System, p: nat, l: nat)
    requires Inv(y) && p < |y.procs| && y.procs[p].pc == Wakeup(l) && Unawaited(y, p, l)
    ensures Inv(At(y, p, y.procs[p].(pc := DropTable(l))))
  {
    assert ProcOk(y, p);
    var y' := At(y, p, y.procs[p].(pc := DropTable(l)));
    assert Local(y, y', p);
    LocalKeeps(y, y', p);
  }

  // ---- steps on another slot ----

  predicate Forks(y: System, r: nat, c: nat) {
    r < |y.procs| && (y.procs[r].pc == Forking(c) || y.procs[r].pc == Forked(c))
  }

  /** Slot c, which no process runs in or is forking into, gets new contents. */
  ghost predicate Refill(y: System, y': System, c: nat)
    requires c < |y.procs|
  {
    && |y'.procs| == |y.procs| && y' == y.(procs := y'.procs) && y'.procs == y.procs[c := y'.procs[c]]
    && y.procs[c].pc == Dead && y'.procs[c].st != Zombie && y'.procs[c].held <= y.procs[c].held
    && (y'.procs[c].pc == Dead || y'.procs[c].pc == Park) && StateOk(y'.procs[c], c)
    && (forall r: nat :: !Forks(y, r, c)) && ParentOk(y', c, y'.procs[c])
  }

  lemma {:induction false} RefillOther(y: System, y': System, c: nat, r: nat)
    requires Shape(y) && c < |y.procs| && Refill(y, y', c) && r < |y.procs| && r != c
    requires ProcOk(y, c) && ProcOk(y, r)
    ensures ProcOk(y', r)
  {
    var q := y.procs[r];
    assert y'.procs[r] == q;
    assert HeldOk(y', r, q) by {
      forall x: nat, l | x < |y'.procs| && x != r && l in q.held ensures l !in y'.procs[x].held {
        assert l !in y.procs[x].held;
      }
    }
    assert SleepOk(y', r, q) by {
      forall l: nat | WaitsFor(q, l) ensures Guarded(y', l) {
        assert Guarded(y, l);
      }
      forall x: nat | IsChild(y', x, r) ensures y'.procs[x].st == Zombie ==> HasZombie(y, r) {
        assert x != c ==> IsChild(y, x, r);
      }
    }
    assert ForkOk(y', r, q) by {
      assert !Forks(y, r, c);
    }
  }

  lemma {:induction false} RefillKeeps(y: System, y': System, c: nat)
    requires Inv(y) && c < |y.procs| && Refill(y, y', c)
    ensures Inv(y')
  {
    assert ProcOk(y, c);
    assert Shape(y');
    assert ProcOk(y', c);
    assert |y'.procs| == |y.procs|;
    hide ProcOk, Refill, Shape;
    forall r: nat | r < |y'.procs| ensures ProcOk(y', r) {
      assert ProcOk(y, r);
      if r != c {
        RefillOther(y, y', c, r);
      }
    }
  }

  function WithPc(y: System, p: nat, pc: Pc): System
    requires p < |y.procs|
  {
    At(y, p, y.procs[p].(pc := pc))
  }

  /** p leaves fork: from then on no process is forking into slot c. */
  lemma {:induction false} ForkEnds(y: System, p: nat, c: nat)
    requires Inv(y) && p < |y.procs| && Forks(y, p, c)
    ensures Inv(WithPc(y, p, Run)) && forall r: nat :: !Forks(WithPc(y, p, Run), r, c)
  {
    assert ProcOk(y, p);
    var y' := WithPc(y, p, Run);
    assert Local(y, y', p);
    LocalKeeps(y, y', p);
  }

  lemma {:induction false} ForkBegins(y: System, p: nat, c: nat, pc: Pc)
    requires Inv(y) && p < |y.procs| && c < |y.procs| && p != c && y.procs[p].pc == Run && y.procs[c].st == Embryo
    requires (pc == Forking(c) && y.procs[c].parent < 0) || (pc == Forked(c) && y.procs[c].parent == p)
    requires forall r: nat :: !Forks(y, r, c)
    ensures Inv(WithPc(y, p, pc))
  {
    ForkBeginsSelf(y, p, c, pc);
    var y' := WithPc(y, p, pc);
    assert Shape(y');
    assert |y'.procs| == |y.procs|;
    hide ProcOk, Forks, Shape;
    forall r: nat | r < |y'.procs| ensures ProcOk(y', r) {
      assert ProcOk(y, r) && !Forks(y, r, c);
      if r != p {
        ForkBeginsOther(y, p, c, pc, r);
      }
    }
  }

  lemma {:induction false} ForkBeginsSelf(y: System, p: nat, c: nat, pc: Pc)
    requires Inv(y) && p < |y.procs| && c < |y.procs| && p != c && y.procs[p].pc == Run && y.procs[c].st == Embryo
    requires (pc == Forking(c) && y.procs[c].parent < 0) || (pc == Forked(c) && y.procs[c].parent == p)
    requires forall r: nat :: !Forks(y, r, c)
    ensures ProcOk(WithPc(y, p, pc), p)
  {
    assert ProcOk(y, p);
    var y' := WithPc(y, p, pc);
    var q := y'.procs[p];
    assert ForkOk(y', p, q) by {
      forall r: nat | r < |y'.procs| && r != p && (y'.procs[r].pc.Forking? || y'.procs[r].pc.Forked?)
        ensures y'.procs[r].pc.c != q.pc.c
      {
        assert !Forks(y, r, c);
      }
    }
    assert SpinOk(y', p, q) && SleepOk(y', p, q) && HeldOk(y', p, q);
  }

  lemma {:induction false} ForkBeginsOther(y: System, p: nat, c: nat, pc: Pc, r: nat)
    requires Shape(y) && p < |y.procs| && y.procs[p].pc == Run && r < |y.procs| && r != p && ProcOk(y, r)
    requires (pc == Forking(c) || pc == Forked(c)) && !Forks(y, r, c)
    ensures ProcOk(WithPc(y, p, pc), r)
  {
    var y' := WithPc(y, p, pc);
    var q := y.procs[r];
    assert HeldOk(y', r, q) by {
      forall x: nat, l | x < |y'.procs| && x != r && l in q.held ensures l !in y'.procs[x].held {
        assert l !in y.procs[x].held;
      }
    }
    assert SleepOk(y', r, q) by {
      forall l: nat | WaitsFor(q, l) ensures Guarded(y', l) {
        assert Guarded(y, l);
      }
      forall x: nat | IsChild(y', x, r) ensures y'.procs[x].st == Zombie ==> HasZombie(y, r) {
        assert IsChild(y, x, r);
      }
    }
    assert ForkOk(y', r, q);
  }

  lemma {:induction false} ForkFailsKeeps(y: System, p: nat, c: nat)
    requires Inv(y) && p < |y.procs| && c < |y.procs| && y.procs[p].pc == Forking(c)
    ensures Inv(DoForkFails(y, p, c))
  {
    assert ProcOk(y, p) && ProcOk(y, c);
    ForkEnds(y, p, c);
    var y1 := WithPc(y, p, Run);
    var y' := DoForkFails(y, p, c);
    assert y'.procs == y1.procs[c := y.procs[c].(st := Unused)];
    assert Refill(y1, y', c) by { hide Inv; }
    hide ProcOk, Refill, Shape, Forks;
    RefillKeeps(y1, y', c);
  }

  lemma {:induction false} ForkRunsKeeps(y: System, p: nat, c: nat)
    requires Inv(y) && p < |y.procs| && c < |y.procs| && y.procs[p].pc == Forked(c)
    ensures Inv(DoForkRuns(y, p, c))
  {
    assert ProcOk(y, p) && ProcOk(y, c);
    ForkEnds(y, p, c);
    var y1 := WithPc(y, p, Run);
    var y' := DoForkRuns(y, p, c);
    assert y'.procs == y1.procs[c := y.procs[c].(st := Runnable, pc := Park)];
    assert Refill(y1, y', c) by { hide Inv; }
    hide ProcOk, Refill, Shape, Forks;
    RefillKeeps(y1, y', c);
  }

  lemma {:induction false} SetParentKeeps(y: System, p: nat, c: nat)
    requires Inv(y) && p < |y.procs| && c < |y.procs| && y.procs[p].pc == Forking(c)
    ensures Inv(DoSetParent(y, p, c))
  {
    assert ProcOk(y, p) && ProcOk(y, c);
    ForkEnds(y, p, c);
    var y1 := WithPc(y, p, Run);
    var y2 := At(y1, c, y.procs[c].(parent := p));
    assert Refill(y1, y2, c) by { hide Inv; }
    assert forall r: nat :: !Forks(y2, r, c) by {
      assert forall r: nat | Forks(y2, r, c) :: Forks(y1, r, c);
    }
    assert WithPc(y2, p, Forked(c)).procs == DoSetParent(y, p, c).procs;
    hide ProcOk, Refill, Shape, Forks;
    RefillKeeps(y1, y2, c);
    ForkBegins(y2, p, c, Forked(c));
  }

  lemma {:induction false} AllocKeeps(y: System, p: nat, c: nat)
    requires Inv(y) && p < |y.procs| && c < |y.procs| && y.procs[p].pc == Run && y.procs[c].st == Unused
    ensures Inv(DoAlloc(y, p, c))
  {
    assert ProcOk(y, p) && ProcOk(y, c);
    forall r: nat ensures !Forks(y, r, c) {
      assert r < |y.procs| ==> ProcOk(y, r);
    }
    var y2 := At(y, c, y.procs[c].(st := Embryo));
    assert Refill(y, y2, c) by { hide Inv; }
    assert forall r: nat :: !Forks(y2, r, c) by {
      assert forall r: nat | Forks(y2, r, c) :: Forks(y, r, c);
    }
    assert WithPc(y2, p, Forking(c)).procs == DoAlloc(y, p, c).procs;
    hide ProcOk, Refill, Shape, Forks;
    RefillKeeps(y, y2, c);
    ForkBegins(y2, p, c, Forking(c));
  }

  lemma {:induction false} ReapKeeps(y: System, p: nat, c: nat)
    requires Inv(y) && p < |y.procs| && c < |y.procs| && y.procs[p].pc == WaitScan && y.procs[c].st == Zombie
    ensures Inv(DoReap(y, p, c))
  {
    assert ProcOk(y, p) && ProcOk(y, c);
    forall r: nat ensures !Forks(y, r, c) {
      assert r < |y.procs| ==> ProcOk(y, r);
    }
    ReleaseTableKeeps(y, p, Run);
    var y1 := DoReleaseTable(y, p, Run);
    var y' := DoReap(y, p, c);
    assert Refill(y1, y', c) by {
      hide Inv;
      assert forall r: nat | Forks(y1, r, c) :: Forks(y, r, c);
    }
    hide ProcOk, Refill, Shape, Forks;
    RefillKeeps(y1, y', c);
  }

  // ---- exit ----

  /** The parent is not asleep in wait. */
  predicate AwakeInWait(y: System, p: int) {
    0 <= p < |y.procs| ==> !(y.procs[p].st == Sleeping && y.procs[p].pc == WaitPark)
  }

  /** exit after the wakeups: children to init, then ZOMBIE. */
  function DoDie(y: System, p: nat): System
    requires p < |y.procs|
  {
    At(y.(procs := Reparented(y.procs, p, y.init)), p, y.procs[p].(st := Zombie, pc := Dead)).(table := -1)
  }

  ghost predicate Dying(y: System, p: nat) {
    && p < |y.procs| && y.procs[p].pc == Exiting && Shape(y) && ProcOk(y, p)
    && AwakeInWait(y, y.procs[p].parent) && (HasZombie(y, p) ==> AwakeInWait(y, y.init))
  }

  lemma {:induction false} DieOtherSleeps(y: System, p: nat, r: nat)
    requires Dying(y, p) && r < |y.procs| && r != p && ProcOk(y, r)
    ensures SleepOk(DoDie(y, p), r, DoDie(y, p).procs[r])
  {
    var y' := DoDie(y, p);
    var q, q' := y.procs[r], y'.procs[r];
    forall l: nat | WaitsFor(q', l) ensures Guarded(y', l) {
      assert WaitsFor(q, l) && Guarded(y, l);
    }
    if q.st == Sleeping && q.pc.WaitPark? {
      DieWaiter(y, p, r);
    }
  }

  lemma {:induction false} DieOther(y: System, p: nat, r: nat)
    requires Dying(y, p) && r < |y.procs| && r != p && ProcOk(y, r)
    ensures ProcOk(DoDie(y, p), r)
  {
    hide SleepOk;
    var y' := DoDie(y, p);
    var q, q' := y.procs[r], y'.procs[r];
    assert p != y.init;
    assert HeldOk(y', r, q') by {
      forall x: nat, l | x < |y'.procs| && x != r && l in q'.held ensures l !in y'.procs[x].held {
        assert l !in y.procs[x].held;
      }
    }
    DieOtherSleeps(y, p, r);
    assert ParentOk(y', r, q') && SpinOk(y', r, q');
    assert ForkOk(y', r, q');
  }

  lemma {:induction false} DieWaiter(y: System, p: nat, r: nat)
    requires Dying(y, p) && r < |y.procs| && r != p && ProcOk(y, r)
    requires y.procs[r].st == Sleeping && y.procs[r].pc.WaitPark?
    ensures !HasZombie(DoDie(y, p), r)
  {
    var y' := DoDie(y, p);
    forall c: nat | IsChild(y', c, r) ensures y'.procs[c].st != Zombie {
      assert c != p ==> IsChild(y, c, r) || (IsChild(y, c, p) && r == y.init);
    }
  }

  lemma {:induction false} DieKeeps(y: System, p: nat)
    requires Inv(y) && Dying(y, p)
    ensures Inv(DoDie(y, p))
  {
    var y' := DoDie(y, p);
    assert Shape(y');
    assert ProcOk(y', p);
    assert |y'.procs| == |y.procs|;
    hide ProcOk, Dying, Shape;
    forall r: nat | r < |y'.procs| ensures ProcOk(y', r) {
      assert ProcOk(y, r);
      if r != p {
        DieOther(y, p, r);
      }
    }
  }

  /** After exit's wakeups the parent, and init if it inherits a zombie, are not asleep in wait. */
  lemma {:induction false} ExitWakes(y: System, p: nat, y1: System)
    requires Inv(y) && p < |y.procs| && y.procs[p].pc == Exiting
    requires Inv(y1) && Roused(y, y1) && y1.procs[p] == y.procs[p]
    requires forall i: nat | i < |y.procs| && y.procs[i].st == Sleeping :: y.procs[i].chan == ProcChan(i) && (i == y.procs[p].parent || (i == y.init && HasZombie(y, p))) ==> y1.procs[i].st != Sleeping
    ensures Dying(y1, p)
  {
    var parent := y.procs[p].parent;
    assert ProcOk(y1, p);
    assert AwakeInWait(y1, parent) by {
      assert 0 <= parent < |y.procs| ==> ProcOk(y, parent);
    }
    if HasZombie(y1, p) {
      var c: nat :| IsChild(y1, c, p) && y1.procs[c].st == Zombie;
      assert IsChild(y, c, p) && y.procs[c].st == Zombie;
      assert ProcOk(y, y.init);
      assert AwakeInWait(y1, y.init);
    }
  }

  /** y with exit's wakeups done. */
  ghost function ExitWoken(y: System, p: nat): System
    requires p < |y.procs|
  {
    var parent := y.procs[p].parent;
    var woken := if parent >= 0 then Woken(y.procs, ProcChan(parent)) else y.procs;
    y.(procs := if HasZombie(y, p) then Woken(woken, ProcChan(y.init)) else woken)
  }

  lemma {:induction false} ExitInParts(y: System, p: nat)
    requires p < |y.procs| && y.procs[p].st == Running && y.procs[p].parent != p
    ensures DoExit(y, p) == DoDie(ExitWoken(y, p), p)
  {
    assert DoExit(y, p).procs == DoDie(ExitWoken(y, p), p).procs;
  }

  lemma {:induction false} ExitKeeps(y: System, p: nat)
    requires Inv(y) && p < |y.procs| && y.procs[p].pc == Exiting
    ensures Inv(DoExit(y, p))
  {
    assert ProcOk(y, p);
    ExitInParts(y, p);
    var y1 := ExitWoken(y, p);
    assert Roused(y, y1) by { hide Inv, ProcOk; }
    assert y1.procs[p] == y.procs[p];
    hide Inv, ProcOk, Roused, Dying;
    RousedKeeps(y, y1);
    ExitWakes(y, p, y1);
    DieKeeps(y1, p);
  }

  // ---- every run ----

  lemma {:induction false} LockStepKeeps(y: System, p: nat, a: Action)
    requires Inv(y) && p < |y.procs| && Enabled(y, p, a)
    requires a.AcquireSpin? || a.TestLocked? || a.TakeTable? || a.ReleaseSpin? || a.FallAsleep? || a.Tidy?
    ensures Inv(Step(y, p, a))
  {
    var pc := y.procs[p].pc;
    assert Inv(y) && |y.spin| == |y.locked|;
    hide Inv;
    match a
    case AcquireSpin(l) => AcquireSpinKeeps(y, p, l);
    case TestLocked =>
      if y.locked[pc.l] {
        TestTakenKeeps(y, p, pc.l);
      } else {
        TestFreeKeeps(y, p, pc.l);
      }
    case TakeTable => TakeTableKeeps(y, p, DropSpin(pc.l));
    case ReleaseSpin => ReleaseSpinKeeps(y, p, pc.l);
    case FallAsleep => FallAsleepKeeps(y, p, pc.l);
    case Tidy => TidyKeeps(y, p, Reacquire(pc.l));
  }

  lemma {:induction false} UnlockStepKeeps(y: System, p: nat, a: Action)
    requires Inv(y) && p < |y.procs| && Enabled(y, p, a)
    requires a.ReleaseEnter? || a.ClearLocked? || a.WakeTable? || a.WakeAll? || a.ReleaseTable? || a.ReleaseDone?
    ensures Inv(Step(y, p, a))
  {
    var pc := y.procs[p].pc;
    hide Inv;
    match a
    case ReleaseEnter(l) => ReleaseEnterKeeps(y, p, l);
    case ClearLocked => ClearKeeps(y, p, pc.l);
    case WakeTable => TakeTableKeeps(y, p, Wakeup(pc.l));
    case WakeAll => WakeAllKeeps(y, p, pc.l);
    case ReleaseTable => ReleaseTableKeeps(y, p, Unlock(pc.l));
    case ReleaseDone => ReleaseDoneKeeps(y, p, pc.l);
  }

  lemma {:induction false} ScheduleStepKeeps(y: System, p: nat, a: Action)
    requires Inv(y) && p < |y.procs| && Enabled(y, p, a)
    requires a.Dispatch? || a.Kill? || a.Yield? || a.SleepOther? || a.WakeOther? || a.Resume?
    ensures Inv(Step(y, p, a))
  {
    hide Inv;
    match a
    case Dispatch => DispatchKeeps(y, p);
    case Kill(t) => KillKeeps(y, t);
    case Yield => YieldKeeps(y, p);
    case SleepOther(c) => SleepOtherKeeps(y, p, c);
    case WakeOther(c) => WokenKeeps(y, OtherChan(c));
    case Resume => TidyKeeps(y, p, Run);
  }

  lemma {:induction false} StepKeeps(y: System, p: nat, a: Action)
    requires Inv(y) && p < |y.procs| && Enabled(y, p, a)
    ensures Inv(Step(y, p, a))
  {
    var pc := y.procs[p].pc;
    hide Inv;
    match a
    case WaitEnter => TakeTableKeeps(y, p, WaitScan);
    case Reap(c) => ReapKeeps(y, p, c);
    case WaitNone => ReleaseTableKeeps(y, p, Run);
    case WaitSleep => WaitSleepKeeps(y, p);
    case ExitEnter => TakeTableKeeps(y, p, Exiting);
    case ExitDone => ExitKeeps(y, p);
    case AllocProc(c) => AllocKeeps(y, p, c);
    case ForkFails => ForkFailsKeeps(y, p, pc.c);
    case SetParent => SetParentKeeps(y, p, pc.c);
    case ForkRuns => ForkRunsKeeps(y, p, pc.c);
    case _ =>
      if a.Dispatch? || a.Kill? || a.Yield? || a.SleepOther? || a.WakeOther? || a.Resume? {
        ScheduleStepKeeps(y, p, a);
      } else if a.ReleaseEnter? || a.ClearLocked? || a.WakeTable? || a.WakeAll? || a.ReleaseTable? || a.ReleaseDone? {
        UnlockStepKeeps(y, p, a);
      } else {
        LockStepKeeps(y, p, a);
      }
  }

  /** The table after userinit: one runnable process, every lock free. */
  ghost predicate Booted(y: System) {
    && y.init < |y.procs| && y.procs[y.init] == Proc(Runnable, -1, NoChan, false, Park, {})
    && (forall p: nat | p < |y.procs| && p != y.init :: y.procs[p] == EMPTY_SLOT)
    && y.table == -1 && |y.spin| == |y.locked|
    && (forall l: nat | l < |y.spin| :: y.spin[l] == -1 && !y.locked[l])
  }

  lemma {:induction false} BootedInv(y: System)
    requires Booted(y)
    ensures Inv(y)
  {
    forall p: nat | p < |y.procs| ensures ProcOk(y, p) {
      assert y.procs[p].held == {};
    }
  }

  ghost predicate Next(y: System, y': System) {
    exists p: nat, a :: p < |y.procs| && Enabled(y, p, a) && y' == Step(y, p, a)
  }

  /** Any process may take any step that it can take, in any order. */
  ghost predicate IsRun(run: seq<System>) {
    && |run| > 0 && Booted(run[0])
    && forall i: nat | i + 1 < |run| :: Next(run[i], run[i + 1])
  }

  lemma {:induction false} NextKeeps(y: System, y': System)
    requires Inv(y) && Next(y, y')
    ensures Inv(y')
  {
    hide Inv, Enabled, Step;
    var p: nat, a :| p < |y.procs| && Enabled(y, p, a) && y' == Step(y, p, a);
    StepKeeps(y, p, a);
  }

  lemma {:induction false} RunKeeps(run: seq<System>, i: nat)
    requires IsRun(run) && i < |run|
    ensures Inv(run[i])
  {
    if i == 0 {
      BootedInv(run[0]);
    } else {
      var j := i - 1;
      assert Next(run[j], run[j + 1]);
      hide Next, Inv, Booted;
      RunKeeps(run, j);
      NextKeeps(run[j], run[i]);
    }
  }

  /** No lost wakeups: with its spin lock free, a sleep lock that somebody sleeps on is
      locked; with ptable.lock free, a parent asleep in wait has no zombie child. */
  lemma {:induction false} NoLostWakeup(run: seq<System>, i: nat, p: nat)
    requires IsRun(run) && i < |run| && p < |run[i].procs| && run[i].procs[p].st == Sleeping
    ensures forall l: nat | run[i].procs[p].chan == LockChan(l) ::
              l < |run[i].locked| == |run[i].spin| && (run[i].spin[l] == -1 ==> run[i].locked[l])
    ensures run[i].procs[p].chan == ProcChan(p) ==> !HasZombie(run[i], p)
  {
    var y := run[i];
    RunKeeps(run, i);
    assert ProcOk(y, p);
    var q := y.procs[p];
    if q.chan.LockChan? {
      assert WaitsFor(q, q.chan.l);
    }
  }

  // ---- nobody is stuck at a lock ----

  /** What a running process waits for at its place in the code: nothing, ptable.lock, or
      the spin lock of a sleep lock. */
  datatype Need = Nothing | NeedsTable | NeedsSpin(l: nat)

  function Needed(pc: Pc): Need {
    match pc
    case Reacquire(l) => NeedsSpin(l)
    case ToSleep(_) => NeedsTable
    case ToWakeup(_) => NeedsTable
    case Forked(_) => NeedsTable
    case Run => NeedsTable
    case _ => Nothing
  }

  predicate Met(y: System, n: Need) {
    match n
    case Nothing => true
    case NeedsTable => y.table == -1
    case NeedsSpin(l) => l < |y.spin| && y.spin[l] == -1
  }

  /** The next step of a running process: from user code any of its own choice. */
  ghost function NextStep(y: System, p: nat): Action
    requires p < |y.procs|
  {
    var q := y.procs[p];
    match q.pc
    case Test(_) => TestLocked
    case ToSleep(_) => TakeTable
    case DropSpin(_) => ReleaseSpin
    case GoSleep(_) => FallAsleep
    case Wake(_) => Tidy
    case Reacquire(l) => AcquireSpin(l)
    case Clear(_) => ClearLocked
    case ToWakeup(_) => WakeTable
    case Wakeup(_) => WakeAll
    case DropTable(_) => ReleaseTable
    case Unlock(_) => ReleaseDone
    case WaitScan =>
      if c: nat :| IsChild(y, c, p) && y.procs[c].st == Zombie then Reap(c)
      else if q.killed || !exists c: nat :: IsChild(y, c, p) then WaitNone
      else WaitSleep
    case Exiting => ExitDone
    case Back => Resume
    case Forking(_) => SetParent
    case Forked(_) => ForkRuns
    case _ => Yield
  }

  /** A running process can take its next step exactly when what it waits for is free. */
  lemma {:induction false} CanStep(y: System, p: nat)
    requires Inv(y) && p < |y.procs| && y.procs[p].st == Running
    ensures Enabled(y, p, NextStep(y, p)) <==> Met(y, Needed(y.procs[p].pc))
  {
    assert ProcOk(y, p);
  }

  /** From user code every call is open to a process once the lock it starts with is free,
      and a runnable process can be dispatched once ptable.lock is. */
  lemma {:induction false} Choices(y: System, p: nat)
    requires Inv(y) && p < |y.procs| && y.procs[p].st == Running && y.procs[p].pc == Run
    ensures forall l: nat :: Enabled(y, p, AcquireSpin(l)) <==> Met(y, NeedsSpin(l))
    ensures forall l | l in y.procs[p].held :: Enabled(y, p, ReleaseEnter(l)) <==> Met(y, NeedsSpin(l))
    ensures forall a: Action | a.WaitEnter? || a.Yield? || a.SleepOther? || (a.ExitEnter? && p != y.init)
                       || (a.Kill? && a.t < |y.procs|) || (a.AllocProc? && a.c < |y.procs| && y.procs[a.c].st == Unused) ::
              Enabled(y, p, a) <==> y.table == -1
  {
    assert ProcOk(y, p);
    hide ProcOk, HasZombie;
  }

  lemma {:induction false} Dispatchable(y: System, p: nat)
    requires Inv(y) && p < |y.procs|
    ensures y.procs[p].st == Runnable ==> (Enabled(y, p, Dispatch) <==> y.table == -1)
    ensures y.procs[p].st == Running && y.procs[p].pc.Forking? ==> Enabled(y, p, ForkFails)
    ensures forall c: nat :: Enabled(y, p, WakeOther(c)) <==> y.table == -1
  {
    assert ProcOk(y, p);
    hide ProcOk, HasZombie;
  }

  /** Whoever holds a spin lock is running; the holder of ptable.lock waits for nothing, and
      the holder of another spin lock for ptable.lock at most. */
  lemma {:induction false} HolderGoesOn(y: System)
    requires Inv(y)
    ensures y.table >= 0 ==> y.procs[y.table].st == Running && Needed(y.procs[y.table].pc).Nothing?
    ensures forall l: nat | l < |y.spin| && y.spin[l] >= 0 ::
              y.procs[y.spin[l]].st == Running && !Needed(y.procs[y.spin[l]].pc).NeedsSpin?
  {
    if y.table >= 0 {
      assert ProcOk(y, y.table);
    }
    forall l: nat | l < |y.spin| && y.spin[l] >= 0
      ensures y.procs[y.spin[l]].st == Running && !Needed(y.procs[y.spin[l]].pc).NeedsSpin?
    {
      assert ProcOk(y, y.spin[l]);
    }
  }

  /** The process that has to move before p can. */
  function Blocker(y: System, p: nat): nat
    requires p < |y.procs|
  {
    match Needed(y.procs[p].pc)
    case Nothing => p
    case NeedsTable => if y.table >= 0 then y.table else p
    case NeedsSpin(l) => if l < |y.spin| && y.spin[l] >= 0 then y.spin[l] else p
  }

  /** No deadlock on spin locks, over every run: a running process can go on, or waits for a
      process that can, or for one that waits for a third that can. */
  lemma {:induction false} NoDeadlock(run: seq<System>, i: nat, p: nat)
    requires IsRun(run) && i < |run| && p < |run[i].procs| && run[i].procs[p].st == Running
    ensures var y := run[i]; var b := Blocker(y, p);
            && b < |y.procs| && y.procs[b].st == Running
            && var c := Blocker(y, b);
            && c < |y.procs| && y.procs[c].st == Running && Enabled(y, c, NextStep(y, c))
  {
    var y := run[i];
    RunKeeps(run, i);
    HolderGoesOn(y);
    assert ProcOk(y, p);
    var b := Blocker(y, p);
    CanStep(y, p);
    CanStep(y, b);
    CanStep(y, Blocker(y, b));
  }

  // ---- what the calls achieve ----

  type Move = (nat, Action)

  /** The moves lead from y to z. */
  ghost predicate Reaches(y: System, moves: seq<Move>, z: System)
    decreases |moves|
  {
    if moves == [] then z == y
    else
      var p, a := moves[0].0, moves[0].1;
      p < |y.procs| && Enabled(y, p, a) && Reaches(Step(y, p, a), moves[1..], z)
  }

  lemma {:induction false} Further(y: System, moves: seq<Move>, z: System, p: nat, a: Action)
    requires Reaches(y, moves, z) && p < |z.procs| && Enabled(z, p, a)
    ensures Reaches(y, moves + [(p, a)], Step(z, p, a))
    decreases |moves|
  {
    if moves == [] {
      assert (moves + [(p, a)])[1..] == [];
    } else {
      assert (moves + [(p, a)])[1..] == moves[1..] + [(p, a)];
      Further(Step(y, moves[0].0, moves[0].1), moves[1..], z, p, a);
    }
  }

  /** The first half of releasesleep: the lock is free, and its spin lock and ptable.lock
      are held. */
  lemma {:induction false} ReleaseBegins(y: System, h: nat, l: nat) returns (moves: seq<Move>, z: System)
    requires h < |y.procs| && l < |y.spin| == |y.locked|
    requires y.table == -1 && y.spin[l] == -1 && y.procs[h].st == Running && y.procs[h].pc == Run && l in y.procs[h].held
    ensures Reaches(y, moves, z)
    ensures z == y.(procs := y.procs[h := y.procs[h].(pc := Wakeup(l), held := y.procs[h].held - {l})],
                    table := h, spin := y.spin[l := h], locked := y.locked[l := false])
  {
    hide Reaches, HasZombie;
    Nowhere(y);
    Further(y, [], y, h, ReleaseEnter(l));
    moves, z := [] + [(h, ReleaseEnter(l))], Step(y, h, ReleaseEnter(l));
    Further(y, moves, z, h, ClearLocked);
    moves, z := moves + [(h, ClearLocked)], Step(z, h, ClearLocked);
    Further(y, moves, z, h, WakeTable);
    moves, z := moves + [(h, WakeTable)], Step(z, h, WakeTable);
  }

  lemma Nowhere(y: System)
    ensures Reaches(y, [], y)
  {
  }

  lemma {:induction false} ReleaseEnds(y: System, h: nat, l: nat) returns (moves: seq<Move>, z: System)
    requires h < |y.procs| && l < |y.spin| && y.procs[h].st == Running && y.procs[h].pc == Wakeup(l)
    ensures Reaches(y, moves, z)
    ensures z == y.(procs := Woken(y.procs, LockChan(l))[h := y.procs[h].(pc := Run)], table := -1, spin := y.spin[l := -1])
  {
    hide Reaches, HasZombie;
    Nowhere(y);
    Further(y, [], y, h, WakeAll);
    moves, z := [] + [(h, WakeAll)], Step(y, h, WakeAll);
    Further(y, moves, z, h, ReleaseTable);
    moves, z := moves + [(h, ReleaseTable)], Step(z, h, ReleaseTable);
    Further(y, moves, z, h, ReleaseDone);
    moves, z := moves + [(h, ReleaseDone)], Step(z, h, ReleaseDone);
  }

  lemma {:induction false} Onwards(x: System, m: seq<Move>, y: System, n: seq<Move>, z: System)
    requires Reaches(x, m, y) && Reaches(y, n, z)
    ensures Reaches(x, m + n, z)
    decreases |m|
  {
    hide Enabled, Step;
    if m == [] {
      assert m + n == n;
    } else {
      assert (m + n)[1..] == m[1..] + n;
      Onwards(Step(x, m[0].0, m[0].1), m[1..], y, n, z);
    }
  }

  /** releasesleep: afterwards the lock is free and everybody asleep on it is runnable. */
  lemma {:induction false} Releases(y: System, h: nat, l: nat) returns (moves: seq<Move>, z: System)
    requires h < |y.procs| && l < |y.spin| == |y.locked|
    requires y.table == -1 && y.spin[l] == -1 && y.procs[h].st == Running && y.procs[h].pc == Run && l in y.procs[h].held
    ensures Reaches(y, moves, z) && |z.procs| == |y.procs|
    ensures z.procs[h] == y.procs[h].(held := y.procs[h].held - {l})
    ensures forall p: nat | p < |y.procs| && p != h :: z.procs[p] ==
              if y.procs[p].st == Sleeping && y.procs[p].chan == LockChan(l) then y.procs[p].(st := Runnable) else y.procs[p]
    ensures z.table == -1 && z.spin == y.spin && z.locked == y.locked[l := false]
  {
    hide Reaches;
    var n, u;
    moves, u := ReleaseBegins(y, h, l);
    n, z := ReleaseEnds(u, h, l);
    Onwards(y, moves, u, n, z);
    moves := moves + n;
  }

  /** A process woken from acquiresleep's sleep, with the lock free, gets the lock. */
  lemma {:induction false} Acquires(y: System, p: nat, l: nat) returns (moves: seq<Move>, z: System)
    requires p < |y.procs| && l < |y.spin| == |y.locked| && !y.locked[l]
    requires y.table == -1 && y.spin[l] == -1 && y.procs[p].st == Runnable && y.procs[p].pc == LockPark(l)
    ensures Reaches(y, moves, z)
    ensures z == y.(procs := y.procs[p := y.procs[p].(st := Running, pc := Run, chan := NoChan, held := y.procs[p].held + {l})],
                    locked := y.locked[l := true])
  {
    hide Reaches, HasZombie;
    Nowhere(y);
    Further(y, [], y, p, Dispatch);
    moves, z := [] + [(p, Dispatch)], Step(y, p, Dispatch);
    Further(y, moves, z, p, Tidy);
    moves, z := moves + [(p, Tidy)], Step(z, p, Tidy);
    Further(y, moves, z, p, AcquireSpin(l));
    moves, z := moves + [(p, AcquireSpin(l))], Step(z, p, AcquireSpin(l));
    Further(y, moves, z, p, TestLocked);
    moves, z := moves + [(p, TestLocked)], Step(z, p, TestLocked);
  }

  /** acquiresleep's way into sleep(). */
  lemma {:induction false} FallsAsleep(y: System, p: nat, l: nat) returns (moves: seq<Move>, z: System)
    requires p < |y.procs| && l < |y.spin| && y.table == -1 && y.procs[p].st == Running && y.procs[p].pc == ToSleep(l)
    ensures Reaches(y, moves, z)
    ensures z == y.(procs := y.procs[p := y.procs[p].(st := Sleeping, pc := LockPark(l), chan := LockChan(l))],
                    spin := y.spin[l := -1])
  {
    hide Reaches, HasZombie;
    Nowhere(y);
    Further(y, [], y, p, TakeTable);
    moves, z := [] + [(p, TakeTable)], Step(y, p, TakeTable);
    Further(y, moves, z, p, ReleaseSpin);
    moves, z := moves + [(p, ReleaseSpin)], Step(z, p, ReleaseSpin);
    Further(y, moves, z, p, FallAsleep);
    moves, z := moves + [(p, FallAsleep)], Step(z, p, FallAsleep);
  }

  /** acquiresleep on a free lock takes it; on a taken one the process falls asleep on it. */
  lemma {:induction false} AcquireTries(y: System, p: nat, l: nat) returns (moves: seq<Move>, z: System)
    requires p < |y.procs| && l < |y.spin| == |y.locked| && y.table == -1 && y.spin[l] == -1
    requires y.procs[p].st == Running && y.procs[p].pc == Run
    ensures Reaches(y, moves, z)
    ensures z == if y.locked[l]
                 then y.(procs := y.procs[p := y.procs[p].(st := Sleeping, pc := LockPark(l), chan := LockChan(l))])
                 else y.(procs := y.procs[p := y.procs[p].(held := y.procs[p].held + {l})], locked := y.locked[l := true])
  {
    hide Reaches, HasZombie;
    Nowhere(y);
    Further(y, [], y, p, AcquireSpin(l));
    moves, z := [] + [(p, AcquireSpin(l))], Step(y, p, AcquireSpin(l));
    Further(y, moves, z, p, TestLocked);
    moves, z := moves + [(p, TestLocked)], Step(z, p, TestLocked);
    if y.locked[l] {
      var u, n := z, moves;
      n, z := FallsAsleep(u, p, l);
      Onwards(y, moves, u, n, z);
      moves := moves + n;
    }
    assert z.spin == y.spin;
  }

  /** A sleep lock changes hands: the holder releases it and a process asleep on it gets it. */
  lemma {:induction false} Handover(y: System, h: nat, p: nat, l: nat) returns (moves: seq<Move>, z: System)
    requires Inv(y) && h < |y.procs| && p < |y.procs| && l < |y.spin| && y.table == -1 && y.spin[l] == -1
    requires y.procs[h].st == Running && y.procs[h].pc == Run && l in y.procs[h].held
    requires y.procs[p].st == Sleeping && y.procs[p].chan == LockChan(l)
    ensures Reaches(y, moves, z) && p < |z.procs| && h < |z.procs|
    ensures l in z.procs[p].held && l !in z.procs[h].held && z.locked == y.locked && z.spin == y.spin && z.table == -1
    ensures z.procs[p].st == Running && z.procs[p].pc == Run && z.procs[p].chan == NoChan
  {
    assert ProcOk(y, p) && ProcOk(y, h);
    hide Reaches, ProcOk, Woken;
    var u, n;
    moves, u := Releases(y, h, l);
    n, z := Acquires(u, p, l);
    Onwards(y, moves, u, n, z);
    moves := moves + n;
  }

  /** exit: the process is a zombie, its children are init's, and a parent asleep in wait
      is runnable. */
  lemma {:induction false} Exits(y: System, c: nat, p: nat) returns (moves: seq<Move>, z: System)
    requires c < |y.procs| && p < |y.procs| && c != p && y.table == -1 && c != y.init
    requires y.procs[c].st == Running && y.procs[c].pc == Run && y.procs[c].parent == p
    requires y.procs[p].st == Sleeping && y.procs[p].chan == ProcChan(p) && y.procs[p].pc == WaitPark
    ensures Reaches(y, moves, z) && |z.procs| == |y.procs| && z.table == -1
    ensures z.procs[c].st == Zombie && z.procs[c].parent == p && z.procs[p].st == Runnable && z.procs[p].pc == WaitPark
    ensures forall r: nat | r < |y.procs| && y.procs[r].parent == c :: r != c ==> z.procs[r].parent == y.init
  {
    hide Reaches, DoExit;
    Nowhere(y);
    Further(y, [], y, c, ExitEnter);
    moves, z := [] + [(c, ExitEnter)], Step(y, c, ExitEnter);
    Further(y, moves, z, c, ExitDone);
    ExitRouses(z, c, p);
    moves, z := moves + [(c, ExitDone)], Step(z, c, ExitDone);
  }

  lemma {:induction false} ExitRouses(y: System, c: nat, p: nat)
    requires c < |y.procs| && p < |y.procs| && c != p && c != y.init && y.procs[c].st == Running
    requires y.procs[c].parent == p && y.procs[p].st == Sleeping && y.procs[p].chan == ProcChan(p)
    ensures var z := DoExit(y, c);
            && |z.procs| == |y.procs| && z.table == -1 && z.procs[c].st == Zombie && z.procs[c].parent == p
            && z.procs[p].st == Runnable && z.procs[p].pc == y.procs[p].pc
            && forall r: nat | r < |y.procs| && y.procs[r].parent == c :: r != c ==> z.procs[r].parent == y.init
  {
  }

  lemma {:induction false} Collects(y: System, c: nat, p: nat) returns (moves: seq<Move>, z: System)
    requires c < |y.procs| && p < |y.procs| && c != p && y.table == -1
    requires y.procs[c].st == Zombie && y.procs[c].parent == p && y.procs[p].st == Runnable && y.procs[p].pc == WaitPark
    ensures Reaches(y, moves, z)
    ensures z == y.(procs := y.procs[p := y.procs[p].(st := Running, pc := Run)][c := EMPTY_SLOT])
  {
    hide Reaches, HasZombie;
    Nowhere(y);
    Further(y, [], y, p, Dispatch);
    moves, z := [] + [(p, Dispatch)], Step(y, p, Dispatch);
    Further(y, moves, z, p, Reap(c));
    moves, z := moves + [(p, Reap(c))], Step(z, p, Reap(c));
  }

  /** exit by a child whose parent sleeps in wait: the parent comes back having freed the
      child's slot, and the child's own children are init's. */
  lemma {:induction false} WaitReaps(y: System, c: nat, p: nat) returns (moves: seq<Move>, z: System)
    requires Inv(y) && c < |y.procs| && p < |y.procs| && y.table == -1 && c != y.init
    requires y.procs[c].st == Running && y.procs[c].pc == Run && y.procs[c].parent == p
    requires y.procs[p].st == Sleeping && y.procs[p].chan == ProcChan(p)
    ensures Reaches(y, moves, z) && |z.procs| == |y.procs| && z.table == -1
    ensures z.procs[c] == EMPTY_SLOT && z.procs[p].st == Running && z.procs[p].pc == Run
    ensures forall r: nat | r < |y.procs| && y.procs[r].parent == c :: r != c && r != p ==> z.procs[r].parent == y.init
  {
    assert ProcOk(y, p) && ProcOk(y, c);
    hide Reaches, Inv, SpinOk, SleepOk, HeldOk, ForkOk;
    var u, n;
    moves, u := Exits(y, c, p);
    n, z := Collects(u, c, p);
    Onwards(y, moves, u, n, z);
    moves := moves + n;
  }

  /** fork: the child runs in the slot that was free, with p as its parent. */
  lemma {:induction false} ForkWorks(y: System, p: nat, c: nat) returns (moves: seq<Move>, z: System)
    requires p < |y.procs| && c < |y.procs| && y.table == -1
    requires y.procs[p].st == Running && y.procs[p].pc == Run && y.procs[c].st == Unused
    ensures Reaches(y, moves, z)
    ensures z == y.(procs := y.procs[c := y.procs[c].(st := Running, pc := Run, parent := p, chan := NoChan)])
  {
    hide Reaches, Enabled, Step;
    moves, z := ForkMakes(y, p, c);
    ComesBack(z, c);
    Further(y, moves, z, c, Dispatch);
    moves, z := moves + [(c, Dispatch)], Step(z, c, Dispatch);
    Further(y, moves, z, c, Resume);
    moves, z := moves + [(c, Resume)], Step(z, c, Resume);
  }

  lemma {:induction false} ForkMakes(y: System, p: nat, c: nat) returns (moves: seq<Move>, z: System)
    requires p < |y.procs| && c < |y.procs| && y.table == -1
    requires y.procs[p].st == Running && y.procs[p].pc == Run && y.procs[c].st == Unused
    ensures Reaches(y, moves, z)
    ensures z == y.(procs := y.procs[c := y.procs[c].(st := Runnable, pc := Park, parent := p)])
  {
    hide Reaches, HasZombie;
    Nowhere(y);
    Further(y, [], y, p, AllocProc(c));
    moves, z := [] + [(p, AllocProc(c))], Step(y, p, AllocProc(c));
    Further(y, moves, z, p, SetParent);
    moves, z := moves + [(p, SetParent)], Step(z, p, SetParent);
    Further(y, moves, z, p, ForkRuns);
    moves, z := moves + [(p, ForkRuns)], Step(z, p, ForkRuns);
  }

  /** kill takes a process out of any sleep and changes nothing else but its mark; so does
      a wakeup on another channel, for all who sleep on it, without the mark. */
  lemma {:induction false} KillAndWake(y: System, p: nat, t: nat, c: nat)
    requires p < |y.procs| && t < |y.procs|
    ensures Enabled(y, p, Kill(t)) ==>
              Step(y, p, Kill(t)) ==
                y.(procs := y.procs[t := y.procs[t].(killed := true,
                                                     st := if y.procs[t].st == Sleeping then Runnable else y.procs[t].st)])
    ensures Enabled(y, p, WakeOther(c)) ==>
              && Step(y, p, WakeOther(c)) == y.(procs := Step(y, p, WakeOther(c)).procs)
              && |Step(y, p, WakeOther(c)).procs| == |y.procs|
              && forall i: nat | i < |y.procs| :: Step(y, p, WakeOther(c)).procs[i] ==
                   if y.procs[i].st == Sleeping && y.procs[i].chan == OtherChan(c)
                   then y.procs[i].(st := Runnable) else y.procs[i]
  {
    hide HasZombie;
  }

  /** A process that sleeps or yields comes back to where it was. */
  lemma {:induction false} ComesBack(y: System, p: nat)
    requires p < |y.procs| && y.table == -1 && y.procs[p].st == Runnable && y.procs[p].pc == Park
    ensures Enabled(y, p, Dispatch) && p < |Step(y, p, Dispatch).procs| && Enabled(Step(y, p, Dispatch), p, Resume)
    ensures Step(Step(y, p, Dispatch), p, Resume) ==
            y.(procs := y.procs[p := y.procs[p].(st := Running, pc := Run, chan := NoChan)])
  {
    hide HasZombie;
  }

  /** A sleep lock has at most one holder, and is locked while it has one. */
  lemma {:induction false} OneHolder(run: seq<System>, i: nat, p: nat, r: nat, l: nat)
    requires IsRun(run) && i < |run| && p < |run[i].procs| && r < |run[i].procs|
    requires l in run[i].procs[p].held && l in run[i].procs[r].held
    ensures p == r && l < |run[i].locked| && run[i].locked[l]
  {
    RunKeeps(run, i);
    assert ProcOk(run[i], p);
  }

  /** A process's parent is a live process: never a zombie, never a freed slot. */
  lemma {:induction false} ParentLives(run: seq<System>, i: nat, p: nat)
    requires IsRun(run) && i < |run| && p < |run[i].procs| && run[i].procs[p].parent >= 0
    ensures run[i].procs[p].parent < |run[i].procs| && run[i].procs[p].st != Unused
    ensures Alive(run[i].procs[run[i].procs[p].parent])
  {
    RunKeeps(run, i);
    assert ProcOk(run[i], p);
  }

  // ---- the loops over the table ----

  ghost predicate ZombieChild(procs: seq<Proc>, p: nat, n: nat) {
    exists c: nat :: c < n <= |procs| && procs[c].parent == p && procs[c].st == Zombie
  }

  /** Entry j of the table, once exit's loop has been through the first i entries. */
  function PassedAt(procs: seq<Proc>, p: nat, init: nat, i: nat, woke: bool, j: nat): Proc
    requires j < |procs|
  {
    var q := if j < i && procs[j].parent == p then procs[j].(parent := init) else procs[j];
    if woke && q.st == Sleeping && q.chan == ProcChan(init) then q.(st := Runnable) else q
  }

  /** Entry j after exit. */
  ghost function ExitedAt(procs: seq<Proc>, p: nat, init: nat, j: nat): Proc
    requires p < |procs| && j < |procs|
  {
    var woken := if procs[p].parent >= 0 then Woken(procs, ProcChan(procs[p].parent)) else procs;
    var q := PassedAt(woken, p, init, |procs|, ZombieChild(procs, p, |procs|), j);
    if j == p then q.(st := Zombie, pc := Dead) else q
  }

  /** The step that the invariant is about is what the loops compute. */
  lemma {:induction false} ExitStep(y: System, p: nat, j: nat)
    requires p < |y.procs| && j < |y.procs|
    ensures |DoExit(y, p).procs| == |y.procs| && DoExit(y, p).procs[j] == ExitedAt(y.procs, p, y.init, j)
  {
    assert HasZombie(y, p) <==> ZombieChild(y.procs, p, |y.procs|) by {
      if HasZombie(y, p) {
        var c: nat :| IsChild(y, c, p) && y.procs[c].st == Zombie;
      }
      if ZombieChild(y.procs, p, |y.procs|) {
        var c: nat :| c < |y.procs| && y.procs[c].parent == p && y.procs[c].st == Zombie;
        assert IsChild(y, c, p);
      }
    }
  }

  class Table {
    const procs: array<Proc>

    constructor (slots: nat)
      ensures fresh(procs) && procs.Length == slots && forall i | 0 <= i < slots :: procs[i] == EMPTY_SLOT
    {
      procs := new Proc[slots](_ => EMPTY_SLOT);
    }

    /** wakeup1: every sleeper on chan, and nobody else. */
    method Wakeup1(chan: Chan)
      modifies procs
      ensures procs[..] == Woken(old(procs[..]), chan)
    {
      for i := 0 to procs.Length
        invariant forall j: nat | j < i :: procs[j] == Woken(old(procs[..]), chan)[j]
        invariant forall j: nat | i <= j < procs.Length :: procs[j] == old(procs[j])
      {
        if procs[i].st == Sleeping && procs[i].chan == chan {
          procs[i] := procs[i].(st := Runnable);
        }
      }
    }

    /** exit's loop: p's children go to init, which is woken at each zombie among them. */
    method PassChildren(p: nat, init: nat)
      requires p < procs.Length && init != p
      modifies procs
      ensures var was, n := old(procs[..]), procs.Length;
              forall j: nat | j < n :: procs[j] == PassedAt(was, p, init, n, ZombieChild(was, p, n), j)
    {
      ghost var was, woke := procs[..], false;
      for i := 0 to procs.Length
        invariant woke <==> ZombieChild(was, p, i)
        invariant forall j: nat | j < procs.Length :: procs[j] == PassedAt(was, p, init, i, woke, j)
      {
        if procs[i].parent == p {
          procs[i] := procs[i].(parent := init);
          assert forall j: nat | j < procs.Length :: procs[j] == PassedAt(was, p, init, i + 1, woke, j);
          if procs[i].st == Zombie {
            Wakeup1(ProcChan(init));
            woke := true;
            assert ZombieChild(was, p, i + 1);
          }
        }
      }
    }

    /** exit's part under ptable.lock. */
    method Exit(p: nat, init: nat)
      requires p < procs.Length && init != p
      modifies procs
      ensures forall j: nat | j < procs.Length :: procs[j] == ExitedAt(old(procs[..]), p, init, j)
    {
      ghost var was := procs[..];
      if procs[p].parent >= 0 {
        Wakeup1(ProcChan(procs[p].parent));
      }
      ghost var woken := procs[..];
      assert ZombieChild(woken, p, |was|) <==> ZombieChild(was, p, |was|);
      PassChildren(p, init);
      procs[p] := procs[p].(st := Zombie, pc := Dead);
    }

    /** wait's scan: the first zombie child is reaped; else whether p has children. */
    method ScanChildren(p: nat) returns (found: int, havekids: bool)
      modifies procs
      ensures found < 0 ==> procs[..] == old(procs[..]) && !ZombieChild(procs[..], p, procs.Length)
      ensures found < 0 ==> (havekids <==> exists c: nat :: c < procs.Length && procs[c].parent == p)
      ensures found >= 0 ==>
                && found < procs.Length && old(procs[found]).parent == p && old(procs[found]).st == Zombie
                && !ZombieChild(old(procs[..]), p, found)
                && procs[..] == old(procs[..])[found := EMPTY_SLOT]
    {
      found, havekids := -1, false;
      for i := 0 to procs.Length
        invariant procs[..] == old(procs[..]) && found == -1 && !ZombieChild(procs[..], p, i)
        invariant havekids <==> exists c: nat :: c < i && procs[c].parent == p
      {
        if procs[i].parent == p {
          havekids := true;
          if procs[i].st == Zombie {
            procs[i] := EMPTY_SLOT;
            return i, true;
          }
        }
      }
    }
  }
}
