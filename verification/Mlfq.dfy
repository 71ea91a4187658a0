/** The multi-level feedback queue scheduler on one CPU: dispatch, slices, demotion,
    aging and the time accounting that waitx reports. */
module Mlfq {
  import opened ProcState

  /** level is cur_q; slice is proc.ticks; dying marks a process that the timer trap
      has sent into exit(), which never returns to user space. */
  datatype Proc = Proc(st: State, level: int, toe: int, slice: int, runs: int,
                       q0: int, q1: int, q2: int, q3: int, q4: int,
                       rtime: int, iotime: int, ctime: int, etime: int, dying: bool)

  /** cur is c->proc: the running process, or the one that ran last, or -1. */
  datatype Sys = Sys(ticks: nat, procs: seq<Proc>, cur: int)

  const SENTINEL: int := 1_000_000_000
  const LEVELS: nat := 5

  function Shift(n: nat): (r: nat)
    ensures r > 0
  {
    if n == 0 then 1 else 2 * Shift(n - 1)
  }

  lemma {:induction false} ShiftBound(n: nat)
    requires n <= 4
    ensures Shift(n) <= 16
  {
  }

  /** ticks is a uint, so the difference is taken modulo 2^32. */
  function Waited(ticks: nat, toe: int): (r: nat) {
    (ticks - toe) % 0x1_0000_0000
  }

  // ---- what each piece of the code does to one process ----

  /** The timer trap's charge to the running process. */
  function Charged(p: Proc): Proc {
    var r := p.(rtime := p.rtime + 1, slice := p.slice - 1);
    if p.level == 0 then r.(q0 := p.q0 + 1)
    else if p.level == 1 then r.(q1 := p.q1 + 1)
    else if p.level == 2 then r.(q2 := p.q2 + 1)
    else if p.level == 3 then r.(q3 := p.q3 + 1)
    else if p.level == 4 then r.(q4 := p.q4 + 1)
    else r
  }

  /** After the switch back to the scheduler. */
  function Demoted(p: Proc): Proc {
    if p.slice != 0 then p
    else if p.st == Zombie then p.(level := -1)
    else if p.level != 4 then p.(level := p.level + 1)
    else p
  }

  function AgedProc(p: Proc, ticks: nat): Proc {
    if p.st == Runnable && p.level + 4 >= 0 && Waited(ticks, p.toe) > Shift(p.level + 4)
    then p.(level := if p.level - 1 < 0 then 0 else p.level - 1, toe := ticks)
    else p
  }

  function WokenProc(p: Proc, ticks: nat): Proc {
    if p.st == Sleeping then p.(toe := ticks, st := Runnable) else p
  }

  function Aged(procs: seq<Proc>, ticks: nat): (r: seq<Proc>)
    ensures |r| == |procs|
    ensures forall i: nat | i < |r| :: r[i] == AgedProc(procs[i], ticks)
  {
    seq(|procs|, i requires 0 <= i < |procs| => AgedProc(procs[i], ticks))
  }

  function Woken(procs: seq<Proc>, chosen: set<nat>, ticks: nat): (r: seq<Proc>)
    ensures |r| == |procs|
    ensures forall i: nat | i < |r| :: r[i] == if i in chosen then WokenProc(procs[i], ticks) else procs[i]
  {
    seq(|procs|, i requires 0 <= i < |procs| => if i in chosen then WokenProc(procs[i], ticks) else procs[i])
  }

  // ---- dispatch ----

  /** What the scan of the queues can find. */
  predicate Eligible(p: Proc) {
    p.st == Runnable && 0 <= p.level < LEVELS && p.toe < SENTINEL
  }

  /** Lexicographic order on (cur_q, toe, table index). */
  predicate Before(p: Proc, i: int, q: Proc, j: int) {
    p.level < q.level || (p.level == q.level && (p.toe < q.toe || (p.toe == q.toe && i <= j)))
  }

  ghost predicate IsBest(procs: seq<Proc>, r: int) {
    && -1 <= r < |procs| && (r >= 0 ==> Eligible(procs[r]))
    && forall j: nat | j < |procs| && Eligible(procs[j]) :: r >= 0 && Before(procs[r], r, procs[j], j)
  }

  lemma {:induction false} BestUnique(procs: seq<Proc>, r: int, s: int)
    requires IsBest(procs, r) && IsBest(procs, s)
    ensures r == s
  {
  }

  function Best(procs: seq<Proc>): (r: int)
    ensures IsBest(procs, r)
  {
    if procs == [] then -1
    else
      var n := |procs| - 1;
      var r := Best(procs[..n]);
      assert forall j: nat | j < n :: procs[j] == procs[..n][j];
      if !Eligible(procs[n]) then r
      else if r >= 0 && Before(procs[r], r, procs[n], n) then r
      else n
  }

  function Dispatched(y: Sys, r: int): Sys {
    if 0 <= r < |y.procs| && y.procs[r].level >= 0 then
      var p := y.procs[r];
      y.(cur := r, procs := y.procs[r := p.(slice := Shift(p.level), st := Running, runs := p.runs + 1)])
    else y
  }

  function Settled(y: Sys): Sys {
    if 0 <= y.cur < |y.procs|
    then y.(procs := Aged(y.procs[y.cur := Demoted(y.procs[y.cur])], y.ticks))
    else y
  }

  /** From the switch back to the next dispatch: ptable.lock is held throughout. */
  function Resched(y: Sys): Sys {
    var z := Settled(y);
    Dispatched(z, Best(z.procs))
  }

  // ---- the machine ----

  /** The sets say which sleepers a wakeup reaches; the channels are in Processes. */
  datatype Action =
    | Tick(woken: set<nat>, dies: bool)
    | Poll
    | Sleep
    | Exit(woken: set<nat>)
    | Wake(woken: set<nat>)
    | Kill(t: nat)
    | Alloc(c: nat)
    | AllocFails(c: nat)
    | ForkRuns(c: nat)
    | Reap(c: nat)

  predicate CpuBusy(y: Sys) {
    0 <= y.cur < |y.procs| && y.procs[y.cur].st == Running
  }

  function With(y: Sys, i: nat, p: Proc): Sys
    requires i < |y.procs|
  {
    y.(procs := y.procs[i := p])
  }

  /** The tick is charged to c->proc, running or asleep. */
  function Counted(y: Sys): (r: seq<Proc>)
    ensures |r| == |y.procs|
    ensures forall i: nat | i < |r| && i != y.cur :: r[i] == y.procs[i]
  {
    if 0 <= y.cur < |y.procs| then
      var p := y.procs[y.cur];
      y.procs[y.cur := if p.st == Running then Charged(p)
                       else if p.st == Sleeping then p.(iotime := p.iotime + 1) else p]
    else y.procs
  }

  /** The timer interrupt up to the wakeup of the sleepers on &ticks. */
  function Timed(y: Sys, woken: set<nat>): Sys {
    y.(ticks := y.ticks + 1, procs := Woken(Counted(y), woken, y.ticks + 1))
  }

  /** The end of the trap: exit for a killed process that was in user space, else
      yield when the slice is used up. */
  function TrapEnd(y: Sys, dies: bool): Sys {
    if !CpuBusy(y) then y
    else
      var p := y.procs[y.cur];
      if dies && !p.dying then With(y, y.cur, p.(dying := true))
      else if p.slice <= 0 then Resched(With(y, y.cur, p.(toe := y.ticks, st := Runnable)))
      else y
  }

  function Fresh(p: Proc, ticks: nat): Proc {
    p.(st := Embryo, level := 0, toe := ticks, runs := 0, q0 := 0, q1 := 0, q2 := 0, q3 := 0, q4 := 0,
       rtime := 0, iotime := 0, ctime := ticks, etime := 0, dying := false)
  }

  predicate Enabled(y: Sys, a: Action) {
    match a
    case Tick(_, _) => true
    case Poll => !CpuBusy(y)
    case Sleep => CpuBusy(y)
    case Exit(_) => CpuBusy(y)
    case Wake(_) => true
    case Kill(t) => CpuBusy(y) && t < |y.procs|
    case Alloc(c) => CpuBusy(y) && c < |y.procs| && y.procs[c].st == Unused
    case AllocFails(c) => CpuBusy(y) && c < |y.procs| && y.procs[c].st == Embryo
    case ForkRuns(c) => CpuBusy(y) && c < |y.procs| && y.procs[c].st == Embryo
    case Reap(c) => CpuBusy(y) && c < |y.procs| && y.procs[c].st == Zombie
  }

  /** The running process goes to sleep, or exits having woken its parent. */
  function Slept(y: Sys): Sys
    requires CpuBusy(y)
  {
    With(y, y.cur, y.procs[y.cur].(st := Sleeping, toe := y.ticks))
  }

  function Died(y: Sys): Sys
    requires CpuBusy(y)
  {
    With(y, y.cur, y.procs[y.cur].(st := Zombie, etime := y.ticks))
  }

  function Exited(y: Sys, woken: set<nat>): Sys
    requires CpuBusy(y)
  {
    var z := y.(procs := Woken(y.procs, woken, y.ticks));
    Died(z)
  }

  function Reaped(p: Proc): Proc {
    p.(st := Unused, etime := 0, ctime := 0, rtime := 0, iotime := 0)
  }

  function Step(y: Sys, a: Action): Sys
    requires Enabled(y, a)
  {
    match a
    case Tick(woken, dies) => TrapEnd(Timed(y, woken), dies)
    case Poll => Dispatched(y, Best(y.procs))
    case Sleep => Resched(Slept(y))
    case Exit(woken) => Resched(Exited(y, woken))
    case Wake(woken) => y.(procs := Woken(y.procs, woken, y.ticks))
    case Kill(t) => With(y, t, y.procs[t].(st := if y.procs[t].st == Sleeping then Runnable else y.procs[t].st))
    case Alloc(c) => With(y, c, Fresh(y.procs[c], y.ticks))
    case AllocFails(c) => With(y, c, y.procs[c].(st := Unused))
    case ForkRuns(c) => With(y, c, y.procs[c].(st := Runnable, toe := y.ticks))
    case Reap(c) => With(y, c, Reaped(y.procs[c]))
  }

  // ---- accounting ----

  /** waitx's wtime. */
  function WaitTime(p: Proc): int {
    p.etime - p.rtime - p.iotime - p.ctime
  }

  predicate Accounted(p: Proc, ticks: nat) {
    && p.q0 + p.q1 + p.q2 + p.q3 + p.q4 == p.rtime
    && 0 <= p.rtime && 0 <= p.iotime && 0 <= p.ctime && 0 <= p.toe <= ticks
    && (if p.st == Zombie then p.etime <= ticks && WaitTime(p) >= 0
        else p.ctime + p.rtime + p.iotime <= ticks && 0 <= p.level < LEVELS)
  }

  /** A slice in progress: 0 left only in a process that the trap sent into exit. */
  predicate SliceOk(p: Proc) {
    p.level >= 0 && 0 <= p.slice <= Shift(p.level) && (p.slice == 0 ==> p.dying)
  }

  predicate ProcOk(p: Proc, ticks: nat) {
    && (p.st != Unused ==> Accounted(p, ticks))
    && (p.st == Running ==> SliceOk(p))
  }

  ghost predicate Inv(y: Sys) {
    && -1 <= y.cur < |y.procs|
    && (forall i: nat | i < |y.procs| :: ProcOk(y.procs[i], y.ticks) && (y.procs[i].st == Running ==> i == y.cur))
  }

  /** Inv, with nobody running: the scheduler itself is. */
  ghost predicate Idle(y: Sys) {
    && -1 <= y.cur < |y.procs|
    && (forall i: nat | i < |y.procs| :: ProcOk(y.procs[i], y.ticks) && y.procs[i].st != Running)
  }

  lemma {:induction false} AgedProcOk(p: Proc, ticks: nat)
    requires ProcOk(p, ticks)
    ensures ProcOk(AgedProc(p, ticks), ticks) && AgedProc(p, ticks).st == p.st
  {
  }

  lemma {:induction false} SettledIdle(y: Sys)
    requires Idle(y)
    ensures Idle(Settled(y)) && |Settled(y).procs| == |y.procs|
  {
    if y.cur >= 0 {
      var d := y.procs[y.cur := Demoted(y.procs[y.cur])];
      assert forall i: nat | i < |d| :: ProcOk(d[i], y.ticks) && d[i].st != Running;
      forall i: nat | i < |d| ensures ProcOk(AgedProc(d[i], y.ticks), y.ticks) && AgedProc(d[i], y.ticks).st != Running {
        AgedProcOk(d[i], y.ticks);
      }
    }
  }

  lemma {:induction false} DispatchedInv(y: Sys)
    requires Idle(y)
    ensures Inv(Dispatched(y, Best(y.procs)))
  {
  }

  /** The scheduler loop keeps the invariant. */
  lemma {:induction false} ReschedInv(y: Sys)
    requires Idle(y)
    ensures Inv(Resched(y))
  {
    SettledIdle(y);
    DispatchedInv(Settled(y));
  }

  lemma {:induction false} WokenOk(procs: seq<Proc>, woken: set<nat>, ticks: nat)
    requires forall i: nat | i < |procs| :: ProcOk(procs[i], ticks)
    ensures forall i: nat | i < |procs| :: ProcOk(Woken(procs, woken, ticks)[i], ticks)
    ensures forall i: nat | i < |procs| :: Woken(procs, woken, ticks)[i].st == Running <==> procs[i].st == Running
    ensures forall i: nat | i < |procs| && procs[i].st == Running :: Woken(procs, woken, ticks)[i] == procs[i]
  {
  }

  /** The charge keeps the books: one tick, to one counter, of one process. */
  lemma {:induction false} ChargedOk(p: Proc, ticks: nat)
    requires Accounted(p, ticks) && p.st == Running
    ensures Accounted(Charged(p), ticks + 1) && Charged(p).st == Running
    ensures Charged(p).slice == p.slice - 1 && Charged(p).level == p.level && Charged(p).dying == p.dying
  {
  }

  lemma {:induction false} TimedOk(y: Sys, woken: set<nat>, i: nat)
    requires Inv(y) && i < |y.procs|
    ensures |Timed(y, woken).procs| == |y.procs|
    ensures i == y.cur && CpuBusy(y) ==> Timed(y, woken).procs[i] == Charged(y.procs[i])
    ensures !(i == y.cur && CpuBusy(y)) ==>
              ProcOk(Timed(y, woken).procs[i], y.ticks + 1) && Timed(y, woken).procs[i].st != Running
  {
    assert ProcOk(y.procs[i], y.ticks);
  }

  lemma {:induction false} TickKeeps(y: Sys, woken: set<nat>, dies: bool)
    requires Inv(y)
    ensures Inv(TrapEnd(Timed(y, woken), dies))
  {
    var z := Timed(y, woken);
    assert |z.procs| == |y.procs|;
    forall i: nat | i < |y.procs| && !(i == y.cur && CpuBusy(y))
      ensures ProcOk(z.procs[i], z.ticks) && z.procs[i].st != Running
    {
      hide ProcOk, Woken;
      TimedOk(y, woken, i);
    }
    if CpuBusy(y) {
      assert ProcOk(y.procs[y.cur], y.ticks);
      TimedOk(y, woken, y.cur);
      hide Timed, Inv;
      ChargedOk(y.procs[y.cur], y.ticks);
      TrapEndKeeps(z, dies);
    }
  }

  lemma {:induction false} TrapEndKeeps(z: Sys, dies: bool)
    requires CpuBusy(z) && Accounted(z.procs[z.cur], z.ticks)
    requires z.procs[z.cur].slice < Shift(z.procs[z.cur].level)
    requires z.procs[z.cur].slice >= 0 || z.procs[z.cur].dying
    requires forall i: nat | i < |z.procs| && i != z.cur :: ProcOk(z.procs[i], z.ticks) && z.procs[i].st != Running
    ensures Inv(TrapEnd(z, dies))
  {
    var p := z.procs[z.cur];
    if p.slice <= 0 && !(dies && !p.dying) {
      ReschedInv(With(z, z.cur, p.(toe := z.ticks, st := Runnable)));
    }
  }

  lemma {:induction false} SleepKeeps(y: Sys)
    requires Inv(y) && CpuBusy(y)
    ensures Inv(Resched(Slept(y)))
  {
    assert ProcOk(y.procs[y.cur], y.ticks);
    var z := Slept(y);
    assert ProcOk(z.procs[y.cur], y.ticks);
    assert Idle(z) by { hide ProcOk; }
    hide Idle, Inv;
    ReschedInv(z);
  }

  lemma {:induction false} DiedKeeps(y: Sys)
    requires Inv(y) && CpuBusy(y)
    ensures Inv(Resched(Died(y)))
  {
    assert ProcOk(y.procs[y.cur], y.ticks);
    var z := Died(y);
    assert ProcOk(z.procs[y.cur], y.ticks);
    assert Idle(z) by { hide ProcOk; }
    hide Idle, Inv;
    ReschedInv(z);
  }

  lemma {:induction false} ExitKeeps(y: Sys, woken: set<nat>)
    requires Inv(y) && CpuBusy(y)
    ensures Inv(Resched(Exited(y, woken)))
  {
    WokenOk(y.procs, woken, y.ticks);
    DiedKeeps(y.(procs := Woken(y.procs, woken, y.ticks)));
  }

  lemma {:induction false} StepKeeps(y: Sys, a: Action)
    requires Inv(y) && Enabled(y, a)
    ensures Inv(Step(y, a))
  {
    match a
    case Tick(woken, dies) => TickKeeps(y, woken, dies);
    case Kill(t) => assert ProcOk(y.procs[t], y.ticks);
    case Alloc(c) =>
    case AllocFails(c) =>
    case ForkRuns(c) => assert ProcOk(y.procs[c], y.ticks);
    case Reap(c) =>
    case Poll => DispatchedInv(y);
    case Sleep => SleepKeeps(y);
    case Exit(woken) => ExitKeeps(y, woken);
    case Wake(woken) => WokenOk(y.procs, woken, y.ticks);
  }

  // ---- every run ----

  /** The state after userinit. */
  ghost predicate Booted(y: Sys) {
    && y.ticks == 0 && y.cur == -1
    && forall i: nat | i < |y.procs| :: y.procs[i].st == Unused || y.procs[i] == Fresh(y.procs[i], 0).(st := Runnable)
  }

  ghost predicate Next(y: Sys, y': Sys) {
    exists a :: Enabled(y, a) && y' == Step(y, a)
  }

  /** A run: any steps in any order, while ticks stays below the sentinel. */
  ghost predicate IsRun(run: seq<Sys>) {
    && (forall i: nat | i + 1 < |run| :: Next(run[i], run[i + 1]))
    && (forall i: nat | i < |run| :: run[i].ticks < SENTINEL)
  }

  lemma {:induction false} RunKeeps(run: seq<Sys>, i: nat)
    requires IsRun(run) && i < |run| && Inv(run[0])
    ensures Inv(run[i])
  {
    if i > 0 {
      var j := i - 1;
      RunKeeps(run, j);
      assert Next(run[j], run[j + 1]);
      var a :| Enabled(run[j], a) && run[i] == Step(run[j], a);
      StepKeeps(run[j], a);
    }
  }

  lemma {:induction false} BootedInv(y: Sys)
    requires Booted(y)
    ensures Inv(y)
  {
  }

  /** In every reachable state: the per-queue ticks add up to rtime, cur_q is a queue
      except in zombies, and waitx's wtime is not negative. */
  lemma {:induction false} Accounting(run: seq<Sys>, i: nat, p: nat)
    requires IsRun(run) && i < |run| && Booted(run[0]) && p < |run[i].procs| && run[i].procs[p].st != Unused
    ensures var q := run[i].procs[p]; q.q0 + q.q1 + q.q2 + q.q3 + q.q4 == q.rtime
    ensures run[i].procs[p].st != Zombie ==> 0 <= run[i].procs[p].level <= 4
    ensures run[i].procs[p].st == Zombie ==> WaitTime(run[i].procs[p]) >= 0
    ensures run[i].procs[p].st == Running ==> p == run[i].cur
  {
    BootedInv(run[0]);
    RunKeeps(run, i);
    assert ProcOk(run[i].procs[p], run[i].ticks);
  }

  /** The dispatched process is the least runnable one by (cur_q, toe, index), among all
      the runnable ones, and the CPU is left idle only when there is none. */
  lemma {:induction false} DispatchLeast(y: Sys, j: nat)
    requires Idle(y) && y.ticks < SENTINEL && j < |y.procs| && y.procs[j].st == Runnable
    ensures Best(y.procs) >= 0 && Before(y.procs[Best(y.procs)], Best(y.procs), y.procs[j], j)
    ensures y.procs[Best(y.procs)].st == Runnable
    ensures CpuBusy(Dispatched(y, Best(y.procs))) && Dispatched(y, Best(y.procs)).cur == Best(y.procs)
    ensures 0 <= y.procs[Best(y.procs)].level <= 4
  {
  }

  // ---- aging ----

  /** Ticks within which a runnable process climbs from level k to level 0: at each
      level the wait that ages it, and one longest slice.  over is the tick by which a
      process being killed can overrun its slice. */
  function Climb(k: int, over: nat): nat {
    if k <= 0 then 0 else Climb(k - 1, over) + Shift(k + 4) + 16 + over
  }

  ghost predicate NobodyDying(y: Sys) {
    forall i: nat | i < |y.procs| :: !y.procs[i].dying
  }

  /** q is runnable, and at level k > 0 its entry time and the end of the current slice
      leave it time to climb by the deadline. */
  ghost predicate OnTrack(y: Sys, q: nat, deadline: int, over: nat) {
    && CpuBusy(y) && q < |y.procs| && y.procs[q].st == Runnable && 0 <= y.procs[q].level
    && (y.procs[q].level > 0 ==>
          && y.procs[q].toe + Climb(y.procs[q].level, over) <= deadline
          && y.ticks + y.procs[y.cur].slice + over + Climb(y.procs[q].level - 1, over) <= deadline)
  }

  /** The switch back at a time that still leaves q on track ages or keeps q. */
  lemma {:induction false} SettledTrack(z: Sys, q: nat, deadline: int, over: nat)
    requires Idle(z) && z.ticks < SENTINEL && 0 <= z.cur && q < |z.procs| && q != z.cur && z.procs[q].st == Runnable
    requires z.procs[q].level > 0 ==> z.procs[q].toe + Climb(z.procs[q].level, over) <= deadline
    requires z.procs[q].level > 0 ==> z.ticks + Climb(z.procs[q].level - 1, over) <= deadline
    ensures Settled(z).procs[q].st == Runnable && Settled(z).procs[q].level >= 0
    ensures Settled(z).procs[q].level > 0 ==>
              && Settled(z).procs[q].toe + Climb(Settled(z).procs[q].level, over) <= deadline
              && z.ticks + 16 + over + Climb(Settled(z).procs[q].level - 1, over) <= deadline
  {
  }

  lemma {:induction false} ReschedTrack(z: Sys, q: nat, deadline: int, over: nat)
    requires Idle(z) && z.ticks < SENTINEL && 0 <= z.cur && q < |z.procs| && q != z.cur && z.procs[q].st == Runnable
    requires z.procs[q].level > 0 ==> z.procs[q].toe + Climb(z.procs[q].level, over) <= deadline
    requires z.procs[q].level > 0 ==> z.ticks + Climb(z.procs[q].level - 1, over) <= deadline
    requires Resched(z).procs[q].st == Runnable
    ensures OnTrack(Resched(z), q, deadline, over)
  {
    SettledTrack(z, q, deadline, over);
    SettledIdle(z);
    var z1 := Settled(z);
    assert z1.ticks == z.ticks;
    hide Settled, Idle, Climb, Demoted, AgedProc;
    DispatchLeast(z1, q);
    ShiftBound(z1.procs[Best(z1.procs)].level);
  }

  lemma {:induction false} TrapEndTrack(z: Sys, q: nat, deadline: int, over: nat, dies: bool)
    requires z.ticks < SENTINEL && OnTrack(z, q, deadline, over) && Ticked(z, over)
    requires q < |TrapEnd(z, dies).procs|
    requires TrapEnd(z, dies).procs[q].st == Runnable
    ensures OnTrack(TrapEnd(z, dies), q, deadline, over)
  {
    hide Climb, Resched;
    var p := z.procs[z.cur];
    if p.slice <= 0 && !(dies && !p.dying) {
      var w := With(z, z.cur, p.(toe := z.ticks, st := Runnable));
      assert Idle(w);
      hide ProcOk, Idle;
      ReschedTrack(w, q, deadline, over);
    }
  }

  /** What TrapEndTrack needs of the state before the end of the trap. */
  ghost predicate Ticked(z: Sys, over: nat) {
    && CpuBusy(z) && Accounted(z.procs[z.cur], z.ticks) && z.procs[z.cur].slice + over >= 0
    && forall i: nat | i < |z.procs| && i != z.cur :: ProcOk(z.procs[i], z.ticks) && z.procs[i].st != Running
  }

  lemma {:induction false} TimedTicked(y: Sys, over: nat, woken: set<nat>)
    requires Inv(y) && CpuBusy(y) && (over == 0 ==> NobodyDying(y))
    ensures Ticked(Timed(y, woken), over)
    ensures Timed(y, woken).procs[y.cur].slice == y.procs[y.cur].slice - 1
  {
    var z := Timed(y, woken);
    var p := y.procs[y.cur];
    assert |z.procs| == |y.procs| && z.cur == y.cur && z.ticks == y.ticks + 1;
    hide Timed;
    assert ProcOk(p, y.ticks);
    TimedOk(y, woken, y.cur);
    ChargedOk(p, y.ticks);
    forall i: nat | i < |z.procs| && i != z.cur ensures ProcOk(z.procs[i], z.ticks) && z.procs[i].st != Running {
      TimedOk(y, woken, i);
    }
  }

  lemma {:induction false} TimedTrack(y: Sys, q: nat, deadline: int, over: nat, woken: set<nat>)
    requires Inv(y) && OnTrack(y, q, deadline, over) && (over == 0 ==> NobodyDying(y))
    ensures OnTrack(Timed(y, woken), q, deadline, over) && Ticked(Timed(y, woken), over)
  {
    hide Accounted, ProcOk, Climb, Charged;
    TimedTicked(y, over, woken);
    assert Timed(y, woken).procs[q] == y.procs[q];
  }

  lemma {:induction false} TickTrack(y: Sys, q: nat, deadline: int, over: nat, woken: set<nat>, dies: bool)
    requires Inv(y) && y.ticks + 1 < SENTINEL && OnTrack(y, q, deadline, over)
    requires q < |TrapEnd(Timed(y, woken), dies).procs| && TrapEnd(Timed(y, woken), dies).procs[q].st == Runnable
    requires over == 0 ==> NobodyDying(y)
    ensures OnTrack(TrapEnd(Timed(y, woken), dies), q, deadline, over)
  {
    hide TrapEnd, Inv, OnTrack, Ticked;
    var z := Timed(y, woken);
    assert z.ticks == y.ticks + 1;
    hide Timed;
    TimedTrack(y, q, deadline, over, woken);
    TrapEndTrack(z, q, deadline, over, dies);
  }

  lemma {:induction false} SleepTrack(y: Sys, q: nat, deadline: int, over: nat)
    requires Inv(y) && y.ticks < SENTINEL && OnTrack(y, q, deadline, over)
    requires q < |Resched(Slept(y)).procs| && Resched(Slept(y)).procs[q].st == Runnable
    ensures OnTrack(Resched(Slept(y)), q, deadline, over)
  {
    hide Resched;
    assert ProcOk(y.procs[y.cur], y.ticks);
    var z := Slept(y);
    assert ProcOk(z.procs[y.cur], y.ticks);
    assert Idle(z) by { hide ProcOk; }
    hide Idle, Inv, ProcOk;
    ReschedTrack(z, q, deadline, over);
  }

  lemma {:induction false} DiedTrack(y: Sys, q: nat, deadline: int, over: nat)
    requires Inv(y) && y.ticks < SENTINEL && OnTrack(y, q, deadline, over)
    requires q < |Resched(Died(y)).procs| && Resched(Died(y)).procs[q].st == Runnable
    ensures OnTrack(Resched(Died(y)), q, deadline, over)
  {
    hide Resched;
    assert ProcOk(y.procs[y.cur], y.ticks);
    var z := Died(y);
    assert ProcOk(z.procs[y.cur], y.ticks);
    assert Idle(z) by { hide ProcOk; }
    hide Idle, Inv, ProcOk;
    ReschedTrack(z, q, deadline, over);
  }

  lemma {:induction false} WakeTrack(y: Sys, q: nat, deadline: int, over: nat, woken: set<nat>)
    requires Inv(y) && OnTrack(y, q, deadline, over)
    ensures Inv(y.(procs := Woken(y.procs, woken, y.ticks)))
    ensures OnTrack(y.(procs := Woken(y.procs, woken, y.ticks)), q, deadline, over)
  {
    hide ProcOk;
    WokenOk(y.procs, woken, y.ticks);
    assert Woken(y.procs, woken, y.ticks)[q] == y.procs[q];
  }

  /** A step on a slot that is neither q's nor the running process's. */
  lemma {:induction false} OtherTrack(y: Sys, q: nat, deadline: int, over: nat, c: nat, p: Proc)
    requires OnTrack(y, q, deadline, over) && c < |y.procs| && c != q && c != y.cur
    ensures OnTrack(With(y, c, p), q, deadline, over)
  {
  }

  lemma {:induction false} StepTrack(y: Sys, q: nat, deadline: int, over: nat, a: Action)
    requires Inv(y) && OnTrack(y, q, deadline, over) && Enabled(y, a) && (over == 0 ==> NobodyDying(y))
    requires Step(y, a).ticks < SENTINEL && y.ticks < SENTINEL
    requires q < |Step(y, a).procs| && Step(y, a).procs[q].st == Runnable
    ensures OnTrack(Step(y, a), q, deadline, over)
  {
    hide Resched, Inv, NobodyDying;
    match a
    case Tick(woken, dies) =>
      TickAdvances(y, woken, dies);
      TickTrack(y, q, deadline, over, woken, dies);
    case Sleep => SleepTrack(y, q, deadline, over);
    case Exit(woken) =>
      WakeTrack(y, q, deadline, over, woken);
      DiedTrack(y.(procs := Woken(y.procs, woken, y.ticks)), q, deadline, over);
    case Wake(woken) => WakeTrack(y, q, deadline, over, woken);
    case Alloc(c) => OtherTrack(y, q, deadline, over, c, Step(y, a).procs[c]);
    case AllocFails(c) => OtherTrack(y, q, deadline, over, c, Step(y, a).procs[c]);
    case ForkRuns(c) => OtherTrack(y, q, deadline, over, c, Step(y, a).procs[c]);
    case Reap(c) => OtherTrack(y, q, deadline, over, c, Step(y, a).procs[c]);
    case _ =>
  }

  lemma {:induction false} TickAdvances(y: Sys, woken: set<nat>, dies: bool)
    ensures TrapEnd(Timed(y, woken), dies).ticks == y.ticks + 1
  {
  }

  lemma {:induction false} RunOnTrack(run: seq<Sys>, i: nat, n: nat, q: nat, deadline: int, over: nat)
    requires IsRun(run) && i <= n < |run| && Inv(run[0]) && OnTrack(run[i], q, deadline, over)
    requires forall m: nat | i <= m <= n :: q < |run[m].procs| && run[m].procs[q].st == Runnable
    requires over == 0 ==> forall m: nat | i <= m <= n :: NobodyDying(run[m])
    ensures OnTrack(run[n], q, deadline, over)
    decreases n
  {
    if i < n {
      var j := n - 1;
      hide Inv, OnTrack, NobodyDying, Enabled, Step;
      RunOnTrack(run, i, j, q, deadline, over);
      RunKeeps(run, j);
      assert Next(run[j], run[j + 1]);
      var a :| Enabled(run[j], a) && run[n] == Step(run[j], a);
      StepTrack(run[j], q, deadline, over, a);
    }
  }

  /** The aging bound: a process that stays runnable and undispatched while the CPU is
      busy is at level 0 within Climb(its level) ticks.  With no process being killed
      the longest slice is 16; otherwise take over to be 1. */
  lemma {:induction false} AgingBound(run: seq<Sys>, i: nat, n: nat, q: nat, over: nat)
    requires IsRun(run) && i <= n < |run| && Booted(run[0]) && CpuBusy(run[i])
    requires forall m: nat | i <= m <= n :: q < |run[m].procs| && run[m].procs[q].st == Runnable
    requires over == 0 ==> forall m: nat | i <= m <= n :: NobodyDying(run[m])
    requires run[n].ticks >= run[i].ticks + Climb(run[i].procs[q].level, over)
    ensures run[n].procs[q].level == 0
  {
    BootedInv(run[0]);
    RunKeeps(run, i);
    RunKeeps(run, n);
    var y := run[i];
    var deadline := y.ticks + Climb(y.procs[q].level, over);
    StartOnTrack(y, q, over);
    hide Inv, NobodyDying;
    RunOnTrack(run, i, n, q, deadline, over);
    ArrivedInTime(run[n], q, deadline, over);
  }

  lemma {:induction false} StartOnTrack(y: Sys, q: nat, over: nat)
    requires Inv(y) && CpuBusy(y) && q < |y.procs| && y.procs[q].st == Runnable
    ensures 0 <= y.procs[q].level && OnTrack(y, q, y.ticks + Climb(y.procs[q].level, over), over)
  {
  }

  lemma {:induction false} ArrivedInTime(y: Sys, q: nat, deadline: int, over: nat)
    requires Inv(y) && OnTrack(y, q, deadline, over) && y.ticks >= deadline
    requires over == 0 ==> NobodyDying(y)
    ensures y.procs[q].level == 0
  {
  }

  // ---- what a step does to one process ----

  predicate Runs(y: Sys, p: nat) {
    CpuBusy(y) && y.cur == p
  }

  /** The step goes through the scheduler: the running process sleeps, exits, or is on its
      last tick and not sent into exit. */
  predicate Switches(y: Sys, a: Action) {
    && CpuBusy(y)
    && match a
       case Tick(_, dies) => y.procs[y.cur].slice <= 1 && !(dies && !y.procs[y.cur].dying)
       case Sleep => true
       case Exit(_) => true
       case _ => false
  }

  function Now(y: Sys, a: Action): nat {
    if a.Tick? then y.ticks + 1 else y.ticks
  }

  /** The running process p has used its whole slice when it leaves the CPU. */
  predicate UsesUp(y: Sys, a: Action, p: nat) {
    Runs(y, p) && Switches(y, a) && y.procs[p].slice == if a.Tick? then 1 else 0
  }

  /** p has waited in its queue for more than 2^(level + 4) ticks. */
  predicate Ages(y: Sys, a: Action, p: nat)
    requires p < |y.procs|
  {
    && Switches(y, a) && y.procs[p].st == Runnable && y.procs[p].level >= 0
    && Waited(Now(y, a), y.procs[p].toe) > Shift(y.procs[p].level + 4)
  }

  /** The step makes p wait in a queue, or go to sleep, from now on. */
  predicate Enters(y: Sys, a: Action, p: nat)
    requires p < |y.procs|
  {
    match a
    case Tick(woken, _) => (Runs(y, p) && Switches(y, a)) || (p in woken && y.procs[p].st == Sleeping)
    case Sleep => Runs(y, p)
    case Exit(woken) => p in woken && y.procs[p].st == Sleeping
    case Wake(woken) => p in woken && y.procs[p].st == Sleeping
    case Alloc(c) => c == p
    case ForkRuns(c) => c == p
    case _ => false
  }

  /** Slot p is given out or taken back. */
  predicate Resets(a: Action, p: nat) {
    (a.Alloc? || a.Reap?) && a.c == p
  }

  /** Ticks charged to queue l. */
  function Queued(p: Proc, l: nat): int {
    if l == 0 then p.q0 else if l == 1 then p.q1 else if l == 2 then p.q2 else if l == 3 then p.q3
    else if l == 4 then p.q4 else 0
  }

  function One(b: bool): nat {
    if b then 1 else 0
  }

  /** What a step adds to the times of p, r being p after it: a tick is run time for the
      running process, in the queue where it is, and sleeping time for the process that
      ran last, if it sleeps; exit stamps the end. */
  ghost predicate Timekept(y: Sys, a: Action, p: nat, r: Proc)
    requires p < |y.procs|
  {
    var q := y.procs[p];
    if Resets(a, p) then
      && r.rtime == 0 && r.iotime == 0 && r.etime == 0
      && (if a.Reap? then r.ctime == 0 else r.ctime == y.ticks && forall l: nat | l < LEVELS :: Queued(r, l) == 0)
    else
      && r.rtime == q.rtime + One(a.Tick? && Runs(y, p))
      && r.iotime == q.iotime + One(a.Tick? && y.cur == p && q.st == Sleeping)
      && (forall l: nat | l < LEVELS :: Queued(r, l) == Queued(q, l) + One(a.Tick? && Runs(y, p) && q.level == l))
      && r.ctime == q.ctime && r.etime == if Runs(y, p) && a.Exit? then y.ticks else q.etime
  }

  /** The step puts p on the CPU. */
  predicate Starts(y: Sys, a: Action, r: Proc) {
    (Switches(y, a) || !CpuBusy(y)) && r.st == Running
  }

  /** The state that a step leaves p in, short of being dispatched. */
  function Moved(y: Sys, a: Action, p: nat): State
    requires p < |y.procs|
  {
    var st := y.procs[p].st;
    match a
    case Tick(woken, _) =>
      if Runs(y, p) && Switches(y, a) then Runnable else if p in woken && st == Sleeping then Runnable else st
    case Sleep => if Runs(y, p) then Sleeping else st
    case Exit(woken) => if Runs(y, p) then Zombie else if p in woken && st == Sleeping then Runnable else st
    case Wake(woken) => if p in woken && st == Sleeping then Runnable else st
    case Kill(t) => if t == p && st == Sleeping then Runnable else st
    case Alloc(c) => if c == p then Embryo else st
    case AllocFails(c) => if c == p then Unused else st
    case ForkRuns(c) => if c == p then Runnable else st
    case Reap(c) => if c == p then Unused else st
    case Poll => st
  }

  /** What a step does to p's place in the queues and on the CPU, r being p after it:
      whoever starts has a slice of 2^level ticks, each tick takes one, and the entry time
      is the time of the last entry or promotion. */
  ghost predicate Placed(y: Sys, a: Action, p: nat, r: Proc)
    requires p < |y.procs|
  {
    var q := y.procs[p];
    && r.level == NewLevel(y, a, p)
    && r.toe == (if Enters(y, a, p) || Ages(y, a, p) then Now(y, a) else q.toe)
    && (Starts(y, a, r) ==> r.level >= 0 && r.slice == Shift(r.level))
    && (!Starts(y, a, r) && r.st == Running ==> Runs(y, p) && r.slice == q.slice - One(a.Tick?))
    && r.runs == (if a.Alloc? && a.c == p then 0 else q.runs + One(Starts(y, a, r)))
    && (if Starts(y, a, r) then Moved(y, a, p) == Runnable else r.st == Moved(y, a, p))
    && r.dying == (if a.Alloc? && a.c == p then false else q.dying || (a.Tick? && a.dies && Runs(y, p)))
  }

  /** One step of the switch: aged or not, dispatched or not. */
  ghost predicate Chosen(q: Proc, r: Proc) {
    r == q || (q.st == Runnable && q.level >= 0 && r == q.(slice := Shift(q.level), st := Running, runs := q.runs + 1))
  }

  lemma {:induction false} ReschedProc(y: Sys, p: nat)
    requires Idle(y) && 0 <= y.cur && p < |y.procs|
    ensures Resched(y).ticks == y.ticks && |Resched(y).procs| == |y.procs|
    ensures var q := y.procs[p]; Chosen(AgedProc(if p == y.cur then Demoted(q) else q, y.ticks), Resched(y).procs[p])
  {
    SettledIdle(y);
    var z := Settled(y);
    assert z.procs[p] == AgedProc(if p == y.cur then Demoted(y.procs[p]) else y.procs[p], y.ticks);
    assert IsBest(z.procs, Best(z.procs));
    hide Settled, AgedProc, Demoted, Best;
  }

  lemma {:induction false} ZeroWait(ticks: nat)
    ensures Waited(ticks, ticks) == 0
  {
  }

  /** The state that the scheduler finds when a step switches. */
  function Left(y: Sys, a: Action): Sys
    requires Switches(y, a)
  {
    match a
    case Tick(woken, _) =>
      var z := Timed(y, woken);
      if 0 <= z.cur < |z.procs| then With(z, z.cur, z.procs[z.cur].(toe := z.ticks, st := Runnable)) else z
    case Sleep => Slept(y)
    case Exit(woken) => Exited(y, woken)
    case _ => y
  }

  lemma {:induction false} TickIdle(y: Sys, woken: set<nat>, dies: bool)
    requires Inv(y) && Switches(y, Tick(woken, dies))
    ensures var l := Left(y, Tick(woken, dies));
            TrapEnd(Timed(y, woken), dies) == Resched(l) && Idle(l) && l.cur == y.cur && |l.procs| == |y.procs|
  {
    hide Resched, Charged, Woken, Timed;
    var z := Timed(y, woken);
    assert z.cur == y.cur && z.ticks == y.ticks + 1 by { TimedShape(y, woken); }
    assert ProcOk(y.procs[y.cur], y.ticks);
    TimedOk(y, woken, y.cur);
    ChargedOk(y.procs[y.cur], y.ticks);
    forall i: nat | i < |y.procs| && i != y.cur ensures ProcOk(z.procs[i], z.ticks) && z.procs[i].st != Running {
      TimedOk(y, woken, i);
    }
  }

  lemma TimedShape(y: Sys, woken: set<nat>)
    ensures Timed(y, woken).cur == y.cur && Timed(y, woken).ticks == y.ticks + 1
  {
  }

  lemma {:induction false} LeftIdle(y: Sys, a: Action)
    requires Inv(y) && Switches(y, a) && !a.Tick?
    ensures Step(y, a) == Resched(Left(y, a)) && Idle(Left(y, a)) && Left(y, a).cur == y.cur
    ensures |Left(y, a).procs| == |y.procs| && Left(y, a).ticks == y.ticks
  {
    hide Resched, Woken;
    assert ProcOk(y.procs[y.cur], y.ticks);
    if a.Exit? {
      WokenOk(y.procs, a.woken, y.ticks);
    }
  }

  /** What the switch finds of p: its level as before, its entry time new if it enters. */
  ghost predicate LeftAs(y: Sys, a: Action, p: nat, q: Proc, r: Proc)
    requires p < |y.procs|
  {
    && r.level == q.level && r.runs == q.runs
    && r.toe == (if Enters(y, a, p) then Now(y, a) else q.toe)
    && r.slice == (if Runs(y, p) && a.Tick? then q.slice - 1 else q.slice)
    && r.st == Moved(y, a, p) && r.dying == q.dying
    && Timekept(y, a, p, r)
  }

  lemma {:induction false} TimedProc(y: Sys, woken: set<nat>, p: nat)
    requires Inv(y) && p < |y.procs|
    ensures |Timed(y, woken).procs| == |y.procs|
    ensures var q := y.procs[p];
            var i := if p == y.cur && q.st == Sleeping then q.(iotime := q.iotime + 1) else q;
            Timed(y, woken).procs[p] ==
              if Runs(y, p) then Charged(q) else if p in woken then WokenProc(i, y.ticks + 1) else i
  {
    hide Charged;
    assert ProcOk(y.procs[p], y.ticks);
    if Runs(y, p) {
      assert Charged(y.procs[p]).st == Running by { ChargedOk(y.procs[p], y.ticks); }
    }
  }

  lemma {:induction false} ChargedTimes(q: Proc)
    ensures var r := Charged(q);
            && r.rtime == q.rtime + 1 && r.slice == q.slice - 1
            && (forall l: nat | l < LEVELS :: Queued(r, l) == Queued(q, l) + One(q.level == l))
            && r == q.(rtime := r.rtime, slice := r.slice, q0 := r.q0, q1 := r.q1, q2 := r.q2, q3 := r.q3, q4 := r.q4)
  {
  }

  lemma {:induction false} TickLeaves(y: Sys, a: Action, p: nat)
    requires Inv(y) && Switches(y, a) && a.Tick? && p < |y.procs| && |Left(y, a).procs| == |y.procs|
    ensures LeftAs(y, a, p, y.procs[p], Left(y, a).procs[p])
  {
    hide Shift, Accounted, SliceOk, Timed, Charged;
    TimedShape(y, a.woken);
    TimedProc(y, a.woken, p);
    TimedProc(y, a.woken, y.cur);
    ChargedTimes(y.procs[p]);
    assert ProcOk(y.procs[p], y.ticks);
  }

  lemma {:induction false} OtherLeaves(y: Sys, a: Action, p: nat)
    requires Inv(y) && Switches(y, a) && !a.Tick? && p < |y.procs| && |Left(y, a).procs| == |y.procs|
    ensures LeftAs(y, a, p, y.procs[p], Left(y, a).procs[p])
  {
    hide Shift, Accounted, SliceOk;
  }

  /** The step of p through the switch. */
  lemma {:induction false} SwitchProc(y: Sys, a: Action, p: nat) returns (r: Proc)
    requires Inv(y) && Enabled(y, a) && Switches(y, a) && p < |y.procs|
    ensures LeftAs(y, a, p, y.procs[p], r) && ProcOk(r, Now(y, a)) && r.st != Running
    ensures Step(y, a).ticks == Now(y, a) && |Step(y, a).procs| == |y.procs|
    ensures Chosen(AgedProc(if p == y.cur then Demoted(r) else r, Now(y, a)), Step(y, a).procs[p])
  {
    hide Inv, Left, Resched, LeftAs, Chosen, AgedProc, Demoted, ProcOk, TrapEnd, Timed, Slept, Exited;
    if a.Tick? {
      TickIdle(y, a.woken, a.dies);
      LeftTicks(y, a);
      TickLeaves(y, a, p);
    } else {
      LeftIdle(y, a);
      OtherLeaves(y, a, p);
    }
    r := Left(y, a).procs[p];
    ReschedProc(Left(y, a), p);
  }

  lemma LeftTicks(y: Sys, a: Action)
    requires Switches(y, a)
    ensures Left(y, a).ticks == Now(y, a)
  {
  }

  function NewLevel(y: Sys, a: Action, p: nat): int
    requires p < |y.procs|
  {
    var k := y.procs[p].level;
    if UsesUp(y, a, p) && a.Exit? then -1
    else if UsesUp(y, a, p) then (if k < 4 then k + 1 else 4)
    else if Ages(y, a, p) then (if k > 0 then k - 1 else 0)
    else if a.Alloc? && a.c == p then 0
    else k
  }

  lemma {:induction false} SwitchPlaces(y: Sys, a: Action, p: nat, r: Proc, s: Proc)
    requires p < |y.procs| && ProcOk(y.procs[p], y.ticks) && Switches(y, a) && Enabled(y, a)
    requires y.procs[p].st == Running ==> p == y.cur
    requires LeftAs(y, a, p, y.procs[p], r) && ProcOk(r, Now(y, a)) && r.st != Running
    requires Chosen(AgedProc(if p == y.cur then Demoted(r) else r, Now(y, a)), s)
    ensures Placed(y, a, p, s) && Timekept(y, a, p, s)
  {
    hide Shift;
    ZeroWait(Now(y, a));
  }

  lemma {:induction false} TickPlaces(y: Sys, a: Action, p: nat)
    requires Inv(y) && a.Tick? && !Switches(y, a) && p < |y.procs|
    ensures |Step(y, a).procs| == |y.procs| && Step(y, a).ticks == y.ticks + 1
    ensures Placed(y, a, p, Step(y, a).procs[p]) && Timekept(y, a, p, Step(y, a).procs[p])
  {
    hide Shift, Accounted, SliceOk, Timed, Charged, Resched;
    TimedShape(y, a.woken);
    TimedProc(y, a.woken, p);
    if y.cur >= 0 {
      TimedProc(y, a.woken, y.cur);
      ChargedTimes(y.procs[y.cur]);
    }
    ChargedTimes(y.procs[p]);
    assert ProcOk(y.procs[p], y.ticks);
  }

  lemma {:induction false} PollPlaces(y: Sys, p: nat)
    requires Inv(y) && !CpuBusy(y) && p < |y.procs|
    ensures |Step(y, Poll).procs| == |y.procs|
    ensures Placed(y, Poll, p, Step(y, Poll).procs[p]) && Timekept(y, Poll, p, Step(y, Poll).procs[p])
  {
    hide Shift, Accounted;
    assert IsBest(y.procs, Best(y.procs));
    hide Best;
  }

  lemma {:induction false} WakePlaces(y: Sys, a: Action, p: nat)
    requires Inv(y) && a.Wake? && p < |y.procs|
    ensures |Step(y, a).procs| == |y.procs|
    ensures Placed(y, a, p, Step(y, a).procs[p]) && Timekept(y, a, p, Step(y, a).procs[p])
  {
    hide Shift, Accounted, Resched, Timed, TrapEnd, Slept, Exited, Best, Dispatched;
  }

  lemma {:induction false} OtherPlaces(y: Sys, a: Action, p: nat)
    requires Inv(y) && Enabled(y, a) && !Switches(y, a) && !a.Tick? && !a.Poll? && !a.Wake? && p < |y.procs|
    ensures |Step(y, a).procs| == |y.procs|
    ensures Placed(y, a, p, Step(y, a).procs[p]) && Timekept(y, a, p, Step(y, a).procs[p])
  {
    hide Shift, Accounted, Resched, Timed, TrapEnd, Slept, Exited, Best, Dispatched, Woken, Ages, UsesUp;
    NoSwitch(y, a, p);
  }

  lemma NoSwitch(y: Sys, a: Action, p: nat)
    requires !Switches(y, a) && p < |y.procs|
    ensures !UsesUp(y, a, p) && !Ages(y, a, p)
  {
  }

  /** cur_q, the entry time, the slice and the times, exactly, over every step: a process
      that leaves the CPU with its slice used up goes down one queue, the last staying the
      last (a zombie leaves the queues); one that has waited too long goes up one; a new
      process starts at the top; and nothing else moves any process. */
  lemma {:induction false} StepPlaces(y: Sys, a: Action, p: nat)
    requires Inv(y) && Enabled(y, a) && p < |y.procs|
    ensures |Step(y, a).procs| == |y.procs|
    ensures Placed(y, a, p, Step(y, a).procs[p]) && Timekept(y, a, p, Step(y, a).procs[p])
  {
    hide Placed, Timekept, Step, LeftAs, ProcOk;
    if Switches(y, a) {
      var r := SwitchProc(y, a, p);
      assert ProcOk(y.procs[p], y.ticks);
      SwitchPlaces(y, a, p, r, Step(y, a).procs[p]);
    } else if a.Tick? {
      TickPlaces(y, a, p);
    } else if a.Poll? {
      PollPlaces(y, p);
    } else if a.Wake? {
      WakePlaces(y, a, p);
    } else {
      OtherPlaces(y, a, p);
    }
  }

  /** The feedback, over every run: a running process with one tick left that is not sent
      into exit is one queue further down after the tick; one that sleeps with ticks left
      keeps its queue; and no step moves a process down otherwise. */
  lemma {:induction false} Demotion(run: seq<Sys>, i: nat, a: Action, p: nat)
    requires i + 1 < |run| && IsRun(run) && Booted(run[0]) && Enabled(run[i], a) && run[i + 1] == Step(run[i], a)
    requires p < |run[i].procs|
    ensures |run[i + 1].procs| == |run[i].procs|
    ensures var q, r := run[i].procs[p], run[i + 1].procs[p];
            && (Runs(run[i], p) && q.slice == 1 && a.Tick? && (!a.dies || q.dying) ==>
                  r.level == if q.level < 4 then q.level + 1 else 4)
            && (Runs(run[i], p) && q.slice > 0 && a.Sleep? ==> r.level == q.level)
            && (r.level > q.level && q.st != Unused ==>
                  && r.level == q.level + 1 && Runs(run[i], p)
                  && ((a.Tick? && q.slice == 1) || (a.Sleep? && q.slice == 0 && q.dying)))
  {
    hide Step, Timekept, Booted;
    BootedInv(run[0]);
    RunKeeps(run, i);
    assert ProcOk(run[i].procs[p], run[i].ticks);
    StepPlaces(run[i], a, p);
  }

  /** The step from y to z is a clock tick. */
  predicate IsTick(y: Sys, z: Sys) {
    z.ticks > y.ticks
  }

  /** Clock ticks between run[i] and run[j] that found p running. */
  ghost function TicksRunning(run: seq<Sys>, i: nat, j: nat, p: nat): nat
    requires i <= j < |run|
    decreases j
  {
    if i == j then 0
    else TicksRunning(run, i, j - 1, p) + One(IsTick(run[j - 1], run[j]) && Runs(run[j - 1], p))
  }

  ghost function TicksInQueue(run: seq<Sys>, i: nat, j: nat, p: nat, l: nat): nat
    requires i <= j < |run|
    decreases j
  {
    if i == j then 0
    else
      var y := run[j - 1];
      TicksInQueue(run, i, j - 1, p, l) + One(IsTick(y, run[j]) && Runs(y, p) && y.procs[p].level == l)
  }

  /** Clock ticks that found p asleep and nothing else dispatched since. */
  ghost function TicksAsleep(run: seq<Sys>, i: nat, j: nat, p: nat): nat
    requires i <= j < |run|
    decreases j
  {
    if i == j then 0
    else
      var y := run[j - 1];
      TicksAsleep(run, i, j - 1, p)
        + One(IsTick(y, run[j]) && y.cur == p && p < |y.procs| && y.procs[p].st == Sleeping)
  }

  lemma {:induction false} TicksAdvance(y: Sys, a: Action)
    requires Inv(y) && Enabled(y, a)
    ensures IsTick(y, Step(y, a)) <==> a.Tick?
  {
  }

  /** waitx's figures over every run: while a process lives, its rtime grows by exactly
      the clock ticks that found it running, q0 to q4 by those that found it running in
      that queue, and iotime by those that found it asleep with the CPU idle since. */
  lemma {:induction false} TimesCount(run: seq<Sys>, i: nat, j: nat, p: nat, l: nat)
    requires i <= j < |run| && IsRun(run) && Booted(run[0]) && l < LEVELS
    requires forall m: nat | i <= m <= j :: p < |run[m].procs| && run[m].procs[p].st != Unused
    ensures var q, r := run[i].procs[p], run[j].procs[p];
            && r.rtime == q.rtime + TicksRunning(run, i, j, p)
            && Queued(r, l) == Queued(q, l) + TicksInQueue(run, i, j, p, l)
            && r.iotime == q.iotime + TicksAsleep(run, i, j, p)
    decreases j
  {
    hide Inv, Next, Booted, Runs, One, IsTick, Queued;
    if i < j {
      TimesCount(run, i, j - 1, p, l);
      var k := j - 1;
      BootedInv(run[0]);
      RunKeeps(run, k);
      assert Next(run[k], run[k + 1]);
      TimeStep(run[k], run[j], p, l);
    }
  }

  lemma {:induction false} TimeStep(y: Sys, z: Sys, p: nat, l: nat)
    requires Inv(y) && Next(y, z) && l < LEVELS
    requires p < |y.procs| && y.procs[p].st != Unused && p < |z.procs| && z.procs[p].st != Unused
    ensures var q, r := y.procs[p], z.procs[p];
            && r.rtime == q.rtime + One(IsTick(y, z) && Runs(y, p))
            && Queued(r, l) == Queued(q, l) + One(IsTick(y, z) && Runs(y, p) && q.level == l)
            && r.iotime == q.iotime + One(IsTick(y, z) && y.cur == p && q.st == Sleeping)
  {
    hide Inv, Enabled, Step, Placed, Queued;
    var a :| Enabled(y, a) && z == Step(y, a);
    StepPlaces(y, a, p);
    TicksAdvance(y, a);
    NoReset(y, a, p);
  }

  lemma {:induction false} NoReset(y: Sys, a: Action, p: nat)
    requires Enabled(y, a) && p < |y.procs| && y.procs[p].st != Unused
    requires p < |Step(y, a).procs| && Step(y, a).procs[p].st != Unused
    ensures !Resets(a, p)
  {
  }

  // ---- the code ----

  class Scheduler {
    var ticks: nat
    var procs: array<Proc>
    var cur: int

    function View(): Sys
      reads this, procs
    {
      Sys(ticks, procs[..], cur)
    }

    /** userinit: slot 0 is runnable, every counter is zero. */
    constructor (slots: nat)
      requires slots > 0
      ensures fresh(procs) && Booted(View()) && procs.Length == slots && procs[0].st == Runnable
    {
      ticks := 0;
      cur := -1;
      var zero := Proc(Unused, 0, 0, 0, 0, 0, 0, 0, 0, 0, 0, 0, 0, 0, false);
      var table := new Proc[slots](_ => zero);
      table[0] := zero.(st := Runnable);
      procs := table;
    }

    /** The first entry with the least toe among the runnable ones of one queue. */
    method ScanQueue(level: nat) returns (r: int)
      requires level < LEVELS
      ensures -1 <= r < procs.Length
      ensures r >= 0 ==> Eligible(procs[r]) && procs[r].level == level
      ensures forall j: nat | j < procs.Length && Eligible(procs[j]) && procs[j].level == level ::
                r >= 0 && Before(procs[r], r, procs[j], j)
    {
      var minToe := SENTINEL;
      r := -1;
      for i := 0 to procs.Length
        invariant -1 <= r < i
        invariant r < 0 ==> minToe == SENTINEL
        invariant r >= 0 ==> Eligible(procs[r]) && procs[r].level == level && minToe == procs[r].toe
        invariant forall j: nat | j < i && Eligible(procs[j]) && procs[j].level == level ::
                    r >= 0 && Before(procs[r], r, procs[j], j)
      {
        if procs[i].st == Runnable && procs[i].level == level && procs[i].toe < minToe {
          minToe := procs[i].toe;
          r := i;
        }
      }
    }

    /** The scheduler's scan, queue by queue. */
    method FindNext() returns (r: int)
      ensures r == Best(procs[..])
    {
      r := -1;
      var level := 0;
      while level < LEVELS && r < 0
        invariant 0 <= level <= LEVELS && -1 <= r < procs.Length
        invariant r < 0 ==> forall j: nat | j < procs.Length && Eligible(procs[j]) :: procs[j].level >= level
        invariant r >= 0 ==> IsBest(procs[..], r)
        decreases LEVELS - level, -r
      {
        r := ScanQueue(level);
        if r < 0 {
          level := level + 1;
        }
      }
      BestUnique(procs[..], r, Best(procs[..]));
    }

    /** The aging pass. */
    method AgeAll()
      modifies procs
      ensures procs[..] == Aged(old(procs[..]), ticks)
    {
      for i := 0 to procs.Length
        invariant forall j: nat | j < i :: procs[j] == AgedProc(old(procs[j]), ticks)
        invariant forall j: nat | i <= j < procs.Length :: procs[j] == old(procs[j])
      {
        var p := procs[i];
        if p.st == Runnable && p.level + 4 >= 0 {
          var maxWait := Shift(p.level + 4);
          if (ticks - p.toe) % 0x1_0000_0000 > maxWait {
            var level := p.level - 1;
            if level < 0 {
              level := 0;
            }
            procs[i] := p.(level := level, toe := ticks);
          }
        }
      }
    }

    /** From the switch back from cur to the switch to the next process, if any. */
    method Reschedule()
      requires 0 <= cur < procs.Length
      modifies this`cur, procs
      ensures View() == Resched(old(View()))
    {
      var p := procs[cur];
      if p.slice == 0 {
        if p.st == Zombie {
          procs[cur] := p.(level := -1);
        } else if p.level != 4 {
          procs[cur] := p.(level := p.level + 1);
        }
      }
      assert procs[..] == old(procs[..])[cur := Demoted(p)];
      AgeAll();
      assert View() == Settled(old(View()));
      Dispatch();
    }

    /** Scan and switch. */
    method Dispatch()
      modifies this`cur, procs
      ensures View() == Dispatched(old(View()), Best(old(procs[..])))
    {
      var r := FindNext();
      if r >= 0 {
        var p := procs[r];
        cur := r;
        procs[r] := p.(slice := Shift(p.level), st := Running, runs := p.runs + 1);
      }
    }

    /** wakeup1, on the sleepers whose channel is the one woken. */
    method Wakeup1(chosen: set<nat>)
      modifies procs
      ensures procs[..] == Woken(old(procs[..]), chosen, ticks)
    {
      for i := 0 to procs.Length
        invariant forall j: nat | j < i :: procs[j] == if j in chosen then WokenProc(old(procs[j]), ticks) else old(procs[j])
        invariant forall j: nat | i <= j < procs.Length :: procs[j] == old(procs[j])
      {
        if procs[i].st == Sleeping && i in chosen {
          procs[i] := procs[i].(toe := ticks, st := Runnable);
        }
      }
    }

    /** The charge to c->proc: a tick of its run time, of its slice and of its queue. */
    method Charge()
      requires -1 <= cur < procs.Length
      modifies procs
      ensures procs[..] == Counted(old(View()))
    {
      if cur >= 0 {
        var p := procs[cur];
        if p.st == Running {
          p := p.(rtime := p.rtime + 1);
          p := p.(slice := p.slice - 1);
          if p.level == 0 {
            p := p.(q0 := p.q0 + 1);
          } else if p.level == 1 {
            p := p.(q1 := p.q1 + 1);
          } else if p.level == 2 {
            p := p.(q2 := p.q2 + 1);
          } else if p.level == 3 {
            p := p.(q3 := p.q3 + 1);
          } else if p.level == 4 {
            p := p.(q4 := p.q4 + 1);
          }
        } else if p.st == Sleeping {
          p := p.(iotime := p.iotime + 1);
        }
        procs[cur] := p;
      }
    }

    /** The clock tick: ticks, the charge, and wakeup(&ticks). */
    method CountTick(chosen: set<nat>)
      requires -1 <= cur < procs.Length
      modifies this`ticks, procs
      ensures View() == Timed(old(View()), chosen)
    {
      hide Charged, WokenProc;
      ticks := ticks + 1;
      assert Counted(View()) == Counted(old(View()));
      hide Counted;
      Charge();
      Wakeup1(chosen);
    }

    /** The timer interrupt; dies says that it caught a killed process in user space. */
    method TimerTrap(chosen: set<nat>, dies: bool)
      requires -1 <= cur < procs.Length
      modifies this`cur, this`ticks, procs
      ensures View() == TrapEnd(Timed(old(View()), chosen), dies)
    {
      CountTick(chosen);
      ghost var z := View();
      hide Timed, Resched;
      if cur >= 0 && procs[cur].st == Running {
        var p := procs[cur];
        if dies && !p.dying {
          procs[cur] := p.(dying := true);
          assert View() == With(z, cur, p.(dying := true));
        } else if p.slice <= 0 {
          procs[cur] := p.(toe := ticks, st := Runnable);
          assert View() == With(z, cur, p.(toe := ticks, st := Runnable));
          Reschedule();
        }
      }
    }
  }
}
