/** The vaccination zones of Assignment 4: zone threads open slots, student
    threads take them, and each critical section is one step of the run. */
module Zones {

  const SLOTS_MAX: nat := 8

  /** A zone between two critical sections: without vaccines, about to announce
      slots, open for registration, or vaccinating the students it collected. */
  datatype ZonePc = NeedBatch | MakeSlots | Open | Vaccinating(todo: seq<nat>)

  /** students is the set of ids whose registration flag is set; received and given
      count the doses a zone has got and used. */
  datatype Zone = Zone(pc: ZonePc, vaccines: nat, slots: nat, students: set<nat>, received: nat, given: nat)

  datatype StudentPc = Away | Waiting | Registered

  /** zone is what getRegistered returned; registrations and doses count rounds. */
  datatype Student = Student(pc: StudentPc, vaccinated: bool, zone: nat, registrations: nat, doses: nat)

  datatype System = System(zones: seq<Zone>, students: seq<Student>, waiting: int)

  datatype Action =
    | GetBatch(z: nat, count: nat)
    | OpenSlots(z: nat, seen: int)
    | Collect(z: nat, order: seq<nat>)
    | Vaccinate(z: nat)
    | Arrive(s: nat)
    | Register(s: nat, z: nat)
    | Leave(s: nat)

  function Min(a: int, b: int): int {
    if a < b then a else b
  }

  /** min(8, min(waitingStudents, vaccines)); `seen` is the unlocked read of
      waitingStudents, so it may be any value. */
  function NewSlots(seen: int, vaccines: nat): int {
    Min(SLOTS_MAX, Min(seen, vaccines))
  }

  /** order lists the ids of a set of registered students, each once. */
  ghost predicate Lists(order: seq<nat>, ids: set<nat>) {
    (forall i, j | 0 <= i < j < |order| :: order[i] != order[j]) && (forall s :: s in ids <==> s in order)
  }

  ghost predicate Enabled(y: System, a: Action) {
    match a
    case GetBatch(z, count) => z < |y.zones| && y.zones[z].pc.NeedBatch? && count > 0
    case OpenSlots(z, seen) =>
      z < |y.zones| && y.zones[z].pc.MakeSlots? && NewSlots(seen, y.zones[z].vaccines) > 0
    case Collect(z, order) => z < |y.zones| && y.zones[z].pc.Open? && Lists(order, y.zones[z].students)
    case Vaccinate(z) =>
      && z < |y.zones| && y.zones[z].pc.Vaccinating? && y.zones[z].pc.todo != []
      && y.zones[z].pc.todo[0] < |y.students| && y.zones[z].vaccines > 0
    case Arrive(s) => s < |y.students| && y.students[s].pc.Away?
    case Register(s, z) =>
      s < |y.students| && z < |y.zones| && y.students[s].pc.Waiting? && y.zones[z].slots > 0
    case Leave(s) => s < |y.students| && y.students[s].pc.Registered? && y.students[s].vaccinated
  }

  ghost function Step(y: System, a: Action): System
    requires Enabled(y, a)
  {
    match a
    case GetBatch(z, count) =>
      var q := y.zones[z];
      y.(zones := y.zones[z := q.(pc := MakeSlots, vaccines := count, received := q.received + count)])
    case OpenSlots(z, seen) =>
      var q := y.zones[z];
      y.(zones := y.zones[z := q.(pc := Open, slots := NewSlots(seen, q.vaccines))])
    case Collect(z, order) =>
      var q := y.zones[z];
      y.(zones := y.zones[z := q.(pc := if order == [] then MakeSlots else Vaccinating(order),
                                  slots := 0, students := {})])
    case Vaccinate(z) =>
      var q := y.zones[z];
      var s := q.pc.todo[0];
      var rest := q.pc.todo[1..];
      var p := y.students[s];
      y.(zones := y.zones[z := q.(pc := if rest != [] then Vaccinating(rest)
                                        else if q.vaccines == 1 then NeedBatch else MakeSlots,
                                  vaccines := q.vaccines - 1, given := q.given + 1)],
         students := y.students[s := p.(vaccinated := true, doses := p.doses + 1)])
    case Arrive(s) =>
      y.(students := y.students[s := y.students[s].(pc := Waiting)], waiting := y.waiting + 1)
    case Register(s, z) =>
      var q, p := y.zones[z], y.students[s];
      y.(zones := y.zones[z := q.(slots := q.slots - 1, students := q.students + {s})],
         students := y.students[s := p.(pc := Registered, zone := z, registrations := p.registrations + 1)],
         waiting := y.waiting - 1)
    case Leave(s) =>
      y.(students := y.students[s := y.students[s].(pc := Away, vaccinated := false)])
  }

  // ---- the invariant ----

  ghost predicate Holds(q: Zone, s: nat) {
    s in q.students || (q.pc.Vaccinating? && s in q.pc.todo)
  }

  /** Registered students and open slots never exceed the vaccines left. */
  ghost predicate ZoneOk(q: Zone) {
    && q.received == q.given + q.vaccines
    && match q.pc
       case NeedBatch => q.vaccines == 0 && q.slots == 0 && q.students == {}
       case MakeSlots => q.vaccines > 0 && q.slots == 0 && q.students == {}
       case Open => 0 < q.vaccines && |q.students| + q.slots <= q.vaccines && |q.students| + q.slots <= SLOTS_MAX
       case Vaccinating(todo) =>
         && q.slots == 0 && q.students == {} && 0 < |todo| <= q.vaccines
         && forall i, j | 0 <= i < j < |todo| :: todo[i] != todo[j]
  }

  /** A registered student who has not had the dose yet is held by one zone, the
      one the registration returned, and every other student by none. */
  ghost predicate StudentOk(y: System, s: nat)
    requires s < |y.students|
  {
    var p := y.students[s];
    && (p.vaccinated ==> p.pc.Registered?)
    && p.registrations == p.doses + (if Owed(p) then 1 else 0)
    && (Owed(p) ==> p.zone < |y.zones| && Holds(y.zones[p.zone], s))
  }

  predicate Owed(p: Student) {
    p.pc.Registered? && !p.vaccinated
  }

  ghost predicate HeldOnce(y: System, z: nat, s: nat)
    requires z < |y.zones|
  {
    Holds(y.zones[z], s) ==> s < |y.students| && Owed(y.students[s]) && y.students[s].zone == z
  }

  function WaitingCount(students: seq<Student>): nat {
    if students == [] then 0
    else WaitingCount(students[..|students| - 1]) + (if students[|students| - 1].pc.Waiting? then 1 else 0)
  }

  ghost predicate Inv(y: System) {
    && (forall z: nat | z < |y.zones| :: ZoneOk(y.zones[z]))
    && (forall s: nat | s < |y.students| :: StudentOk(y, s))
    && (forall z: nat, s: nat | z < |y.zones| :: HeldOnce(y, z, s))
    && y.waiting == WaitingCount(y.students)
  }

  lemma {:induction false} WaitingUpdate(students: seq<Student>, s: nat, p: Student)
    requires s < |students|
    ensures WaitingCount(students[s := p]) == WaitingCount(students)
            - (if students[s].pc.Waiting? then 1 else 0) + (if p.pc.Waiting? then 1 else 0)
  {
    var n := |students| - 1;
    if s == n {
      assert students[s := p][..n] == students[..n];
    } else {
      WaitingUpdate(students[..n], s, p);
      assert students[s := p][..n] == students[..n][s := p];
    }
  }

  lemma {:induction false} ListLength(order: seq<nat>, ids: set<nat>)
    requires Lists(order, ids)
    ensures |order| == |ids|
  {
    if order == [] {
      assert ids == {};
    } else {
      var n := |order| - 1;
      var ids' := ids - {order[n]};
      assert order == order[..n] + [order[n]];
      ListLength(order[..n], ids');
    }
  }

  // ---- every step keeps it ----

  lemma {:induction false} BatchKeeps(y: System, z: nat, count: nat)
    requires Inv(y) && Enabled(y, GetBatch(z, count))
    ensures Inv(Step(y, GetBatch(z, count)))
  {
    ZoneStepKeeps(y, Step(y, GetBatch(z, count)), z);
  }

  /** A step that changes one zone without changing whom it holds. */
  lemma {:induction false} ZoneStepKeeps(y: System, y': System, z: nat)
    requires Inv(y) && z < |y.zones| && |y'.zones| == |y.zones|
    requires y' == y.(zones := y.zones[z := y'.zones[z]]) && ZoneOk(y'.zones[z])
    requires forall s: nat :: Holds(y'.zones[z], s) <==> Holds(y.zones[z], s)
    ensures Inv(y')
  {
    forall s: nat | s < |y'.students| ensures StudentOk(y', s) {
      assert StudentOk(y, s);
    }
    forall x: nat, s: nat | x < |y'.zones| ensures HeldOnce(y', x, s) {
      assert HeldOnce(y, x, s);
    }
  }

  /** The source's assert(vaccines >= studentCount) cannot fail. */
  lemma {:induction false} CollectKeeps(y: System, z: nat, order: seq<nat>)
    requires Inv(y) && Enabled(y, Collect(z, order))
    ensures |order| <= y.zones[z].vaccines
    ensures Inv(Step(y, Collect(z, order)))
  {
    assert ZoneOk(y.zones[z]);
    ListLength(order, y.zones[z].students);
    ZoneStepKeeps(y, Step(y, Collect(z, order)), z);
  }

  lemma {:induction false} OpenKeeps(y: System, z: nat, seen: int)
    requires Inv(y) && Enabled(y, OpenSlots(z, seen))
    ensures Inv(Step(y, OpenSlots(z, seen)))
  {
    assert ZoneOk(y.zones[z]);
    ZoneStepKeeps(y, Step(y, OpenSlots(z, seen)), z);
  }

  /** The vaccination loop of a zone never lacks a dose or a student for its next turn. */
  lemma {:induction false} VaccinateReady(y: System, z: nat)
    requires Inv(y) && z < |y.zones| && y.zones[z].pc.Vaccinating?
    ensures Enabled(y, Vaccinate(z)) && Owed(y.students[y.zones[z].pc.todo[0]])
  {
    var q := y.zones[z];
    assert ZoneOk(q) && HeldOnce(y, z, q.pc.todo[0]);
  }

  lemma {:induction false} VaccinateKeeps(y: System, z: nat)
    requires Inv(y) && Enabled(y, Vaccinate(z))
    ensures Inv(Step(y, Vaccinate(z)))
  {
    var y' := Step(y, Vaccinate(z));
    var q := y.zones[z];
    var s := q.pc.todo[0];
    assert ZoneOk(q) && HeldOnce(y, z, s) && StudentOk(y, s);
    WaitingUpdate(y.students, s, y'.students[s]);
    forall t: nat ensures Holds(y'.zones[z], t) <==> Holds(q, t) && t != s {
      assert q.pc.todo == [s] + q.pc.todo[1..];
    }
    forall t: nat | t < |y'.students| ensures StudentOk(y', t) {
      assert StudentOk(y, t);
    }
    forall x: nat, t: nat | x < |y'.zones| ensures HeldOnce(y', x, t) {
      assert HeldOnce(y, x, t);
    }
  }

  lemma {:induction false} RegisterKeeps(y: System, s: nat, z: nat)
    requires Inv(y) && Enabled(y, Register(s, z))
    ensures Inv(Step(y, Register(s, z)))
  {
    var y' := Step(y, Register(s, z));
    assert ZoneOk(y.zones[z]) && StudentOk(y, s);
    WaitingUpdate(y.students, s, y'.students[s]);
    forall t: nat | t < |y'.students| ensures StudentOk(y', t) {
      assert StudentOk(y, t);
    }
    forall x: nat, t: nat | x < |y'.zones| ensures HeldOnce(y', x, t) {
      assert HeldOnce(y, x, t);
    }
  }

  /** A student who changes place without being held anywhere. */
  lemma {:induction false} StudentStepKeeps(y: System, y': System, s: nat)
    requires Inv(y) && s < |y.students| && |y'.students| == |y.students|
    requires y' == y.(students := y.students[s := y'.students[s]], waiting := y'.waiting)
    requires !Owed(y.students[s]) && !Owed(y'.students[s]) && !y'.students[s].vaccinated
    requires y'.students[s].registrations == y.students[s].registrations && y'.students[s].doses == y.students[s].doses
    requires y'.waiting == y.waiting - (if y.students[s].pc.Waiting? then 1 else 0) + (if y'.students[s].pc.Waiting? then 1 else 0)
    ensures Inv(y')
  {
    assert StudentOk(y, s);
    WaitingUpdate(y.students, s, y'.students[s]);
    forall t: nat | t < |y'.students| ensures StudentOk(y', t) {
      assert StudentOk(y, t);
    }
    forall x: nat, t: nat | x < |y'.zones| ensures HeldOnce(y', x, t) {
      assert HeldOnce(y, x, t);
    }
  }

  lemma {:induction false} StepKeeps(y: System, a: Action)
    requires Inv(y) && Enabled(y, a)
    ensures Inv(Step(y, a))
  {
    match a
    case GetBatch(z, count) => BatchKeeps(y, z, count);
    case OpenSlots(z, seen) => OpenKeeps(y, z, seen);
    case Collect(z, order) => CollectKeeps(y, z, order);
    case Vaccinate(z) => VaccinateKeeps(y, z);
    case Arrive(s) =>
      assert StudentOk(y, s);
      StudentStepKeeps(y, Step(y, a), s);
    case Register(s, z) => RegisterKeeps(y, s, z);
    case Leave(s) => StudentStepKeeps(y, Step(y, a), s);
  }

  // ---- whole runs ----

  ghost predicate CanRun(y: System, acts: seq<Action>)
    decreases |acts|
  {
    acts == [] || (Enabled(y, acts[0]) && CanRun(Step(y, acts[0]), acts[1..]))
  }

  ghost function Run(y: System, acts: seq<Action>): System
    requires CanRun(y, acts)
    decreases |acts|
  {
    if acts == [] then y else Run(Step(y, acts[0]), acts[1..])
  }

  lemma {:induction false} RunKeeps(y: System, acts: seq<Action>)
    requires Inv(y) && CanRun(y, acts)
    ensures Inv(Run(y, acts))
    decreases |acts|
  {
    if acts != [] {
      StepKeeps(y, acts[0]);
      RunKeeps(Step(y, acts[0]), acts[1..]);
    }
  }

  /** main's initial state, with the registration flags zeroed. */
  function Start(zones: nat, students: nat): System {
    System(seq(zones, _ => Zone(NeedBatch, 0, 0, {}, 0, 0)), seq(students, _ => Student(Away, false, 0, 0, 0)), 0)
  }

  lemma {:induction false} NobodyWaits(n: nat)
    ensures WaitingCount(Start(0, n).students) == 0
  {
    if n > 0 {
      NobodyWaits(n - 1);
      assert Start(0, n).students[..n - 1] == Start(0, n - 1).students;
    }
  }

  /** What a zone and a student may rely on at any moment. */
  ghost predicate Fair(y: System) {
    && (forall z: nat | z < |y.zones| :: |y.zones[z].students| + y.zones[z].slots <= y.zones[z].vaccines)
    && (forall z: nat | z < |y.zones| :: y.zones[z].received == y.zones[z].given + y.zones[z].vaccines)
    && (forall z: nat, x: nat, s: nat | z < |y.zones| && x < |y.zones| && Holds(y.zones[z], s) && Holds(y.zones[x], s) :: z == x)
    && (forall s: nat | s < |y.students| :: Accounted(y, y.students[s], s))
    && y.waiting == WaitingCount(y.students)
  }

  ghost predicate Accounted(y: System, p: Student, s: nat) {
    && p.registrations == p.doses + (if Owed(p) then 1 else 0)
    && (Owed(p) ==> p.zone < |y.zones| && Holds(y.zones[p.zone], s))
  }

  lemma {:induction false} InvFair(y: System)
    requires Inv(y)
    ensures Fair(y)
  {
    forall z: nat | z < |y.zones| ensures |y.zones[z].students| + y.zones[z].slots <= y.zones[z].vaccines {
      assert ZoneOk(y.zones[z]);
    }
    forall z: nat, x: nat, s: nat | z < |y.zones| && x < |y.zones| && Holds(y.zones[z], s) && Holds(y.zones[x], s)
      ensures z == x
    {
      assert HeldOnce(y, z, s) && HeldOnce(y, x, s);
    }
    forall s: nat | s < |y.students| ensures Accounted(y, y.students[s], s) {
      assert StudentOk(y, s);
    }
  }

  /** In every interleaving: a zone's registered students and open slots fit in its
      vaccines; no student is registered in two zones; a registration is one dose
      given or owed; no dose is lost; and waitingStudents counts the waiting. */
  lemma {:induction false} EveryRun(zones: nat, students: nat, acts: seq<Action>)
    requires CanRun(Start(zones, students), acts)
    ensures Fair(Run(Start(zones, students), acts))
  {
    var y := Start(zones, students);
    NobodyWaits(students);
    assert y.students == Start(0, students).students;
    assert Inv(y) by {
      assert forall z: nat | z < zones :: ZoneOk(y.zones[z]);
      assert forall s: nat | s < students :: StudentOk(y, s);
      assert forall z: nat, s: nat | z < zones :: HeldOnce(y, z, s);
    }
    RunKeeps(y, acts);
    InvFair(Run(y, acts));
  }

  // ---- nobody is ever stuck ----

  /** In every state each thread's next critical section is there for it: a zone can
      always go on, once somebody waits if it is to open slots, and a student waits only
      for an open slot or for the dose. */
  lemma {:induction false} NobodyStuck(y: System, z: nat, s: nat)
    requires Inv(y) && z < |y.zones| && s < |y.students|
    ensures match y.zones[z].pc
            case NeedBatch => forall count | count > 0 :: Enabled(y, GetBatch(z, count))
            case MakeSlots => forall seen: int :: Enabled(y, OpenSlots(z, seen)) <==> seen > 0
            case Open => forall order | Lists(order, y.zones[z].students) :: Enabled(y, Collect(z, order))
            case Vaccinating(_) => Enabled(y, Vaccinate(z))
    ensures y.students[s].pc.Away? ==> Enabled(y, Arrive(s))
    ensures y.students[s].pc.Waiting? ==> (Enabled(y, Register(s, z)) <==> y.zones[z].slots > 0)
    ensures y.students[s].vaccinated ==> Enabled(y, Leave(s))
  {
    assert ZoneOk(y.zones[z]) && StudentOk(y, s);
    if y.zones[z].pc.Vaccinating? {
      VaccinateReady(y, z);
    }
  }

  /** A zone opens as many slots as the limit, the students it saw waiting and its vaccines
      allow, and no other zone or student changes. */
  lemma {:induction false} SlotsOpened(y: System, z: nat, seen: int)
    requires Enabled(y, OpenSlots(z, seen))
    ensures var t := Step(y, OpenSlots(z, seen)); var q := t.zones[z];
            && t == y.(zones := y.zones[z := q]) && q == y.zones[z].(pc := Open, slots := q.slots)
            && 0 < q.slots <= SLOTS_MAX && q.slots <= seen && q.slots <= q.vaccines
            && (q.slots == SLOTS_MAX || q.slots == seen || q.slots == q.vaccines)
  {
  }

  lemma {:induction false} SomeOrder(ids: set<nat>) returns (order: seq<nat>)
    ensures Lists(order, ids)
  {
    order := [];
    if ids != {} {
      var s :| s in ids;
      var rest := SomeOrder(ids - {s});
      order := [s] + rest;
      ListsMore(rest, ids, s);
    }
  }

  lemma {:induction false} ListsMore(rest: seq<nat>, ids: set<nat>, s: nat)
    requires s in ids && Lists(rest, ids - {s})
    ensures Lists([s] + rest, ids)
  {
    var order := [s] + rest;
    assert forall i | 0 < i < |order| :: order[i] == rest[i - 1];
    assert s !in rest;
    forall t ensures t in ids <==> t in order {
      assert t in order <==> t == s || t in rest;
    }
  }

  lemma {:induction false} RunMore(y: System, a: Action, acts: seq<Action>)
    requires Enabled(y, a) && CanRun(Step(y, a), acts)
    ensures CanRun(y, [a] + acts) && Run(y, [a] + acts) == Run(Step(y, a), acts)
  {
    assert ([a] + acts)[1..] == acts;
  }

  /** How far zone z is from an open slot. */
  function Distance(q: Zone): nat {
    match q.pc
    case Open => if q.slots > 0 then 0 else 4 + q.vaccines
    case MakeSlots => 1
    case NeedBatch => 2
    case Vaccinating(todo) => 2 + |todo|
  }

  /** The step that brings zone z nearer to an open slot, while student s waits. */
  lemma {:induction false} Nearer(y: System, z: nat, s: nat) returns (a: Action)
    requires Inv(y) && z < |y.zones| && s < |y.students| && y.students[s].pc.Waiting? && y.zones[z].slots == 0
    ensures Enabled(y, a) && Inv(Step(y, a)) && |Step(y, a).zones| == |y.zones| && |Step(y, a).students| == |y.students|
    ensures Distance(Step(y, a).zones[z]) < Distance(y.zones[z]) && Step(y, a).students[s] == y.students[s]
  {
    var q := y.zones[z];
    assert ZoneOk(q) && StudentOk(y, s);
    match q.pc
    case NeedBatch =>
      a := GetBatch(z, 1);
      StepKeeps(y, a);
    case MakeSlots =>
      a := OpenSlots(z, 1);
      StepKeeps(y, a);
    case Open =>
      var order := SomeOrder(q.students);
      ListLength(order, q.students);
      a := Collect(z, order);
      StepKeeps(y, a);
    case Vaccinating(todo) =>
      VaccinateReady(y, z);
      a := Vaccinate(z);
      StepKeeps(y, a);
  }

  lemma {:induction false} ToOpen(y: System, z: nat, s: nat) returns (acts: seq<Action>)
    requires Inv(y) && z < |y.zones| && s < |y.students| && y.students[s].pc.Waiting?
    ensures CanRun(y, acts)
    ensures var t := Run(y, acts);
            Inv(t) && z < |t.zones| && t.zones[z].slots > 0 && s < |t.students| && t.students[s] == y.students[s]
    decreases Distance(y.zones[z])
  {
    hide Inv, Enabled, Step;
    acts := [];
    if y.zones[z].slots == 0 {
      var a := Nearer(y, z, s);
      acts := ToOpen(Step(y, a), z, s);
      RunMore(y, a, acts);
      acts := [a] + acts;
    }
  }

  /** The dose that a registered student is owed can be given. */
  lemma {:induction false} ToDose(y: System, z: nat, s: nat) returns (acts: seq<Action>)
    requires Inv(y) && z < |y.zones| && s < |y.students| && y.zones[z].pc.Vaccinating? && s in y.zones[z].pc.todo
    ensures CanRun(y, acts)
    ensures var t := Run(y, acts);
            && s < |t.students| && t.students[s].vaccinated && t.students[s].doses == y.students[s].doses + 1
            && t.students[s].registrations == y.students[s].registrations && t.students[s].zone == y.students[s].zone
    decreases |y.zones[z].pc.todo|
  {
    VaccinateReady(y, z);
    var a := Vaccinate(z);
    var t := Step(y, a);
    VaccinateKeeps(y, z);
    assert ZoneOk(y.zones[z]);
    if y.zones[z].pc.todo[0] == s {
      acts := [];
    } else {
      assert s in y.zones[z].pc.todo[1..];
      acts := ToDose(t, z, s);
    }
    RunMore(y, a, acts);
    acts := [a] + acts;
  }

  lemma {:induction false} FromOpen(y: System, z: nat, s: nat) returns (acts: seq<Action>)
    requires Inv(y) && z < |y.zones| && s < |y.students| && y.students[s].pc.Waiting? && y.zones[z].slots > 0
    ensures CanRun(y, acts)
    ensures var t := Run(y, acts);
            && s < |t.students| && t.students[s].vaccinated && t.students[s].doses == y.students[s].doses + 1
            && t.students[s].registrations == y.students[s].registrations + 1 && t.students[s].zone == z
  {
    assert ZoneOk(y.zones[z]);
    var a := Register(s, z);
    RegisterKeeps(y, s, z);
    var t := Step(y, a);
    var order := SomeOrder(t.zones[z].students);
    var b := Collect(z, order);
    CollectKeeps(t, z, order);
    assert s in order;
    acts := ToDose(Step(t, b), z, s);
    RunMore(t, b, acts);
    RunMore(y, a, [b] + acts);
    acts := [a] + ([b] + acts);
  }

  lemma {:induction false} RunAppend(y: System, first: seq<Action>, more: seq<Action>)
    requires CanRun(y, first) && CanRun(Run(y, first), more)
    ensures CanRun(y, first + more) && Run(y, first + more) == Run(Run(y, first), more)
    decreases |first|
  {
    if first == [] {
      assert first + more == more;
    } else {
      RunAppend(Step(y, first[0]), first[1..], more);
      assert (first + more)[1..] == first[1..] + more;
    }
  }

  /** Progress is always possible: from every state of every run, a waiting student can
      still register at any zone and get exactly one dose. */
  lemma {:induction false} StudentCanGo(y: System, z: nat, s: nat) returns (acts: seq<Action>)
    requires Inv(y) && z < |y.zones| && s < |y.students| && y.students[s].pc.Waiting?
    ensures CanRun(y, acts)
    ensures var t := Run(y, acts);
            && s < |t.students| && t.students[s].vaccinated
            && t.students[s].doses == y.students[s].doses + 1
            && t.students[s].registrations == y.students[s].registrations + 1 && t.students[s].zone == z
  {
    var first := ToOpen(y, z, s);
    var t := Run(y, first);
    var more := FromOpen(t, z, s);
    RunAppend(y, first, more);
    acts := first + more;
  }

  /** The zone's loop over its registration flags: it lists the set flags in
      increasing order and clears them all. */
  method CollectRegistered(flags: array<int>) returns (registered: seq<nat>)
    modifies flags
    ensures forall i | 0 <= i < flags.Length :: flags[i] == if old(flags[i]) > 0 then 0 else old(flags[i])
    ensures forall i: nat :: i in registered <==> i < flags.Length && old(flags[i]) > 0
    ensures forall i, j | 0 <= i < j < |registered| :: registered[i] < registered[j]
  {
    registered := [];
    for i := 0 to flags.Length
      invariant forall k | 0 <= k < flags.Length ::
                  flags[k] == if k < i && old(flags[k]) > 0 then 0 else old(flags[k])
      invariant forall k: nat :: k in registered <==> k < i && old(flags[k]) > 0
      invariant forall k, j | 0 <= k < j < |registered| :: registered[k] < registered[j]
      invariant forall k | 0 <= k < |registered| :: registered[k] < i
    {
      if flags[i] > 0 {
        registered := registered + [i];
        flags[i] := 0;
      }
    }
  }
}
