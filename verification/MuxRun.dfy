/** A short run from start-up: two mutexes released in the order they were taken, and a boost that is never undone. */
module MuxRun {
  import opened Sequences
  import opened Deadlines
  import opened KernelState
  import opened Sched
  import opened SchedProofs
  import opened Invariants
  import opened TaskProofs
  import opened Machine
  import opened MachineProofs
  import opened Priorities
  import opened Boot
  import opened MuxHistory
  import opened MuxStacks
  import opened MuxPriority
  import Task
  import Mutex
  import RoundRobin

  /** Before the scheduler starts two mutexes are made, and task 1 with priority 10. */
  const SETUP := Setup([], [MuxCreate, MuxCreate, TaskCreate(10, true)], 0)

  /**
   * Task 1 takes mutex 0 and creates task 2 of priority 5, which waits for it and boosts it. Task 1 takes mutex 1,
   * deletes task 2, and releases mutex 0 before mutex 1.
   */
  const RUN := [Call(MuxPend(0, WAIT_FOREVER), 0), Call(TaskCreate(5, true), 0), Call(MuxPend(0, WAIT_FOREVER), 0),
                Call(MuxPend(1, WAIT_FOREVER), 0), Call(TaskDelete(2), 0), Call(MuxPost(0), 0), Call(MuxPost(1), 0)]

  const NEW := Mux(true, 0, None, 0)

  /** The part of the state that matters: who runs, both tasks' priorities, whether task 2 waits, and both mutexes. */
  datatype Scene = Scene(run: Tid, first: Option<nat>, second: Option<nat>, waits: bool, x0: Mux, x1: Mux)

  ghost predicate Plays(c: Tcb, prio: Option<nat>, waits: bool) {
    && (c.st.unused <==> prio.None?)
    && (prio.Some? ==>
          && c.prio == prio.value && !c.st.suspend && !c.st.delay
          && c.st.pend == waits && c.call == if waits then MuxCall(0) else NoCall)
  }

  ghost predicate Plain(k: Kernel) {
    && k.cfg.tasks >= 3 && k.cfg.idle == 0 && k.cfg.swtmr >= 3
    && k.lock == 0 && k.now == 0 && |k.tcbs| == k.cfg.tasks + 1
    && (forall t :: 3 <= t < k.cfg.tasks ==> k.tcbs[t].st.unused)
    && k.tcbs[0].call == NoCall
    && At(k.lists, RecycleList) == []
  }

  ghost predicate Table(k: Kernel, x0: Mux, x1: Mux) {
    && |k.obj.muxes| >= 2 && k.obj.muxes[0] == x0 && k.obj.muxes[1] == x1
    && forall m :: 2 <= m < |k.obj.muxes| ==> k.obj.muxes[m].count == 0
  }

  /** The blocks still to be created come first on the free list. */
  ghost predicate Spare(k: Kernel, s: Scene) {
    var free := At(k.lists, FreeList);
    && (s.first.None? ==> |free| >= 2 && free[0] == 1 && free[1] == 2)
    && (s.first.Some? && s.second.None? ==> free != [] && free[0] == 2)
  }

  ghost predicate Cast(k: Kernel, s: Scene) {
    && Plain(k) && Table(k, s.x0, s.x1) && Spare(k, s)
    && Plays(k.tcbs[1], s.first, false) && Plays(k.tcbs[2], s.second, s.waits)
    && At(k.lists, MuxList(0)) == (if s.waits then [2] else []) && At(k.lists, MuxList(1)) == []
  }

  ghost predicate Shows(k: Kernel, s: Scene) {
    KernelOK(k) && k.run == s.run && Cast(k, s)
  }

  // ---- A task switch ----

  /** Unused blocks stay where they are, and nobody is newly suspended or delayed. */
  ghost predicate Untouched(k: Kernel, k': Kernel) {
    && At(k'.lists, FreeList) == At(k.lists, FreeList) && At(k'.lists, RecycleList) == At(k.lists, RecycleList)
    && |k'.tcbs| == |k.tcbs| && k'.lock == k.lock
    && forall t :: 0 <= t < |k.tcbs| ==>
         && (k'.tcbs[t].st.suspend ==> k.tcbs[t].st.suspend) && (k'.tcbs[t].st.delay ==> k.tcbs[t].st.delay)
  }

  lemma ParkUntouched(k: Kernel, now: nat)
    requires k.run < |k.tcbs|
    ensures Untouched(k, Park(ChargeSlice(k, now)))
  {
    hide Insert;
  }

  lemma DispatchUntouched(k: Kernel, n: Tid)
    requires k.run < |k.tcbs| && n < |k.tcbs|
    requires n !in At(k.lists, FreeList) && n !in At(k.lists, RecycleList)
    ensures Untouched(k, Dispatch(k, n))
  {
    hide Drop;
  }

  /** Whoever is elected is on no list of unused blocks. */
  lemma TopIsAlive(k: Kernel, now: nat)
    requires SchedOK(k) && Switchable(k) && k.now <= now
    ensures var k1, n := Park(ChargeSlice(k, now)), Top(Park(ChargeSlice(k, now)));
            n < |k.tcbs| && n !in At(k1.lists, FreeList) && n !in At(k1.lists, RecycleList)
  {
    ChargeSliceFrame(k, now);
    ParkFrame(ChargeSlice(k, now));
    hide Park, ChargeSlice, Top, Switch, Best, Elect;
    ParkedFacts(k, now);
    SwitchIsElect(k, now);
    var kr := Parked(k, now);
    assert TaskOK(kr, Top(kr));
    assert kr.lists == Park(ChargeSlice(k, now)).lists;
    assert !On(kr, FreeList, Top(kr)) && !On(kr, RecycleList, Top(kr));
  }

  lemma SwitchUntouched(k: Kernel)
    requires SchedOK(k) && Switchable(k) && k.now == 0
    ensures Top(Park(ChargeSlice(k, 0))) < |k.tcbs| && Untouched(k, Switch(k, 0))
  {
    TopIsAlive(k, 0);
    ParkUntouched(k, 0);
    ChargeSliceFrame(k, 0);
    ParkFrame(ChargeSlice(k, 0));
    var k1 := Park(ChargeSlice(k, 0));
    DispatchUntouched(k1, Top(k1));
    hide Park, ChargeSlice, Top, Dispatch, SchedOK;
  }

  lemma SwitchCast(k: Kernel, s: Scene)
    requires SchedOK(k) && Switchable(k) && Cast(k, s)
    ensures Top(Park(ChargeSlice(k, 0))) < |k.tcbs| && Cast(Switch(k, 0), s)
  {
    hide SchedOK, Switchable, Top, Park, ChargeSlice, Switch, Settled, Best;
    SchedShape(k);
    SwitchOK(k, 0);
    SwitchPrio(k, 0);
    SwitchUntouched(k);
    QuietCast(k, Switch(k, 0), s);
  }

  lemma QuietCast(k: Kernel, k': Kernel, s: Scene)
    requires Cast(k, s) && Quiet(k, k') && PrioSame(k, k') && Untouched(k, k') && k'.now == 0
    ensures Cast(k', s)
  {
    assert SameCall(k.tcbs[0], k'.tcbs[0]) && SameCall(k.tcbs[1], k'.tcbs[1]) && SameCall(k.tcbs[2], k'.tcbs[2]);
    forall t | 3 <= t < k.cfg.tasks ensures k'.tcbs[t].st.unused {
      assert SameCall(k.tcbs[t], k'.tcbs[t]);
    }
  }

  /** Who may be running: never the idle task while task 1 is there, and the more urgent of two that can run. */
  lemma WhoRuns(k: Kernel, s: Scene)
    requires Settled(k) && Best(k, k.run) && Cast(k, s) && s.first.Some?
    ensures k.run == if s.second.Some? && !s.waits then (if s.second.value < s.first.value then 2 else k.run) else 1
  {
    assert TaskOK(k, 0) && TaskOK(k, 1) && TaskOK(k, 2);
    hide Placed, Spare, Table;
  }

  /** A call that asks for a switch. */
  lemma Switched(k: Kernel, op: Op, s: Scene)
    requires KernelOK(k) && Legal(k, Call(op, 0)) && Defined(k) && Do(k, op, false).sched
    requires Cast(Do(k, op, false).k, s) && s.first.Some?
    ensures var k' := Next(k, Call(op, 0)); KernelOK(k') && Shape(k') && Cast(k', s) && Settled(k') && Best(k', k'.run)
  {
    NextCallIs(k, op, 0);
    var o := Do(k, op, false);
    assert o.k.lock == 0 && o.k.now == 0;
    SwitchCast(o.k, s);
    SwitchOK(o.k, 0);
    hide Do, Switch, Best, SchedOK, Cast;
  }

  // ---- The steps ----

  lemma ShowsFacts(k: Kernel, s: Scene)
    requires Shows(k, s)
    ensures KernelOK(k) && Cast(k, s) && k.run == s.run && NoDup(At(k.lists, FreeList)) && 3 <= k.cfg.tasks < |k.tcbs|
  {
  }

  lemma NowShows(k: Kernel, s: Scene)
    requires KernelOK(k) && Cast(k, s)
    ensures Shows(k, s.(run := k.run))
  {
  }

  function Taken(s: Scene, m: nat): Scene
    requires s.first.Some?
  {
    var x := Mux(true, 1, Some(1), s.first.value);
    if m == 0 then s.(x0 := x) else s.(x1 := x)
  }

  lemma PendIs(k: Kernel, m: nat)
    requires KernelOK(k)
    ensures Defined(k) && k.run < |k.tcbs|
    ensures forall i :: 0 <= i < |k.obj.muxes| && k.obj.muxes[i].count > 0 ==>
              k.obj.muxes[i].owner.Some? && k.obj.muxes[i].owner.value < |k.tcbs|
    ensures Do(k, MuxPend(m, WAIT_FOREVER), false) == Mutex.Pend(k, m, WAIT_FOREVER, false)
  {
    hide Mutex.Pend, KernelOK;
    KernelDefined(k);
    RunInRange(k);
    DoIs(k, MuxPend(m, WAIT_FOREVER), false);
  }

  lemma PendLegal(k: Kernel, s: Scene, m: nat)
    requires Shows(k, s) && s.run > 0
    ensures Legal(k, Call(MuxPend(m, WAIT_FOREVER), 0)) && k.tcbs[k.run].call.NoCall?
  {
  }

  lemma TakesCast(k: Kernel, s: Scene, m: nat)
    requires Cast(k, s) && k.run == 1 && s.first.Some? && m < 2 && (if m == 0 then s.x0 else s.x1) == NEW
    requires forall i :: 0 <= i < |k.obj.muxes| && k.obj.muxes[i].count > 0 ==>
               k.obj.muxes[i].owner.Some? && k.obj.muxes[i].owner.value < |k.tcbs|
    ensures var o := Mutex.Pend(k, m, WAIT_FOREVER, false);
            Cast(o.k, Taken(s, m)) && o.ret == Ok && !o.sched && o.k.run == k.run
  {
  }

  /** A call that asks for no switch. */
  lemma Stays(k: Kernel, op: Op)
    requires KernelOK(k) && Legal(k, Call(op, 0))
    ensures Defined(k)
    ensures !Do(k, op, false).sched ==>
              && Next(k, Call(op, 0)) == Do(k, op, false).k && KernelOK(Next(k, Call(op, 0)))
  {
    NextCallIs(k, op, 0);
    hide *;
  }

  lemma Recorded(k: Kernel, op: Op, h: Hist)
    requires KernelOK(k) && Legal(k, Call(op, 0)) && Defined(k)
    ensures StepRecord(k, Call(op, 0), h) == Record(k, op, Do(k, op, false).ret, h)
  {
    hide Do, Record, KernelOK, Defined, Legal;
  }

  lemma TakeRecord(k: Kernel, s: Scene, m: nat, h: Hist)
    requires Cast(k, s) && k.run == 1 && m < 2 && (if m == 0 then s.x0 else s.x1) == NEW && |h.held| == k.cfg.tasks
    ensures Record(k, MuxPend(m, WAIT_FOREVER), Ok, h) == Give(h, 1, m)
  {
    hide Plays, Spare;
  }

  /** Task 1 takes a free mutex. */
  lemma Takes(k: Kernel, s: Scene, m: nat, h: Hist)
    requires Shows(k, s) && s.run == 1 && s.first.Some? && m < 2 && (if m == 0 then s.x0 else s.x1) == NEW
    requires |h.held| == k.cfg.tasks
    ensures Legal(k, Call(MuxPend(m, WAIT_FOREVER), 0))
    ensures Shows(Next(k, Call(MuxPend(m, WAIT_FOREVER), 0)), Taken(s, m))
    ensures StepRecord(k, Call(MuxPend(m, WAIT_FOREVER), 0), h) == Give(h, 1, m)
  {
    PendLegal(k, s, m);
    PendIs(k, m);
    TakesCast(k, s, m);
    TakeRecord(k, s, m, h);
    Stays(k, MuxPend(m, WAIT_FOREVER));
    Recorded(k, MuxPend(m, WAIT_FOREVER), h);
    hide Do, KernelOK, Next, Legal, Cast, Mutex.Pend, Record, Give, Taken, Defined, StepRecord;
  }

  function Newborn(s: Scene): Tid {
    if s.first.None? then 1 else 2
  }

  function WithTask(s: Scene, prio: nat): Scene {
    if s.first.None? then s.(first := Some(prio)) else s.(second := Some(prio))
  }

  lemma CreateIs(k: Kernel, prio: nat)
    requires KernelOK(k)
    ensures Defined(k) && forall t :: t in At(Task.Recycle(k).lists, FreeList) ==> t < |k.tcbs|
    ensures Do(k, TaskCreate(prio, true), false) == Task.Create(k, prio, true)
  {
    hide Task.Create, KernelOK, DoTask;
    KernelDefined(k);
    DoIs(k, TaskCreate(prio, true), false);
    DoTaskIs(k, TaskCreate(prio, true), false);
  }

  lemma CreateLegal(k: Kernel, s: Scene, prio: nat)
    requires Shows(k, s) && s.run < 3 && !(s.waits && s.run == 2)
    requires s.run == 0 || (if s.run == 1 then s.first else s.second).Some?
    ensures Legal(k, Call(TaskCreate(prio, true), 0))
  {
  }

  /** Nothing waits to be recycled, so the new block is the head of the free list. */
  lemma FreshBlockIs(k: Kernel, s: Scene, prio: nat)
    requires Cast(k, s) && NoDup(At(k.lists, FreeList)) && (s.first.None? || s.second.None?) && prio < LOWEST
    requires forall t :: t in At(Task.Recycle(k).lists, FreeList) ==> t < |k.tcbs|
    ensures var t, o := Newborn(s), Task.Create(k, prio, true);
            && t < |k.tcbs| && o.ret == Id(t) && o.sched
            && o.k == EnQueue(SetTcb(k.(lists := Unlink(k.lists, t)), t, Task.Fresh(k.tcbs[t], prio)), t)
            && At(Unlink(k.lists, t), FreeList) == At(k.lists, FreeList)[1..]
  {
    assert Task.Recycle(k) == k;
    var free, t := At(k.lists, FreeList), Newborn(s);
    assert free[0] == t && t < |k.tcbs|;
    RoundRobin.DropHead(free);
    assert At(Unlink(k.lists, t), FreeList) == Drop(free, t);
    assert Task.CreateOnly(k, prio, true) ==
           Out(SetTcb(k.(lists := Unlink(k.lists, t)), t, Task.Fresh(k.tcbs[t], prio)), Id(t), false);
    hide EnQueue, Plays, Table, Unlink, Drop;
  }

  lemma BornCast(k: Kernel, s: Scene, prio: nat, t: Tid, k': Kernel)
    requires Cast(k, s) && !s.waits && s.second.None? && t == Newborn(s)
    requires At(Unlink(k.lists, t), FreeList) == At(k.lists, FreeList)[1..]
    requires k' == EnQueue(SetTcb(k.(lists := Unlink(k.lists, t)), t, Task.Fresh(k.tcbs[t], prio)), t)
    ensures Cast(k', WithTask(s, prio))
  {
    hide Drop, Unlink;
    var m := Unlink(k.lists, t);
    assert At(m, MuxList(0)) == [] && At(m, MuxList(1)) == [] && At(m, RecycleList) == [];
    assert forall l: ListId :: !l.ReadyList? ==> At(k'.lists, l) == At(m, l);
  }

  lemma BornRecord(k: Kernel, prio: nat, t: Tid, h: Hist)
    requires t < |h.base|
    ensures Record(k, TaskCreate(prio, true), Id(t), h) == h.(base := h.base[t := prio])
  {
  }

  /** The next task is created and, being the most urgent one, runs. */
  lemma Creates(k: Kernel, s: Scene, prio: nat, h: Hist)
    requires Shows(k, s) && !s.waits && s.second.None? && prio < LOWEST && |h.base| == k.cfg.tasks
    requires if s.first.None? then s.run == 0 else s.run == 1 && prio < s.first.value
    ensures Legal(k, Call(TaskCreate(prio, true), 0))
    ensures Shows(Next(k, Call(TaskCreate(prio, true), 0)), WithTask(s, prio).(run := Newborn(s)))
    ensures StepRecord(k, Call(TaskCreate(prio, true), 0), h) == h.(base := h.base[Newborn(s) := prio])
  {
    hide Do, Next, Legal, Cast, Task.Create, EnQueue, Record, Defined, StepRecord, Best, KernelOK, Shows;
    ShowsFacts(k, s);
    CreateLegal(k, s, prio);
    CreateIs(k, prio);
    FreshBlockIs(k, s, prio);
    BornCast(k, s, prio, Newborn(s), Task.Create(k, prio, true).k);
    BornRecord(k, prio, Newborn(s), h);
    Switched(k, TaskCreate(prio, true), WithTask(s, prio));
    var k' := Next(k, Call(TaskCreate(prio, true), 0));
    WhoRuns(k', WithTask(s, prio));
    Recorded(k, TaskCreate(prio, true), h);
    NowShows(k', WithTask(s, prio));
  }

  lemma BoostCast(k: Kernel, s: Scene, prio: nat)
    requires Cast(k, s) && s.first.Some? && s.second.Some? && !s.waits
    ensures Cast(ModifyPrio(k, 1, prio), s.(first := Some(prio)))
  {
    hide Drop, Unlink;
    var k1, m := ModifyPrio(k, 1, prio), Unlink(k.lists, 1);
    assert At(m, MuxList(0)) == [] && At(m, MuxList(1)) == [] && At(m, RecycleList) == [];
    assert forall l: ListId :: !l.ReadyList? ==> At(k1.lists, l) == At(k.lists, l) || At(k1.lists, l) == At(m, l);
    assert At(k1.lists, MuxList(0)) == [];
  }

  lemma WaitCast(k: Kernel, s: Scene)
    requires Cast(k, s) && k.run == 2 && s.first.Some? && s.second.Some? && !s.waits
    ensures Cast(Wait(k, MuxCall(0), WAIT_FOREVER), s.(waits := true))
  {
  }

  /** Task 2 finds mutex 0 taken: its owner gets task 2's priority, and task 2 waits. */
  lemma BlocksCast(k: Kernel, s: Scene)
    requires Cast(k, s) && k.run == 2 && s.first.Some? && s.second.Some? && s.second.value < s.first.value && !s.waits
    requires s.x0 == Mux(true, 1, Some(1), s.first.value)
    requires forall i :: 0 <= i < |k.obj.muxes| && k.obj.muxes[i].count > 0 ==>
               k.obj.muxes[i].owner.Some? && k.obj.muxes[i].owner.value < |k.tcbs|
    ensures var o := Mutex.Pend(k, 0, WAIT_FOREVER, false);
            Cast(o.k, s.(first := s.second, waits := true)) && o.ret == Waiting && o.sched
  {
    hide Wait, ModifyPrio, Spare;
    BoostCast(k, s, s.second.value);
    WaitCast(ModifyPrio(k, 1, s.second.value), s.(first := s.second));
  }

  lemma WaitRecord(k: Kernel, h: Hist)
    ensures Record(k, MuxPend(0, WAIT_FOREVER), Waiting, h) == h
  {
  }

  lemma Blocks(k: Kernel, s: Scene, h: Hist)
    requires Shows(k, s) && s.run == 2 && s.first.Some? && s.second.Some? && s.second.value < s.first.value && !s.waits
    requires s.x0 == Mux(true, 1, Some(1), s.first.value)
    ensures Legal(k, Call(MuxPend(0, WAIT_FOREVER), 0))
    ensures Shows(Next(k, Call(MuxPend(0, WAIT_FOREVER), 0)), s.(run := 1, first := s.second, waits := true))
    ensures StepRecord(k, Call(MuxPend(0, WAIT_FOREVER), 0), h) == h
  {
    hide Do, Next, Legal, Cast, Mutex.Pend, Record, Defined, StepRecord, Best, KernelOK, Shows;
    ShowsFacts(k, s);
    PendLegal(k, s, 0);
    PendIs(k, 0);
    BlocksCast(k, s);
    WaitRecord(k, h);
    var s1 := s.(first := s.second, waits := true);
    Switched(k, MuxPend(0, WAIT_FOREVER), s1);
    var k' := Next(k, Call(MuxPend(0, WAIT_FOREVER), 0));
    WhoRuns(k', s1);
    Recorded(k, MuxPend(0, WAIT_FOREVER), h);
    NowShows(k', s1);
  }

  lemma DeleteIs(k: Kernel, t: nat)
    requires KernelOK(k)
    ensures Defined(k) && k.cfg.tasks < |k.tcbs|
    ensures Do(k, TaskDelete(t), false) == Task.Delete(k, t)
  {
    hide Task.Delete, DoTask;
    KernelDefined(k);
    DoIs(k, TaskDelete(t), false);
    DoTaskIs(k, TaskDelete(t), false);
  }

  lemma DeleteLegal(k: Kernel, s: Scene)
    requires Shows(k, s) && s.run == 1 && s.first.Some? && s.second.Some? && s.waits
    requires s.x0.owner == Some(1) && s.x1.owner == Some(1)
    ensures Legal(k, Call(TaskDelete(2), 0)) && !k.tcbs[2].st.running && !k.tcbs[2].st.ready
  {
    assert TaskOK(k, 2);
    hide Placed, ObjectsOK, Spare;
  }

  lemma DeleteCast(k: Kernel, s: Scene)
    requires Cast(k, s) && s.first.Some? && s.second.Some? && s.waits
    requires !k.tcbs[2].st.running && !k.tcbs[2].st.ready
    ensures var o := Task.Delete(k, 2); Cast(o.k, s.(second := None, waits := false)) && o.ret == Ok && !o.sched
    ensures Task.Delete(k, 2).k.run == k.run
  {
    assert Drop([2], 2) == Drop([], 2) == [];
    hide Drop, Unlink, Remove;
    var m := Unlink(k.lists, 2);
    assert At(m, MuxList(0)) == [] && At(m, MuxList(1)) == [] && At(m, RecycleList) == [];
    assert Task.Delete(k, 2).k.lists == PushFront(m, FreeList, 2);
  }

  lemma DeleteRecord(k: Kernel, h: Hist)
    ensures Record(k, TaskDelete(2), Ok, h) == h
  {
  }

  /** Task 1 deletes the task that boosted it, and keeps the boost. */
  lemma Deletes(k: Kernel, s: Scene, h: Hist)
    requires Shows(k, s) && s.run == 1 && s.first.Some? && s.second.Some? && s.waits
    requires s.x0.owner == Some(1) && s.x1.owner == Some(1)
    ensures Legal(k, Call(TaskDelete(2), 0))
    ensures Shows(Next(k, Call(TaskDelete(2), 0)), s.(second := None, waits := false))
    ensures StepRecord(k, Call(TaskDelete(2), 0), h) == h
  {
    hide Do, Next, Legal, Cast, Task.Delete, Record, Defined, StepRecord, KernelOK, Shows;
    ShowsFacts(k, s);
    DeleteLegal(k, s);
    DeleteIs(k, 2);
    DeleteCast(k, s);
    DeleteRecord(k, h);
    Stays(k, TaskDelete(2));
    Recorded(k, TaskDelete(2), h);
    NowShows(Next(k, Call(TaskDelete(2), 0)), s.(second := None, waits := false));
  }

  function GivenUp(s: Scene, m: nat): Scene {
    if m == 0 then s.(x0 := s.x0.(count := 0), first := Some(s.x0.prio))
    else s.(x1 := s.x1.(count := 0), first := Some(s.x1.prio))
  }

  lemma PostIs(k: Kernel, m: nat)
    requires KernelOK(k)
    ensures Defined(k) && k.run < |k.tcbs| && Members(k, MuxList(m))
    ensures Do(k, MuxPost(m), false) == Mutex.Post(k, m)
  {
    hide Mutex.Post, KernelOK;
    KernelDefined(k);
    RunInRange(k);
    DoIs(k, MuxPost(m), false);
  }

  lemma PostLegal(k: Kernel, s: Scene, m: nat)
    requires Shows(k, s) && s.run == 1 && s.first.Some?
    ensures Legal(k, Call(MuxPost(m), 0)) && !k.tcbs[1].st.ready
  {
    hide SchedOK, ObjectsOK, Spare, Table;
  }

  lemma PostCast(k: Kernel, s: Scene, m: nat)
    requires Cast(k, s) && k.run == 1 && s.first.Some? && !s.waits && m < 2 && !k.tcbs[1].st.ready
    requires var x := if m == 0 then s.x0 else s.x1; x.used && x.count == 1 && x.owner == Some(1)
    requires Members(k, MuxList(m))
    ensures var o := Mutex.Post(k, m); Cast(o.k, GivenUp(s, m)) && o.ret == Ok && !o.sched && o.k.run == k.run
  {
    hide Drop;
  }

  lemma PostRecord(k: Kernel, m: nat, h: Hist)
    ensures Record(k, MuxPost(m), Ok, h).base == h.base
  {
    hide Drop;
  }

  /** Task 1 releases a mutex that nobody waits for, and gets the priority saved with it. */
  lemma Releases(k: Kernel, s: Scene, m: nat, h: Hist)
    requires Shows(k, s) && s.run == 1 && s.first.Some? && !s.waits && m < 2
    requires var x := if m == 0 then s.x0 else s.x1; x.used && x.count == 1 && x.owner == Some(1)
    ensures Legal(k, Call(MuxPost(m), 0))
    ensures Shows(Next(k, Call(MuxPost(m), 0)), GivenUp(s, m))
    ensures StepRecord(k, Call(MuxPost(m), 0), h).base == h.base
  {
    hide Do, Next, Legal, Cast, Mutex.Post, Record, Defined, StepRecord, KernelOK, Shows;
    ShowsFacts(k, s);
    PostLegal(k, s, m);
    PostIs(k, m);
    PostCast(k, s, m);
    PostRecord(k, m, h);
    Stays(k, MuxPost(m));
    Recorded(k, MuxPost(m), h);
    NowShows(Next(k, Call(MuxPost(m), 0)), GivenUp(s, m));
  }

  // ---- From start-up ----

  /** After `n` of the mutexes have been made, before any task but the idle one. */
  ghost predicate Opening(k: Kernel, n: nat) {
    && Preparing(k) && IdleMade(k) && Plain(k) && Spare(k, Scene(0, None, None, false, NEW, NEW))
    && k.tcbs[1].st.unused && k.tcbs[2].st.unused
    && At(k.lists, MuxList(0)) == [] && At(k.lists, MuxList(1)) == []
    && 2 <= |k.obj.muxes| && (n >= 1 ==> k.obj.muxes[0] == NEW) && (n >= 2 ==> k.obj.muxes[1] == NEW)
    && (forall m :: 2 <= m < |k.obj.muxes| ==> k.obj.muxes[m].count == 0)
    && (n < 2 ==> k.obj.muxFree != [] && k.obj.muxFree[0] == n)
    && (n == 0 ==> |k.obj.muxFree| >= 2 && k.obj.muxFree[1] == 1)
  }

  ghost predicate Roomy(cfg: Config, n: Limits) {
    GoodConfig(cfg) && cfg.idle == 0 && cfg.tasks >= 3 && cfg.swtmr >= 3 && n.muxes >= 2
  }

  lemma FirstOpening(k: Kernel, k': Kernel, cfg: Config, n: Limits)
    requires FirstState(k, cfg) && k.obj == FirstObjects(n) && Roomy(cfg, n)
    requires Preparing(k') == true && IdleMade(k') && k' == CreateIdle(k)
    requires Drop(Count(cfg.tasks), 0) == Count(cfg.tasks)[1..]
    ensures Opening(k', 0)
  {
    hide Preparing, Drop;
  }

  lemma Opens(cfg: Config, n: Limits)
    requires Roomy(cfg, n)
    ensures Init(cfg, n).cfg == cfg && cfg.idle < |Init(cfg, n).tcbs|
    ensures Preparing(Init(cfg, n)) && IdleNext(Init(cfg, n))
    ensures Opening(CreateIdle(Init(cfg, n)), 0)
  {
    hide *;
    RoomyGood(cfg, n);
    var k := Init(cfg, n);
    InitOK(cfg, n);
    InitShape(cfg, n);
    FirstNext(k, cfg);
    CreateIdleOK(k);
    AllButIdle(cfg);
    FirstOpening(k, CreateIdle(k), cfg, n);
  }

  lemma RoomyGood(cfg: Config, n: Limits)
    requires Roomy(cfg, n)
    ensures GoodConfig(cfg) && cfg.idle == 0 && cfg.tasks >= 3
  {
  }

  lemma FirstNext(k: Kernel, cfg: Config)
    requires FirstState(k, cfg) && cfg.idle == 0 < cfg.tasks
    ensures IdleNext(k) && k.cfg == cfg && cfg.idle < |k.tcbs|
  {
    assert Count(cfg.tasks)[0] == 0;
    hide Count;
  }

  lemma AllButIdle(cfg: Config)
    requires 0 < cfg.tasks
    ensures Drop(Count(cfg.tasks), 0) == Count(cfg.tasks)[1..]
  {
    var free := Count(cfg.tasks);
    DropAt(free, 0);
    assert free[..0] + free[1..] == free[1..];
  }

  lemma CreatedOpening(k: Kernel, n: nat)
    requires Opening(k, n) && n < 2 && (forall m :: m in k.obj.muxFree ==> m < |k.obj.muxes|)
    requires Preparing(Mutex.Create(k).k) == true && IdleMade(Mutex.Create(k).k)
    ensures Opening(Mutex.Create(k).k, n + 1)
  {
    hide Preparing;
  }

  lemma MakesMux(k: Kernel, n: nat)
    requires Opening(k, n) && n < 2
    ensures Preparing(k) && IdleMade(k) && LeavesIdle(k, MuxCreate) && Opening(SetUp(k, MuxCreate), n + 1)
  {
    OpeningPrepares(k, n);
    SoundDefined(k);
    hide Do, Preparing, Defined, Opening, Mutex.Create, SchedOK, ObjectsOK;
    SetUpIs(k, MuxCreate);
    assert SetUp(k, MuxCreate) == Mutex.Create(k).k;
    CreatedOpening(k, n);
  }

  lemma OpeningPrepares(k: Kernel, n: nat)
    requires Opening(k, n)
    ensures Preparing(k) && SchedOK(k) && ObjectsOK(k) && IdleMade(k)
  {
  }

  lemma OpeningCast(k: Kernel)
    requires Opening(k, 2)
    ensures Cast(k, Scene(0, None, None, false, NEW, NEW)) && NoDup(At(k.lists, FreeList))
  {
  }

  /** Task 1 is created and made ready. */
  lemma MakesTask(k: Kernel)
    requires Opening(k, 2)
    ensures Preparing(k) && IdleMade(k) && LeavesIdle(k, TaskCreate(10, true))
    ensures Cast(SetUp(k, TaskCreate(10, true)), Scene(0, Some(10), None, false, NEW, NEW))
  {
    OpeningPrepares(k, 2);
    OpeningCast(k);
    var s := Scene(0, None, None, false, NEW, NEW);
    hide Do, Preparing, Defined, Opening, Task.Create, SchedOK, ObjectsOK, Cast, EnQueue, SparesIdle, IdleMade;
    MadeSpared(k, 10, true);
    SoundDefined(k);
    SetUpIs(k, TaskCreate(10, true));
    FreshBlockIs(k, s, 10);
    BornCast(k, s, 10, 1, Task.Create(k, 10, true).k);
  }

  lemma StartCast(k: Kernel, s: Scene)
    requires Preparing(k) && IdleMade(k) && Cast(k, s) && s.first.Some? && s.second.None?
    ensures Top(k) < |k.tcbs| && Shows(Start(k, 0), s.(run := 1))
  {
    StartOK(k, 0);
    TopOffLists(k);
    StartIsElect(k, 0);
    assert k.(now := 0) == k;
    hide Start, Top, Elect, SchedOK, ObjectsOK, Best, Settled;
    var n := Top(k);
    ElectKeeps(k, n);
    StartQuiet(k);
    QuietCast(k, Start(k, 0), s);
    StartBest(k);
    WhoRuns(Start(k, 0), s);
    NowShows(Start(k, 0), s);
  }

  lemma TopOffLists(k: Kernel)
    requires Preparing(k) && IdleMade(k)
    ensures Top(k) < |k.tcbs| && Top(k) !in At(k.lists, FreeList) && Top(k) !in At(k.lists, RecycleList)
  {
    TopIsBest(k);
    assert TaskOK(k, Top(k));
    assert !On(k, FreeList, Top(k)) && !On(k, RecycleList, Top(k));
    hide Top, ObjectsOK, ListsOK;
  }

  lemma ElectKeeps(k: Kernel, n: Tid)
    requires n < |k.tcbs| && n !in At(k.lists, FreeList) && n !in At(k.lists, RecycleList) && k.now == 0
    ensures var k' := Elect(k, n, 0); Untouched(k, k') && PrioSame(k, k') && k'.now == 0
  {
    hide Drop;
  }

  lemma StartQuiet(k: Kernel)
    requires Preparing(k) && IdleMade(k)
    ensures Top(k) < |k.tcbs| && Quiet(k, Start(k, 0))
  {
    StartOK(k, 0);
    TopIsBest(k);
    StartIsElect(k, 0);
    assert k.(now := 0) == k;
    hide Start, Top, Elect, ObjectsOK;
    ElectKeepsBest(k, Top(k), 0);
  }

  lemma StartBest(k: Kernel)
    requires Preparing(k) && IdleMade(k)
    ensures Top(k) < |k.tcbs| && Settled(Start(k, 0)) && Best(Start(k, 0), Start(k, 0).run)
  {
    StartOK(k, 0);
    hide Start, Top, Best, SchedOK, ObjectsOK;
  }

  lemma Starts(cfg: Config, n: Limits)
    requires Roomy(cfg, n)
    ensures Bootable(cfg, n, SETUP)
    ensures Shows(Booted(cfg, n, SETUP), Scene(1, Some(10), None, false, NEW, NEW))
  {
    hide Preparing, IdleMade, Opening, CreateIdle, SetUp, Start, Top, Cast, Shows, Init, LeavesIdle, Do, IdleNext;
    Opens(cfg, n);
    var k1 := CreateIdle(Init(cfg, n));
    MakesMux(k1, 0);
    var k2 := SetUp(k1, MuxCreate);
    MakesMux(k2, 1);
    var k3 := SetUp(k2, MuxCreate);
    MakesTask(k3);
    var k4 := SetUp(k3, TaskCreate(10, true));
    StartCast(k4, Scene(0, Some(10), None, false, NEW, NEW));
    var ops := SETUP.after;
    Prepares(k3, [TaskCreate(10, true)]);
    Prepares(k2, [MuxCreate, TaskCreate(10, true)]);
    Prepares(k1, [MuxCreate, MuxCreate, TaskCreate(10, true)]);
  }

  lemma Prepares(k: Kernel, ops: seq<Op>)
    requires Preparing(k) && ops != [] && SetsUp(ops[0]) && LeavesIdle(k, ops[0])
    ensures MaySetUp(SetUp(k, ops[0]), ops[1..]) ==>
              MaySetUp(k, ops) && Prepared(k, ops) == Prepared(SetUp(k, ops[0]), ops[1..])
  {
    hide Preparing, SetUp, LeavesIdle;
  }

  // ---- The whole run ----

  /** The run ends with task 1 alive, owner of no mutex, at priority 5; it was created with priority 10. */
  ghost predicate Ends(k: Kernel, steps: seq<Step>, h: Hist) {
    && KernelOK(k) && LegalRun(k, steps)
    && var k' := Run(k, steps);
       && 1 < |k'.tcbs| && !k'.tcbs[1].st.unused && k'.tcbs[1].prio == 5
       && (forall m: nat :: !Owns(k', 1, m))
       && 1 < |RunRecord(k, steps, h).base|
       && RunRecord(k, steps, h).base[1] == 10
  }

  lemma StepBack(k: Kernel, steps: seq<Step>, h: Hist)
    requires KernelOK(k) && steps != [] && Legal(k, steps[0])
    requires Ends(Next(k, steps[0]), steps[1..], StepRecord(k, steps[0], h))
    ensures Ends(k, steps, h)
  {
    hide Next, KernelOK, Legal, StepRecord, Owns;
  }

  lemma LastScene(k: Kernel, s: Scene, h: Hist)
    requires Shows(k, s) && s.first == Some(5) && s.x0.count == 0 && s.x1.count == 0
    requires |h.base| >= 2 && h.base[1] == 10
    ensures Ends(k, [], h)
  {
    hide SchedOK, ObjectsOK, Spare;
  }

  lemma Suffix(i: nat)
    requires i < 7
    ensures RUN[i..] != [] && RUN[i..][0] == RUN[i] && RUN[i..][1..] == RUN[i + 1..]
  {
  }

  /** From the moment both tasks exist. */
  lemma SecondHalf(k: Kernel, s: Scene, h: Hist)
    requires Shows(k, s) && s == Scene(2, Some(10), Some(5), false, Mux(true, 1, Some(1), 10), NEW)
    requires |h.base| == |h.held| == k.cfg.tasks && 2 <= |h.base| && h.base[1] == 10
    ensures Ends(k, RUN[2..], h)
  {
    hide Shows, Ends, Next, Legal, StepRecord, KernelOK;
    forall i: nat | i < 7 ensures RUN[i..] != [] && RUN[i..][0] == RUN[i] && RUN[i..][1..] == RUN[i + 1..] {
      Suffix(i);
    }
    ShowsFacts(k, s);
    Blocks(k, s, h);
    var k3, s3 := Next(k, RUN[2]), s.(run := 1, first := Some(5), waits := true);
    ShowsFacts(k3, s3);
    Takes(k3, s3, 1, h);
    var k4, s4, h4 := Next(k3, RUN[3]), Taken(s3, 1), Give(h, 1, 1);
    ShowsFacts(k4, s4);
    Deletes(k4, s4, h4);
    var k5, s5 := Next(k4, RUN[4]), s4.(second := None, waits := false);
    ShowsFacts(k5, s5);
    Releases(k5, s5, 0, h4);
    var k6, s6, h6 := Next(k5, RUN[5]), GivenUp(s5, 0), StepRecord(k5, RUN[5], h4);
    ShowsFacts(k6, s6);
    Releases(k6, s6, 1, h6);
    var k7, s7, h7 := Next(k6, RUN[6]), GivenUp(s6, 1), StepRecord(k6, RUN[6], h6);
    ShowsFacts(k7, s7);
    LastScene(k7, s7, h7);
    assert RUN[7..] == [];
    StepBack(k6, RUN[6..], h6);
    StepBack(k5, RUN[5..], h4);
    StepBack(k4, RUN[4..], h4);
    StepBack(k3, RUN[3..], h);
    StepBack(k, RUN[2..], h);
  }

  /** A legal run from start-up after which a task that holds nothing is not at its base priority. */
  lemma OutOfOrderRun(cfg: Config, n: Limits)
    requires Roomy(cfg, n)
    ensures Bootable(cfg, n, SETUP) && cfg.tasks < |Booted(cfg, n, SETUP).tcbs|
    ensures Ends(Booted(cfg, n, SETUP), RUN, FirstHist(Booted(cfg, n, SETUP)))
  {
    Starts(cfg, n);
    hide Shows, Ends, Next, Legal, StepRecord, KernelOK, Booted, Roomy, Bootable;
    RoomyGood(cfg, n);
    forall i: nat | i < 7 ensures RUN[i..] != [] && RUN[i..][0] == RUN[i] && RUN[i..][1..] == RUN[i + 1..] {
      Suffix(i);
    }
    var k0, s0 := Booted(cfg, n, SETUP), Scene(1, Some(10), None, false, NEW, NEW);
    ShowsFacts(k0, s0);
    FirstPrio(k0, s0);
    var h0 := FirstHist(k0);
    Takes(k0, s0, 0, h0);
    var k1, s1, h1 := Next(k0, RUN[0]), Taken(s0, 0), Give(h0, 1, 0);
    ShowsFacts(k1, s1);
    Creates(k1, s1, 5, h1);
    var k2, s2, h2 := Next(k1, RUN[1]), s1.(second := Some(5), run := 2), h1.(base := h1.base[2 := 5]);
    ShowsFacts(k2, s2);
    SecondHalf(k2, s2, h2);
    StepBack(k1, RUN[1..], h1);
    assert RUN[0..] == RUN;
    StepBack(k0, RUN, h0);
  }

  lemma FirstPrio(k: Kernel, s: Scene)
    requires Shows(k, s) && s.first == Some(10)
    ensures 1 < |k.tcbs| && k.tcbs[1].prio == 10
  {
  }
}
