/** The task calls keep every invariant. */
module TaskProofs {
  import opened Sequences
  import opened KernelState
  import opened Sched
  import opened SchedProofs
  import opened Invariants
  import Task

  /** The state invariant between kernel calls. */
  ghost predicate KernelOK(k: Kernel) {
    Settled(k) && ObjectsOK(k)
  }

  /** The part of it that holds before the scheduler is started, too. */
  ghost predicate Sound(k: Kernel) {
    SchedOK(k) && ObjectsOK(k)
  }

  lemma KernelSound(k: Kernel)
    requires KernelOK(k)
    ensures Sound(k) && IdleMade(k)
  {
  }

  lemma RunInRange(k: Kernel)
    requires KernelOK(k)
    ensures k.run < |k.tcbs|
  {
  }

  /** What every kernel call guarantees: either the caller can go on, or it has asked for a switch that will happen. */
  ghost predicate CallOK(k: Kernel, o: Out) {
    && SchedOK(o.k) && Switchable(o.k) && ObjectsOK(o.k) && o.k.now == k.now && o.k.cfg == k.cfg
    && (if o.ret == Waiting then o.sched && o.k.lock == 0 else Runnable(o.k) && o.k.run == k.run)
  }

  lemma KernelShape(k: Kernel)
    requires KernelOK(k)
    ensures Shape(k) && SchedOK(k)
  {
  }

  lemma Unchanged(k: Kernel, o: Out)
    requires KernelOK(k) && o.k == k && o.ret != Waiting
    ensures CallOK(k, o)
  {
    SettledSwitchable(k);
  }

  /** What a call that does not concern the running task guarantees, whoever is running. */
  ghost predicate Kept(k: Kernel, o: Out) {
    && SchedOK(o.k) && ObjectsOK(o.k) && o.k.run == k.run && o.k.now == k.now && o.k.cfg == k.cfg
    && o.k.lock == k.lock && o.ret != Waiting && |o.k.tcbs| == |k.tcbs|
    && (k.run < |k.tcbs| ==> o.k.tcbs[k.run] == k.tcbs[k.run])
    && (IdleMade(k) ==> IdleMade(o.k))
  }

  lemma KeptGoes(k: Kernel, o: Out)
    requires KernelOK(k) && Kept(k, o)
    ensures CallOK(k, o)
  {
    SettledSwitchable(k);
    hide SchedOK, ObjectsOK;
  }

  /** A call that only changes a task other than the running one, or leaves the running one able to run. */
  lemma Goes(k: Kernel, o: Out)
    requires KernelOK(k) && SchedOK(o.k) && ObjectsOK(o.k) && o.k.run == k.run && o.k.now == k.now && o.k.cfg == k.cfg
    requires o.k.tcbs[k.run].st == k.tcbs[k.run].st && o.ret != Waiting && IdleMade(o.k)
    ensures CallOK(k, o)
  {
    SettledSwitchable(k);
  }

  /** A task that waits for nothing becomes ready. */
  lemma ResumedOK(k: Kernel, t: nat)
    requires KernelOK(k) && t < k.cfg.tasks && var f := k.tcbs[t].st; !f.unused && f.suspend && !f.delay && !f.pend
    ensures var k1 := SetTcb(k, t, k.tcbs[t].(st := k.tcbs[t].st.(suspend := false)));
            SchedOK(EnQueue(k1, t)) && Quiet(k, EnQueue(k1, t))
  {
    var c := k.tcbs[t];
    assert TaskOK(k, t);
    var c1 := c.(st := c.st.(suspend := false));
    var k1 := SetTcb(k, t, c1);
    SetTcbEffect(k, t, c1);
    forall l ensures !On(k, l, t) {
      assert On(k, l, t) ==> Home(l, c, false);
    }
    ReadyOK(k, k1, t);
    EnQueueQuiet(k1, t);
    hide EnQueue;
  }

  lemma ResumeOK(k: Kernel, t: nat)
    requires KernelOK(k)
    ensures CallOK(k, Task.Resume(k, t))
  {
    var o := Task.Resume(k, t);
    if t < k.cfg.tasks && !k.tcbs[t].st.unused && k.tcbs[t].st.suspend {
      var c := k.tcbs[t];
      assert TaskOK(k, t);
      var c1 := c.(st := c.st.(suspend := false));
      var k1 := SetTcb(k, t, c1);
      SetTcbEffect(k, t, c1);
      if c.st.delay || c.st.pend {
        assert Placed(k1, t);
        OneTaskStep(k, k1, t);
        QuietObjects(k, k1);
      } else {
        ResumedOK(k, t);
        QuietObjects(k, o.k);
      }
      Goes(k, o);
    } else {
      Unchanged(k, o);
    }
  }

  lemma SuspendSched(k: Kernel, t: Tid, c: Tcb)
    requires Settled(k) && t < k.cfg.tasks && t != k.cfg.idle && !k.tcbs[t].st.unused
    requires c == DeQueue(k, t).tcbs[t].(st := DeQueue(k, t).tcbs[t].st.(suspend := true))
    ensures SchedOK(SetTcb(DeQueue(k, t), t, c))
  {
    assert TaskOK(k, t);
    DeQueueEffect(k, t);
    var k1 := DeQueue(k, t);
    SetTcbEffect(k1, t, c);
    var k2 := SetTcb(k1, t, c);
    OthersSameTrans(k, k1, k2, t);
    assert Placed(k2, t);
    OneTaskStep(k, k2, t);
  }

  lemma SuspendOK(k: Kernel, t: nat)
    requires KernelOK(k)
    ensures CallOK(k, Task.Suspend(k, t))
  {
    var o := Task.Suspend(k, t);
    if o.ret.Fail? {
      Unchanged(k, o);
    } else {
      assert TaskOK(k, t);
      SuspendSched(k, t, o.k.tcbs[t]);
      DeQueueQuiet(k, t);
      QuietObjects(k, o.k);
      SettledSwitchable(k);
    }
  }

  lemma YieldOK(k: Kernel)
    requires KernelOK(k)
    ensures CallOK(k, Task.Yield(k))
  {
    var o := Task.Yield(k);
    assert TaskOK(k, k.run);
    SetTcbEffect(k, k.run, o.k.tcbs[k.run]);
    assert Placed(o.k, k.run);
    OneTaskStep(k, o.k, k.run);
    QuietObjects(k, o.k);
    Goes(k, o);
  }

  lemma DelayOK(k: Kernel, ticks: nat, inInt: bool)
    requires KernelOK(k) && (ticks > 0 && !inInt ==> k.run != k.cfg.idle && k.tcbs[k.run].call.NoCall?)
    ensures CallOK(k, Task.Delay(k, ticks, inInt))
  {
    var o := Task.Delay(k, ticks, inInt);
    if o.ret.Fail? {
      Unchanged(k, o);
    } else if ticks == 0 {
      YieldOK(k);
    } else {
      assert TaskOK(k, k.run);
      SetTcbEffect(k, k.run, o.k.tcbs[k.run]);
      assert Placed(o.k, k.run);
      OneTaskStep(k, o.k, k.run);
      QuietObjects(k, o.k);
    }
  }

  lemma PriSetOK(k: Kernel, t: nat, prio: nat)
    requires KernelOK(k)
    ensures CallOK(k, Task.PriSet(k, t, prio))
  {
    var o := Task.PriSet(k, t, prio);
    if o.ret.Fail? {
      Unchanged(k, o);
    } else {
      ModifyPrioOK(k, t, prio);
      ModifyPrioFrame(k, t, prio);
      QuietObjects(k, o.k);
      Goes(k, o);
    }
  }

  /** The scheduler invariant does not depend on the lock count or the objects. */
  lemma SameTasksOK(k: Kernel, k': Kernel)
    requires SchedOK(k) && k'.cfg == k.cfg && k'.tcbs == k.tcbs && k'.run == k.run && k'.now >= k.now
    requires k'.timers == k.timers && forall l :: At(k'.lists, l) == At(k.lists, l)
    ensures SchedOK(k')
  {
    TimersUnmoved(k, k');
    assert forall l, x: Tid :: On(k', l, x) <==> On(k, l, x);
    forall x | 0 <= x < k.cfg.tasks ensures TaskOK(k', x) {
      StillOK(k, k', x);
    }
  }

  lemma LockOK(k: Kernel, o: Out)
    requires KernelOK(k) && o.k == k.(lock := o.k.lock) && o.ret == Ok
    ensures CallOK(k, o)
  {
    SameTasksOK(k, o.k);
    QuietObjects(k, o.k);
    Goes(k, o);
  }

  // ---- Creation, deletion, recycling ----

  lemma RecycleStepOK(k: Kernel)
    requires SchedOK(k) && At(k.lists, RecycleList) != []
    ensures var t := At(k.lists, RecycleList)[0];
            var k' := k.(lists := PushFront(Unlink(k.lists, t), FreeList, t));
            SchedOK(k') && Quiet(k, k')
  {
    var t := At(k.lists, RecycleList)[0];
    assert On(k, RecycleList, t);
    assert TaskOK(k, t);
    OffWaitLists(k, t);
    var k1 := k.(lists := Unlink(k.lists, t));
    UnlinkEffect(k, t);
    PushEffect(k1, FreeList, t, true);
    var k2 := k1.(lists := PushFront(k1.lists, FreeList, t));
    OthersSameTrans(k, k1, k2, t);
    assert Placed(k2, t);
    OneTaskStep(k, k2, t);
    forall l: ListId | l.IsWait() ensures At(k2.lists, l) == At(k.lists, l) {
      assert At(k1.lists, l) == Drop(At(k.lists, l), t);
    }
  }

  lemma QuietTrans(k: Kernel, k1: Kernel, k2: Kernel)
    requires Quiet(k, k1) && Quiet(k1, k2)
    ensures Quiet(k, k2)
  {
  }

  /** Recycling empties the list of finished tasks and changes no task. */
  lemma {:induction false} RecycleOK(k: Kernel)
    requires SchedOK(k)
    ensures var k' := Task.Recycle(k);
            && SchedOK(k') && Quiet(k, k') && k'.run == k.run && k'.now == k.now && k'.lock == k.lock
               && k'.timers == k.timers
            && At(k'.lists, RecycleList) == []
    decreases |At(k.lists, RecycleList)|
  {
    var done := At(k.lists, RecycleList);
    if done != [] {
      RecycleStepOK(k);
      var k1 := k.(lists := PushFront(Unlink(k.lists, done[0]), FreeList, done[0]));
      assert At(k1.lists, RecycleList) == Drop(done, done[0]);
      RecycleOK(k1);
      QuietTrans(k, k1, Task.Recycle(k));
    }
  }

  lemma RecycleCallOK(k: Kernel)
    requires KernelOK(k)
    ensures CallOK(k, Out(Task.Recycle(k), Ok, false))
  {
    RecycleOK(k);
    QuietObjects(k, Task.Recycle(k));
    Goes(k, Out(Task.Recycle(k), Ok, false));
  }

  lemma FreeHead(k: Kernel)
    requires SchedOK(k) && At(k.lists, FreeList) != []
    ensures var t := At(k.lists, FreeList)[0];
            && t < k.cfg.tasks && (IdleMade(k) ==> t != k.cfg.idle) && k.tcbs[t].st.unused && t != k.run
            && TaskOK(k, t)
            && !Timed(k, t) && (forall l: ListId :: l.IsWait() ==> t !in At(k.lists, l))
  {
    var t := At(k.lists, FreeList)[0];
    assert On(k, FreeList, t);
    assert TaskOK(k, t);
    OffWaitLists(k, t);
  }

  /** A control block is taken off the free list and becomes a suspended task. */
  lemma BirthOK(k: Kernel, prio: nat)
    requires SchedOK(k) && ObjectsOK(k) && At(k.lists, FreeList) != [] && prio <= LOWEST
    requires At(k.lists, FreeList)[0] != k.cfg.idle
    ensures var t := At(k.lists, FreeList)[0];
            && t < k.cfg.tasks && t != k.run && k.tcbs[t].st.unused
            && var k' := SetTcb(k.(lists := Unlink(k.lists, t)), t, Task.Fresh(k.tcbs[t], prio));
               && SchedOK(k') && ObjectsOK(k') && OnNone(k', t) && !Timed(k', t) && OthersSame(k, k', t)
  {
    FreeHead(k);
    var t := At(k.lists, FreeList)[0];
    var k1 := k.(lists := Unlink(k.lists, t));
    UnlinkEffect(k, t);
    var c := Task.Fresh(k.tcbs[t], prio);
    var k2 := SetTcb(k1, t, c);
    SetTcbEffect(k1, t, c);
    OthersSameTrans(k, k1, k2, t);
    assert Placed(k2, t);
    OneTaskStep(k, k2, t);
    LeavesObjects(k, k2, t);
  }

  /** The free list is not disturbed when its head is taken off and put back for want of stack memory. */
  lemma PutBack(k: Kernel)
    requires SchedOK(k) && At(k.lists, FreeList) != []
    ensures var t := At(k.lists, FreeList)[0];
            forall l :: At(PushFront(Unlink(k.lists, t), FreeList, t), l) == At(k.lists, l)
  {
    FreeHead(k);
    var free := At(k.lists, FreeList);
    var t := free[0];
    var m := Unlink(k.lists, t);
    forall l | l != FreeList ensures At(m, l) == At(k.lists, l) {
      assert On(k, FreeList, t);
      assert !On(k, l, t) by {
        assert On(k, l, t) ==> Home(l, k.tcbs[t], false);
      }
    }
    DropHead(free);
  }

  lemma DropHead(s: seq<Tid>)
    requires NoDup(s) && s != []
    ensures [s[0]] + Drop(s, s[0]) == s
  {
    DropAt(s, 0);
    assert s[..0] + s[1..] == s[1..];
  }

  /** The block that a creation takes for good is not the one of the idle task. */
  predicate SparesIdle(k: Kernel, prio: nat, memory: bool) {
    var free := At(Task.Recycle(k).lists, FreeList);
    prio < LOWEST && memory && free != [] ==> free[0] != k.cfg.idle
  }

  lemma MadeSpared(k: Kernel, prio: nat, memory: bool)
    requires SchedOK(k) && IdleMade(k)
    ensures SparesIdle(k, prio, memory)
  {
    RecycleOK(k);
    if At(Task.Recycle(k).lists, FreeList) != [] {
      FreeHead(Task.Recycle(k));
    }
  }

  /** A block taken for a new task is suspended and on no list; no other block changes. */
  ghost predicate Newborn(k: Kernel, o: Out, prio: nat) {
    o.ret.Id? ==> var t := o.ret.id;
      && t < k.cfg.tasks && t < |o.k.tcbs| && t < |k.tcbs| && t != o.k.run && t != k.cfg.idle
      && OnNone(o.k, t) && !Timed(o.k, t)
      && o.k.tcbs[t].st == NO_FLAGS.(suspend := true) && o.k.tcbs[t].prio == prio < LOWEST
      && k.tcbs[t].st.unused
  }

  lemma NewbornUnused(k: Kernel, o: Out, prio: nat)
    requires Newborn(k, o, prio) && o.ret.Id?
    ensures o.ret.id < k.cfg.tasks && o.ret.id < |k.tcbs| && k.tcbs[o.ret.id].st.unused
  {
  }

  lemma PutBackKept(k: Kernel)
    requires SchedOK(k) && ObjectsOK(k) && At(k.lists, FreeList) != []
    ensures var t := At(k.lists, FreeList)[0];
            var k' := k.(lists := PushFront(Unlink(k.lists, t), FreeList, t));
            SchedOK(k') && ObjectsOK(k')
  {
    PutBack(k);
    var t := At(k.lists, FreeList)[0];
    var k' := k.(lists := PushFront(Unlink(k.lists, t), FreeList, t));
    SameTasksOK(k, k');
    QuietObjects(k, k');
  }

  lemma CreateOnlyKept(k: Kernel, prio: nat, memory: bool)
    requires SchedOK(k) && ObjectsOK(k) && SparesIdle(k, prio, memory)
    ensures Members(Task.Recycle(k), FreeList)
    ensures var o := Task.CreateOnly(k, prio, memory); Kept(k, o) && Newborn(k, o, prio)
  {
    hide *;
    RecycledSound(k);
    CreateOnlyIs(k, prio, memory);
    var k1 := Task.Recycle(k);
    var free := At(k1.lists, FreeList);
    if prio >= LOWEST || free == [] {
      RefusedKept(k, Task.CreateOnly(k, prio, memory), prio);
    } else if !memory {
      PutBackKept(k1);
      RefusedKept(k, Task.CreateOnly(k, prio, memory), prio);
    } else {
      SparedHead(k, prio, memory);
      BirthOK(k1, prio);
      BornKept(k, k1, free[0], prio);
    }
  }

  lemma SparedHead(k: Kernel, prio: nat, memory: bool)
    requires SparesIdle(k, prio, memory) && prio < LOWEST && memory && At(Task.Recycle(k).lists, FreeList) != []
    ensures At(Task.Recycle(k).lists, FreeList)[0] != k.cfg.idle
  {
  }

  lemma RefusedKept(k: Kernel, o: Out, prio: nat)
    requires SchedOK(o.k) && ObjectsOK(o.k) && o.k == k.(lists := o.k.lists) && o.ret.Fail?
    ensures Kept(k, o) && Newborn(k, o, prio)
  {
    hide SchedOK, ObjectsOK;
  }

  lemma BornKept(k: Kernel, k1: Kernel, t: Tid, prio: nat)
    requires k1 == k.(lists := k1.lists) && t < k.cfg.tasks && t < |k.tcbs| && t != k.run && t != k.cfg.idle
    requires k.tcbs[t].st.unused && prio < LOWEST
    requires var k' := SetTcb(k1.(lists := Unlink(k1.lists, t)), t, Task.Fresh(k1.tcbs[t], prio));
             SchedOK(k') && ObjectsOK(k') && OnNone(k', t) && !Timed(k', t)
    ensures var o := Out(SetTcb(k1.(lists := Unlink(k1.lists, t)), t, Task.Fresh(k1.tcbs[t], prio)), Id(t), false);
            Kept(k, o) && Newborn(k, o, prio)
  {
    hide SchedOK, ObjectsOK, Unlink, OnNone, Timed;
  }

  lemma CreateOnlyIs(k: Kernel, prio: nat, memory: bool)
    requires Members(Task.Recycle(k), FreeList)
    ensures var o, k1 := Task.CreateOnly(k, prio, memory), Task.Recycle(k);
            var free := At(k1.lists, FreeList);
            if prio >= LOWEST then o.k == k && o.ret.Fail?
            else if free == [] then o.k == k1 && o.ret.Fail?
            else if !memory then
              o.k == k1.(lists := PushFront(Unlink(k1.lists, free[0]), FreeList, free[0])) && o.ret.Fail?
            else
              && free[0] < |k1.tcbs| && var t := free[0];
              o == Out(SetTcb(k1.(lists := Unlink(k1.lists, t)), t, Task.Fresh(k1.tcbs[t], prio)), Id(t), false)
  {
    hide Task.Recycle, Unlink, PushFront, Task.Fresh, SetTcb;
    var free := At(Task.Recycle(k).lists, FreeList);
    assert free != [] ==> free[0] in free;
  }

  lemma RecycledSound(k: Kernel)
    requires SchedOK(k) && ObjectsOK(k)
    ensures var k1 := Task.Recycle(k);
            && SchedOK(k1) && ObjectsOK(k1) && Members(k1, FreeList)
            && k1 == k.(lists := k1.lists) && k1.cfg.tasks <= |k1.tcbs|
  {
    RecycleOK(k);
    var k1 := Task.Recycle(k);
    QuietObjects(k, k1);
    forall t | t in At(k1.lists, FreeList) ensures t < |k1.tcbs| {
      assert On(k1, FreeList, t);
    }
  }

  lemma CreateOnlyOK(k: Kernel, prio: nat, memory: bool)
    requires KernelOK(k)
    ensures Members(Task.Recycle(k), FreeList)
    ensures var o := Task.CreateOnly(k, prio, memory); CallOK(k, o) && Newborn(k, o, prio)
  {
    hide SchedOK, ObjectsOK, Task.CreateOnly, Newborn, SparesIdle, CallOK, Kept;
    MadeSpared(k, prio, memory);
    CreateOnlyKept(k, prio, memory);
    KeptGoes(k, Task.CreateOnly(k, prio, memory));
  }

  lemma CreateKept(k: Kernel, prio: nat, memory: bool)
    requires SchedOK(k) && ObjectsOK(k) && SparesIdle(k, prio, memory)
    ensures Members(Task.Recycle(k), FreeList)
    ensures Kept(k, Task.Create(k, prio, memory))
  {
    CreateOnlyKept(k, prio, memory);
    var o := Task.CreateOnly(k, prio, memory);
    hide Task.CreateOnly, SparesIdle, ObjectsOK;
    if o.ret.Id? {
      var t := o.ret.id;
      assert TaskOK(o.k, t);
      ReadyOK(o.k, o.k, t);
      EnQueueQuiet(o.k, t);
      QuietObjects(o.k, EnQueue(o.k, t));
      EnQueueOthers(o.k, t);
      hide EnQueue, SchedOK;
    }
  }

  lemma EnQueueOthers(k: Kernel, t: Tid)
    requires t < |k.tcbs| && t != k.run
    ensures k.run < |k.tcbs| ==> EnQueue(k, t).tcbs[k.run] == k.tcbs[k.run]
    ensures IdleMade(k) ==> IdleMade(EnQueue(k, t))
    ensures EnQueue(k, t).lock == k.lock
  {
  }

  lemma CreateOK(k: Kernel, prio: nat, memory: bool)
    requires KernelOK(k)
    ensures Members(Task.Recycle(k), FreeList)
    ensures CallOK(k, Task.Create(k, prio, memory))
  {
    hide SchedOK, ObjectsOK, Task.Create, SparesIdle, CallOK, Kept;
    MadeSpared(k, prio, memory);
    CreateKept(k, prio, memory);
    KeptGoes(k, Task.Create(k, prio, memory));
  }

  /** A task may be deleted when it owns no mutex and is not between being woken and finishing a queue call. */
  ghost predicate Deletable(k: Kernel, t: Tid)
    requires t < |k.tcbs|
  {
    && (forall m :: 0 <= m < |k.obj.muxes| && k.obj.muxes[m].count > 0 ==> k.obj.muxes[m].owner != Some(t))
    && (forall q, r :: !InFlight(k.tcbs[t], q, r))
  }

  /** Off every list, then onto list `l` as an unused control block. */
  function Bury(k: Kernel, t: Tid, l: ListId): Kernel
    requires t < |k.tcbs|
  {
    var k1 := Exit(k, t);
    var k2 := SetTcb(k1, t, Task.Buried(k1.tcbs[t]));
    k2.(lists := if l == FreeList then PushFront(k2.lists, l, t) else PushBack(k2.lists, l, t))
  }

  lemma BuryEffect(k: Kernel, t: Tid, l: ListId)
    requires SchedOK(k) && t < k.cfg.tasks && t != k.cfg.idle && !k.tcbs[t].st.unused && !l.IsWait()
    ensures var k' := Bury(k, t, l);
            && OthersSame(k, k', t) && ListsOK(k') && (forall m :: On(k', m, t) <==> m == l) && !Timed(k', t)
            && Leaves(k, k', t) && k'.tcbs[t] == Task.Buried(k.tcbs[t])
  {
    ExitOK(k, t);
    var k1 := Exit(k, t);
    var c := Task.Buried(k1.tcbs[t]);
    var k2 := SetTcb(k1, t, c);
    SetTcbEffect(k1, t, c);
    PushEffect(k2, l, t, l == FreeList);
    OthersSameTrans(k, k1, k2, t);
    OthersSameTrans(k, k2, Bury(k, t, l), t);
    BuryLeaves(k, k1, t, l);
  }

  lemma BuryLeaves(k: Kernel, k1: Kernel, t: Tid, l: ListId)
    requires t < |k.tcbs| && k1 == Exit(k, t) && Leaves(k, k1, t) && !l.IsWait()
    ensures Leaves(k, Bury(k, t, l), t)
  {
    var k' := Bury(k, t, l);
    forall m: ListId | m.IsWait() ensures At(k'.lists, m) == Drop(At(k.lists, m), t) {
      assert m != l;
    }
  }

  lemma BuriedHarmless(k: Kernel, k': Kernel, t: Tid)
    requires t < |k.tcbs| && t < |k'.tcbs| && Deletable(k, t) && k'.tcbs[t] == Task.Buried(k.tcbs[t])
    ensures Harmless(k, k', t)
  {
  }

  lemma DeleteOtherOK(k: Kernel, t: Tid)
    requires KernelOK(k) && t < k.cfg.tasks && t != k.cfg.idle && t != k.run && !k.tcbs[t].st.unused && Deletable(k, t)
    ensures var k' := Bury(k, t, FreeList);
            && SchedOK(k') && ObjectsOK(k') && k'.run == k.run && k'.now == k.now && k'.cfg == k.cfg
            && k'.tcbs[k.run] == k.tcbs[k.run] && IdleMade(k')
  {
    var k' := Bury(k, t, FreeList);
    assert TaskOK(k, t);
    BuryEffect(k, t, FreeList);
    assert Placed(k', t);
    OneTaskStep(k, k', t);
    BuriedHarmless(k, k', t);
    LeavesObjects(k, k', t);
  }

  /** A running task that deletes itself leaves the processor to the stand-in block. */
  lemma DeleteSelfOK(k: Kernel)
    requires KernelOK(k) && k.run != k.cfg.idle && Deletable(k, k.run)
    ensures var k' := Task.StandIn(Bury(k, k.run, RecycleList));
            SchedOK(k') && Switchable(k') && !Runnable(k')
  {
    var t := k.run;
    assert TaskOK(k, t);
    BuryEffect(k, t, RecycleList);
    var k1 := Bury(k, t, RecycleList);
    var k' := Task.StandIn(k1);
    TimersUnmoved(k1, k');
    assert forall l, x: Tid :: On(k', l, x) <==> On(k1, l, x);
    forall x | 0 <= x < k.cfg.tasks && x != t ensures TaskOK(k', x) {
      StillOK(k, k', x);
    }
    assert Placed(k', t);
    assert TaskOK(k', t);
  }

  lemma DeleteSelfObjects(k: Kernel)
    requires KernelOK(k) && k.run != k.cfg.idle && Deletable(k, k.run)
    ensures Shape(Task.StandIn(Bury(k, k.run, RecycleList))) && ObjectsOK(Task.StandIn(Bury(k, k.run, RecycleList)))
  {
    var t := k.run;
    assert TaskOK(k, t);
    BuryEffect(k, t, RecycleList);
    var k1 := Bury(k, t, RecycleList);
    BuriedHarmless(k, k1, t);
    LeavesObjects(k, k1, t);
    forall e: nat, x: Tid | x in At(k1.lists, EventList(e)) ensures x < k.cfg.tasks {
      assert On(k1, EventList(e), x);
    }
    StandInObjects(k1);
  }

  lemma StandInObjects(k: Kernel)
    requires Shape(k) && ObjectsOK(k)
    requires forall e: nat, t: Tid :: t in At(k.lists, EventList(e)) ==> t < k.cfg.tasks
    ensures ObjectsOK(Task.StandIn(k))
  {
    var k' := Task.StandIn(k);
    forall e: nat ensures EventOK(k', e) {
      assert EventOK(k, e);
    }
    forall q: nat ensures QueueOK(k', q) {
      assert QueueOK(k, q);
      FlightSame(k, k', q, true);
      FlightSame(k, k', q, false);
    }
    forall m | 0 <= m < |k.obj.muxes| ensures MuxOK(k', k'.obj.muxes[m], At(k'.lists, MuxList(m))) {
      assert MuxOK(k, k.obj.muxes[m], At(k.lists, MuxList(m)));
    }
  }

  lemma DeleteOK(k: Kernel, t: nat)
    requires KernelOK(k)
    requires t < k.cfg.tasks ==> Deletable(k, t)
    ensures CallOK(k, Task.Delete(k, t))
  {
    var o := Task.Delete(k, t);
    if o.ret.Fail? {
      Unchanged(k, o);
    } else {
      RunsIff(k, t);
      if t == k.run {
        SelfDeleted(k, o);
      } else {
        OtherDeleted(k, t, o);
      }
    }
    hide KernelOK, CallOK, Exit, Task.StandIn, Task.Buried, PushBack, PushFront;
  }

  lemma RunsIff(k: Kernel, t: Tid)
    requires KernelOK(k) && t < k.cfg.tasks
    ensures t < |k.tcbs| && k.tcbs[t].st.running == (t == k.run)
  {
    assert TaskOK(k, t);
  }

  lemma Relocked(k: Kernel, lock: nat)
    requires KernelOK(k)
    ensures KernelOK(k.(lock := lock))
  {
    SameTasksOK(k, k.(lock := lock));
    QuietObjects(k, k.(lock := lock));
  }

  lemma SelfDeleted(k: Kernel, o: Out)
    requires KernelOK(k) && k.run != k.cfg.idle && k.run < k.cfg.tasks && Deletable(k, k.run)
    requires o == Out(Task.StandIn(Bury(k.(lock := 0), k.run, RecycleList)), Waiting, true)
    ensures CallOK(k, o)
  {
    Relocked(k, 0);
    DeleteSelfOK(k.(lock := 0));
    DeleteSelfObjects(k.(lock := 0));
    hide KernelOK, SchedOK, ObjectsOK, Exit;
  }

  lemma OtherDeleted(k: Kernel, t: Tid, o: Out)
    requires KernelOK(k) && t < k.cfg.tasks && t != k.cfg.idle && t != k.run && !k.tcbs[t].st.unused && Deletable(k, t)
    requires o == Out(Bury(k, t, FreeList), Ok, false)
    ensures CallOK(k, o)
  {
    hide SchedOK, ObjectsOK, Bury;
    DeleteOtherOK(k, t);
    Goes(k, o);
  }

  // ---- The block of a new task ----

  lemma OneFreshBlock(k: Kernel, prio: nat, memory: bool)
    requires forall t :: t in At(Task.Recycle(k).lists, FreeList) ==> t < |k.tcbs|
    ensures OneBlock(k, Task.CreateOnly(k, prio, memory), prio)
  {
    FreshBlock(k, prio, memory);
    hide Task.CreateOnly, Task.Recycle;
  }

  lemma FreshBlock(k: Kernel, prio: nat, memory: bool)
    requires forall t :: t in At(Task.Recycle(k).lists, FreeList) ==> t < |k.tcbs|
    ensures var o := Task.CreateOnly(k, prio, memory);
            && o.k.cfg == k.cfg
            && if o.ret.Id? then o.ret.id < |k.tcbs|
               && o.k.tcbs == k.tcbs[o.ret.id := Task.Fresh(k.tcbs[o.ret.id], prio)]
               else o.k.tcbs == k.tcbs
  {
    RecycleCfg(k);
    var free := At(Task.Recycle(k).lists, FreeList);
    if free != [] {
      assert free[0] in free;
    }
    hide Task.Recycle, Task.Fresh, Unlink, PushFront;
  }

  lemma OneNewBlock(k: Kernel, prio: nat, memory: bool)
    requires forall t :: t in At(Task.Recycle(k).lists, FreeList) ==> t < |k.tcbs|
    ensures OneBlock(k, Task.Create(k, prio, memory), prio)
    ensures OneBlock(k, Task.CreateOnly(k, prio, memory), prio)
    ensures Task.Create(k, prio, memory).ret == Task.CreateOnly(k, prio, memory).ret
  {
    OneFreshBlock(k, prio, memory);
    var o := Task.CreateOnly(k, prio, memory);
    hide Task.CreateOnly, Task.Recycle, EnQueue;
    if o.ret.Id? && o.ret.id < |o.k.tcbs| {
      EnQueueOne(o.k, o.ret.id);
    }
  }

  /** In use, and not inside any call. */
  predicate Born(c: Tcb) {
    !c.st.unused && c.call.NoCall? && !c.st.pend && !c.st.timeout
  }

  /** At most the block of the new task has changed. */
  ghost predicate OneBlock(k: Kernel, o: Out, prio: nat) {
    && |o.k.tcbs| == |k.tcbs| && o.k.cfg == k.cfg
    && if o.ret.Id? then
         && o.ret.id < |k.tcbs| && o.k.tcbs[o.ret.id].prio == prio && Born(o.k.tcbs[o.ret.id])
         && (forall x :: 0 <= x < |k.tcbs| && x != o.ret.id ==> o.k.tcbs[x] == k.tcbs[x])
       else o.k.tcbs == k.tcbs
  }

  lemma EnQueueOne(k: Kernel, t: Tid)
    requires t < |k.tcbs|
    ensures EnQueue(k, t).tcbs[t].prio == k.tcbs[t].prio
    ensures Born(k.tcbs[t]) ==> Born(EnQueue(k, t).tcbs[t])
    ensures forall x :: 0 <= x < |k.tcbs| && x != t ==> EnQueue(k, t).tcbs[x] == k.tcbs[x]
  {
    EnQueueBlock(k, t);
    hide EnQueue;
  }

  lemma EnQueueBlock(k: Kernel, t: Tid)
    requires t < |k.tcbs|
    ensures var c, c' := k.tcbs[t], EnQueue(k, t).tcbs[t];
            && EnQueue(k, t).tcbs == k.tcbs[t := c']
            && c'.prio == c.prio && c'.st.unused == c.st.unused && c'.call == c.call && c'.st.timeout == c.st.timeout
               && !c'.st.pend
  {
    hide PushFront, PushBack;
  }

  lemma {:induction false} RecycleCfg(k: Kernel)
    ensures Task.Recycle(k).cfg == k.cfg
    decreases |At(k.lists, RecycleList)|
  {
    var done := At(k.lists, RecycleList);
    if done != [] {
      var k1 := k.(lists := PushFront(Unlink(k.lists, done[0]), FreeList, done[0]));
      assert |At(k1.lists, RecycleList)| == |Drop(done, done[0])| < |done|;
      RecycleCfg(k1);
    }
  }

  // ---- The tick ----

  lemma ScanStepObjects(k: Kernel)
    requires SchedOK(k) && ObjectsOK(k) && k.timers != []
    ensures k.timers[0].id < |k.tcbs| && SchedOK(ScanStep(k)) && ObjectsOK(ScanStep(k))
  {
    ScanStepOK(k);
    HeadTimed(k);
    LeavesObjects(k, ScanStep(k), k.timers[0].id);
  }

  lemma {:induction false} ScanObjects(k: Kernel, now: nat)
    requires SchedOK(k) && ObjectsOK(k)
    ensures Scannable(k)
    ensures SchedOK(ScanTimers(k, now).0) && ObjectsOK(ScanTimers(k, now).0)
    decreases |k.timers|
  {
    ScanUnfold(k, now);
    if HeadDue(k, now) {
      ScanStepOK(k);
      ScanStepObjects(k);
      ScanObjects(ScanStep(k), now);
    }
  }

  lemma TickOK(k: Kernel, scanAt: nat, now: nat, scan: bool)
    requires KernelOK(k) && k.now <= scanAt <= now
    ensures Scannable(k)
    ensures CallOK(k.(now := now), Task.Tick(k, scanAt, now, scan))
  {
    SchedScannable(k);
    ScanOK(k, scanAt);
    ScanObjects(k, scanAt);
    ScanIdle(k, scanAt);
    var k1 := if scan then ScanTimers(k, scanAt).0 else k;
    hide ScanTimers, SchedOK, ObjectsOK, Scannable;
    LaterOK(k, now);
    ClockOK(k1, now);
    ChargedOK(k1, now);
    Goes(k.(now := now), Task.Tick(k, scanAt, now, scan));
  }

  lemma LaterOK(k: Kernel, now: nat)
    requires KernelOK(k) && k.now <= now
    ensures KernelOK(k.(now := now))
  {
    SameTasksOK(k, k.(now := now));
    QuietObjects(k, k.(now := now));
  }

  lemma ClockOK(k: Kernel, now: nat)
    requires SchedOK(k) && ObjectsOK(k) && k.now <= now
    ensures SchedOK(k.(now := now)) && ObjectsOK(k.(now := now))
  {
    SameTasksOK(k, k.(now := now));
    QuietObjects(k, k.(now := now));
  }

  lemma ChargedOK(k: Kernel, now: nat)
    requires SchedOK(k) && ObjectsOK(k) && k.now <= now && k.run < |k.tcbs|
    ensures var k' := ChargeSlice(k, now);
            && SchedOK(k') && ObjectsOK(k') && k'.run == k.run && k'.now == now && k'.cfg == k.cfg
            && k'.tcbs[k.run].st == k.tcbs[k.run].st && (IdleMade(k) ==> IdleMade(k'))
  {
    ChargeSliceOK(k, now);
    QuietObjects(k, ChargeSlice(k, now));
  }

  /** The idle task stays alive through a scan. */
  lemma {:induction false} ScanIdle(k: Kernel, now: nat)
    requires SchedOK(k)
    ensures Scannable(k)
    ensures IdleMade(k) ==> IdleMade(ScanTimers(k, now).0)
    decreases |k.timers|
  {
    ScanUnfold(k, now);
    if HeadDue(k, now) {
      ScanStepOK(k);
      ScanIdle(ScanStep(k), now);
    }
  }
}
