/** The task calls on the kernel's globals: creation, deletion, suspension, delays and priorities. */
module TaskCode {
  import opened KernelState
  import opened Sched
  import opened TaskProofs
  import opened StatusWord
  import opened KernelObjects
  import opened SchedCode
  import opened SwitchCode
  import Task

  /** OS_CHECK_TASK_BLOCK */
  const BLOCKED: bv16 := 0x002A

  lemma TestBlocked(w: bv16)
    ensures Test(w, BLOCKED) <==> FlagsOf(w).delay || FlagsOf(w).pend || FlagsOf(w).suspend
  {
  }

  lemma TaskFacts(k: Kernel, t: Tid)
    requires KernelOK(k) && t < k.cfg.tasks
    ensures Homed(k, t) && t < |k.tcbs| && TcbAt(k, t) == k.tcbs[t]
    ensures var f := k.tcbs[t].st;
            && (f.pendTime ==> f.pend) && (f.suspend ==> !f.ready) && (f.running <==> t == k.run)
            && (t == k.cfg.idle ==> !f.suspend && !f.unused && !f.pend && !f.delay)
  {
    HomedNow(k, t);
    assert TaskOK(k, t);
  }

  /** LOS_TaskResume */
  method TaskResume(g: Globals, taskID: nat) returns (ret: Ret, sched: bool)
    requires g.Valid() && KernelOK(g.abs) == true
    modifies g.Parts()
    ensures g.Valid() && old(g.abs).cfg.tasks <= |old(g.abs).tcbs|
    ensures Out(g.abs, ret, sched) == Task.Resume(old(g.abs), taskID)
  {
    hide Globals.Valid, Globals.Parts, KernelOK, FlagsOf, Test, Set, Clear, EnQueue, Homed, Nowhere;
    ghost var k := g.abs;
    g.RunAt();
    if taskID >= g.cfg.tasks {
      return Fail(TaskIdInvalid), false;
    }
    g.TaskAt(taskID);
    TaskFacts(k, taskID);
    HomeFacts(k, taskID);
    var tempStatus := g.tasks[taskID].taskStatus;
    FlagTests(tempStatus);
    if Test(tempStatus, UNUSED) {
      return Fail(TaskNotCreated), false;
    } else if !Test(tempStatus, SUSPEND) {
      return Fail(TaskNotSuspended), false;
    }
    ClearIs(tempStatus);
    g.SetStatus(taskID, Clear(g.tasks[taskID].taskStatus, SUSPEND));
    g.TaskAt(taskID);
    TestBlocked(g.tasks[taskID].taskStatus);
    if !Test(g.tasks[taskID].taskStatus, BLOCKED) {
      SchedTaskEnQueue(g, taskID);
      return Ok, true;
    }
    return Ok, false;
  }

  /** LOS_TaskSuspend */
  method TaskSuspend(g: Globals, taskID: nat) returns (ret: Ret, sched: bool)
    requires g.Valid() && KernelOK(g.abs) == true
    modifies g.Parts()
    ensures g.Valid() && old(g.abs).cfg.tasks <= |old(g.abs).tcbs|
    ensures Out(g.abs, ret, sched) == Task.Suspend(old(g.abs), taskID)
  {
    hide Globals.Valid, Globals.Parts, KernelOK, FlagsOf, Test, Set, Clear, DeQueue, Homed, Nowhere;
    ghost var k := g.abs;
    g.RunAt();
    var check := Task.CheckTaskId(g.cfg, taskID);
    if check.Some? {
      return Fail(check.value), false;
    }
    g.TaskAt(taskID);
    TaskFacts(k, taskID);
    HomeFacts(k, taskID);
    var tempStatus := g.tasks[taskID].taskStatus;
    FlagTests(tempStatus);
    if Test(tempStatus, UNUSED) {
      return Fail(TaskNotCreated), false;
    }
    if Test(tempStatus, SUSPEND) {
      return Fail(TaskAlreadySuspended), false;
    }
    if Test(tempStatus, RUNNING) && g.taskLock != 0 {
      return Fail(TaskSuspendLocked), false;
    }
    DeQueueIs(k, taskID);
    if Test(tempStatus, READY) {
      SchedTaskDeQueue(g, taskID);
    }
    g.TaskAt(taskID);
    SetIs(g.tasks[taskID].taskStatus);
    g.SetStatus(taskID, Set(g.tasks[taskID].taskStatus, SUSPEND));
    g.RunAt();
    if taskID == g.runTask.taskID {
      return Waiting, true;
    }
    return Ok, false;
  }

  /** LOS_TaskYield */
  method TaskYield(g: Globals) returns (ret: Ret, sched: bool)
    requires g.Valid()
    modifies g.Parts()
    ensures g.Valid() && old(g.abs).run < |old(g.abs).tcbs| && Out(g.abs, ret, sched) == Task.Yield(old(g.abs))
  {
    hide Globals.Valid, Globals.Parts;
    g.RunAt();
    SchedYield(g);
    return Ok, true;
  }

  /** OsSchedDelay */
  method SchedDelay(g: Globals, tick: nat)
    requires g.Valid()
    modifies g.Parts()
    ensures g.Valid() && old(g.abs).run < |old(g.abs).tcbs| && g.abs == Delayed(old(g.abs), tick)
  {
    hide Globals.Valid, Globals.Parts, FlagsOf, Set, Test;
    ghost var k := g.abs;
    g.RunAt();
    var t := g.runTask.taskID;
    g.TaskAt(t);
    SetIs(g.tasks[t].taskStatus);
    ghost var a := k.tcbs[t].(st := k.tcbs[t].st.(delay := true));
    g.SetStatus(t, Set(g.tasks[t].taskStatus, DELAY));
    assert k.tcbs[t := a][t := a.(waitTicks := tick)] == k.tcbs[t := a.(waitTicks := tick)];
    g.SetWaitTimes(t, tick);
  }

  ghost function Delayed(k: Kernel, tick: nat): Kernel
    requires k.run < |k.tcbs|
  {
    var c := k.tcbs[k.run];
    SetTcb(k, k.run, c.(st := c.st.(delay := true), waitTicks := tick))
  }

  /** LOS_TaskDelay */
  method TaskDelay(g: Globals, tick: nat, inInt: bool) returns (ret: Ret, sched: bool)
    requires g.Valid()
    modifies g.Parts()
    ensures g.Valid() && old(g.abs).run < |old(g.abs).tcbs|
            && Out(g.abs, ret, sched) == Task.Delay(old(g.abs), tick, inInt)
  {
    hide Globals.Valid, Globals.Parts;
    g.RunAt();
    if inInt {
      return Fail(TaskDelayInInterrupt), false;
    }
    if g.taskLock != 0 {
      return Fail(TaskDelayInLock), false;
    }
    if tick == 0 {
      ret, sched := TaskYield(g);
      return;
    }
    SchedDelay(g, tick);
    return Waiting, true;
  }

  /** LOS_TaskPriSet */
  method TaskPriSet(g: Globals, taskID: nat, taskPrio: nat) returns (ret: Ret, sched: bool)
    requires g.Valid() && KernelOK(g.abs) == true
    modifies g.Parts()
    ensures g.Valid() && old(g.abs).cfg.tasks <= |old(g.abs).tcbs|
    ensures Out(g.abs, ret, sched) == Task.PriSet(old(g.abs), taskID, taskPrio)
  {
    hide Globals.Valid, Globals.Parts, KernelOK, FlagsOf, Test, ModifyPrio, Homed, Nowhere;
    ghost var k := g.abs;
    g.RunAt();
    if taskPrio > LOWEST {
      return Fail(TaskPriorityError), false;
    }
    var check := Task.CheckTaskId(g.cfg, taskID);
    if check.Some? {
      return Fail(check.value), false;
    }
    g.TaskAt(taskID);
    TaskFacts(k, taskID);
    FlagTests(g.tasks[taskID].taskStatus);
    if Test(g.tasks[taskID].taskStatus, UNUSED) {
      return Fail(TaskNotCreated), false;
    }
    var isReady := SchedModifyTaskSchedParam(g, taskID, taskPrio);
    return Ok, isReady;
  }

  /** LOS_TaskLock */
  method TaskLock(g: Globals) returns (ret: Ret, sched: bool)
    requires g.Valid()
    modifies g.Parts()
    ensures g.Valid() && Out(g.abs, ret, sched) == Task.Lock(old(g.abs))
  {
    hide Globals.Valid, Globals.Parts;
    g.RunAt();
    g.SetLock(g.taskLock + 1);
    return Ok, false;
  }

  /** LOS_TaskUnlock */
  method TaskUnlock(g: Globals) returns (ret: Ret, sched: bool)
    requires g.Valid()
    modifies g.Parts()
    ensures g.Valid() && Out(g.abs, ret, sched) == Task.Unlock(old(g.abs))
  {
    hide Globals.Valid, Globals.Parts;
    g.RunAt();
    if g.taskLock > 0 {
      g.SetLock(g.taskLock - 1);
      g.RunAt();
      if g.taskLock == 0 {
        return Ok, true;
      }
    }
    return Ok, false;
  }

  // ---- The life of a control block ----

  /** OsRecyleFinishedTask */
  method RecycleFinishedTask(g: Globals)
    requires g.Valid() && SchedOK(g.abs) == true
    modifies g.Parts()
    ensures g.Valid() && g.abs == Task.Recycle(old(g.abs)) && SchedOK(g.abs)
  {
    hide *;
    ghost var k := g.abs;
    HasFree(g);
    var empty := g.ListEmpty(RecycleList);
    while !empty
      invariant g.Valid() && SchedOK(g.abs)
      invariant Task.Recycle(k) == Task.Recycle(g.abs)
      invariant empty <==> At(g.abs.lists, RecycleList) == []
      decreases |At(g.abs.lists, RecycleList)|
    {
      RecycleRound(g.abs);
      HasFree(g);
      var t := g.ListFirst(RecycleList);
      g.RunAt();
      OffNowhere(g, t);
      g.ListDelete(t);
      OffNowhere(g, t);
      g.ListAdd(FreeList, t);
      empty := g.ListEmpty(RecycleList);
    }
    RecycleDone(g.abs);
  }

  lemma HasFree(g: Globals)
    ensures g.HasList(FreeList) && g.HasList(RecycleList)
  {
  }

  lemma RecycleRound(k: Kernel)
    requires SchedOK(k) && At(k.lists, RecycleList) != []
    ensures var t := At(k.lists, RecycleList)[0];
            var k' := k.(lists := PushFront(Unlink(k.lists, t), FreeList, t));
            && t < k.cfg.tasks && SchedCode.Waiting(k.lists, t) && Nowhere(Unlink(k.lists, t), t)
            && SchedOK(k') && Task.Recycle(k) == Task.Recycle(k')
            && |At(k'.lists, RecycleList)| < |At(k.lists, RecycleList)|
  {
    var t := At(k.lists, RecycleList)[0];
    RecycleStepOK(k);
    SchedCode.UnlinkedNowhere(k.lists, t);
    OnRecycle(k, t);
    hide SchedOK;
  }

  lemma OnRecycle(k: Kernel, t: Tid)
    requires SchedOK(k) && t in At(k.lists, RecycleList)
    ensures t < k.cfg.tasks && SchedCode.Waiting(k.lists, t)
  {
    assert On(k, RecycleList, t);
    assert TaskOK(k, t);
    forall p ensures t !in At(k.lists, ReadyList(p)) {
      assert On(k, ReadyList(p), t) ==> Home(ReadyList(p), k.tcbs[t], t == k.cfg.idle);
    }
  }

  lemma RecycleDone(k: Kernel)
    requires At(k.lists, RecycleList) == []
    ensures Task.Recycle(k) == k
  {
  }

  /** OsNewTaskInit */
  method NewTaskInit(g: Globals, t: Tid, prio: nat)
    requires g.Valid() && t < g.cfg.tasks
    modifies g.Parts()
    ensures g.Valid() && t < |old(g.abs).tcbs| && g.abs == SetTcb(old(g.abs), t, Task.Fresh(old(g.abs).tcbs[t], prio))
  {
    hide Globals.Valid, Globals.Parts, FlagsOf, Set, Clear;
    ghost var k := g.abs;
    g.TaskAt(t);
    Masks();
    g.SetStatus(t, SUSPEND);
    g.SetPriority(t, prio);
    g.SetSlice(t, 0);
    g.SetWaitTimes(t, 0);
    g.TaskAt(t);
    g.SetEvent(t, 0, g.tasks[t].eventMode);
    g.SetCall(t, NoCall);
    assert g.abs.tcbs == k.tcbs[t := Task.Fresh(k.tcbs[t], prio)];
  }

  /** LOS_TaskCreateOnly; `memory` says whether the stack could be allocated. */
  method TaskCreateOnly(g: Globals, prio: nat, memory: bool) returns (ret: Ret, sched: bool)
    requires g.Valid() && SchedOK(g.abs) == true
    modifies g.Parts()
    ensures g.Valid() && Creatable(old(g.abs)) && Out(g.abs, ret, sched) == Task.CreateOnly(old(g.abs), prio, memory)
  {
    CanCreate(g.abs);
    hide Globals.Valid, Globals.Parts, SchedOK, Task.Recycle, Task.Fresh, Unlink, PushFront, Creatable,
        Nowhere;
    ghost var k := g.abs;
    if prio >= LOWEST {
      return Fail(TaskPriorityError), false;
    }
    RecycleFinishedTask(g);
    HasFree(g);
    var empty := g.ListEmpty(FreeList);
    if empty {
      return Fail(TaskNoControlBlock), false;
    }
    FreeReady(g.abs);
    var t := g.ListFirst(FreeList);
    g.RunAt();
    OffNowhere(g, t);
    g.ListDelete(t);
    OffNowhere(g, t);
    if !memory {
      g.ListAdd(FreeList, t);
      return Fail(TaskNoMemory), false;
    }
    NewTaskInit(g, t, prio);
    return Id(t), false;
  }

  ghost predicate Creatable(k: Kernel) {
    forall t :: t in At(Task.Recycle(k).lists, FreeList) ==> t < |k.tcbs|
  }

  lemma CanCreate(k: Kernel)
    requires SchedOK(k)
    ensures Creatable(k)
    ensures forall t :: t in At(Task.Recycle(k).lists, FreeList) ==> t < |k.tcbs|
  {
    RecycleOK(k);
    var k1 := Task.Recycle(k);
    forall t | t in At(k1.lists, FreeList) ensures t < |k.tcbs| {
      assert On(k1, FreeList, t);
    }
  }

  lemma FreeReady(k: Kernel)
    requires SchedOK(k) && At(k.lists, FreeList) != []
    ensures var t := At(k.lists, FreeList)[0];
            && t < k.cfg.tasks && SchedCode.Waiting(k.lists, t) && Nowhere(Unlink(k.lists, t), t)
  {
    FreeHead(k);
    var t := At(k.lists, FreeList)[0];
    SchedCode.UnlinkedNowhere(k.lists, t);
    forall p ensures t !in At(k.lists, ReadyList(p)) {
      assert On(k, ReadyList(p), t) ==> Home(ReadyList(p), k.tcbs[t], t == k.cfg.idle);
    }
  }

  /** LOS_TaskCreate */
  method TaskCreate(g: Globals, prio: nat, memory: bool) returns (ret: Ret, sched: bool)
    requires g.Valid() && Sound(g.abs) == true && SparesIdle(g.abs, prio, memory) == true
    modifies g.Parts()
    ensures g.Valid() && Creatable(old(g.abs)) && Out(g.abs, ret, sched) == Task.Create(old(g.abs), prio, memory)
  {
    hide *;
    ghost var k := g.abs;
    SoundSched(k);
    CanCreate(k);
    ret, sched := TaskCreateOnly(g, prio, memory);
    CreateIs(k, prio, memory);
    if ret.Id? {
      g.RunAt();
      SchedTaskEnQueue(g, ret.id);
      sched := true;
    }
  }

  lemma SoundSched(k: Kernel)
    requires Sound(k)
    ensures SchedOK(k)
  {
  }

  lemma CreateIs(k: Kernel, prio: nat, memory: bool)
    requires Sound(k) && SparesIdle(k, prio, memory) && Creatable(k)
    ensures forall t :: t in At(Task.Recycle(k).lists, FreeList) ==> t < |k.tcbs|
    ensures var o := Task.CreateOnly(k, prio, memory);
            if o.ret.Id? then
              && o.ret.id < k.cfg.tasks && o.ret.id < |o.k.tcbs| && o.k.cfg == k.cfg
              && !TcbAt(o.k, o.ret.id).st.ready && TcbAt(o.k, o.ret.id).prio <= LOWEST && Nowhere(o.k.lists, o.ret.id)
              && Task.Create(k, prio, memory) == Out(EnQueue(o.k, o.ret.id), o.ret, true)
            else Task.Create(k, prio, memory) == o
  {
    CreateOnlyKept(k, prio, memory);
    RecycleOK(k);
    var k1 := Task.Recycle(k);
    var o := Task.CreateOnly(k, prio, memory);
    if o.ret.Id? {
      FreeReady(k1);
    }
    hide EnQueue, SchedOK;
  }

  /** The record of a deleted task. */
  method BuryTask(g: Globals, t: Tid)
    requires g.Valid() && t < g.cfg.tasks
    modifies g.Parts()
    ensures g.Valid() && t < |old(g.abs).tcbs| && g.abs == SetTcb(old(g.abs), t, Task.Buried(old(g.abs).tcbs[t]))
  {
    hide Globals.Valid, Globals.Parts, FlagsOf, Set, Clear;
    ghost var k := g.abs;
    g.TaskAt(t);
    Masks();
    g.SetEvent(t, 0, g.tasks[t].eventMode);
    g.SetCall(t, NoCall);
    g.SetStatus(t, UNUSED);
    assert g.abs.tcbs == k.tcbs[t := Task.Buried(k.tcbs[t])];
  }

  /** OsRunningTaskDelete: the stand-in block takes the place of the running task. */
  method RunningTaskDelete(g: Globals, t: Tid)
    requires g.Valid() && t < g.cfg.tasks && Nowhere(g.abs.lists, t)
    modifies g.Parts()
    ensures g.Valid() && old(g.abs).cfg.tasks < |old(g.abs).tcbs|
    ensures g.abs == Task.StandIn(old(g.abs).(lists := PushBack(old(g.abs).lists, RecycleList, t)))
  {
    hide Globals.Valid, Globals.Parts, FlagsOf, Set, Clear, PushBack, Nowhere;
    ghost var k := g.abs;
    g.RunAt();
    HasFree(g);
    OffNowhere(g, t);
    g.ListTailInsert(RecycleList, t);
    g.SetRun(g.cfg.tasks);
    Masks();
    g.TaskAt(g.cfg.tasks);
    g.SetStatus(g.cfg.tasks, UNUSED | RUNNING);
  }

  /** LOS_TaskDelete */
  method TaskDelete(g: Globals, taskID: nat) returns (ret: Ret, sched: bool)
    requires g.Valid() && KernelOK(g.abs) == true
    modifies g.Parts()
    ensures g.Valid() && old(g.abs).cfg.tasks < |old(g.abs).tcbs|
    ensures Out(g.abs, ret, sched) == Task.Delete(old(g.abs), taskID)
  {
    hide Globals.Valid, Globals.Parts, KernelOK, FlagsOf, Test, Exit, Homed, Nowhere, PushFront, PushBack,
        Task.Buried, Task.StandIn;
    ghost var k := g.abs;
    g.RunAt();
    var check := Task.CheckTaskId(g.cfg, taskID);
    if check.Some? {
      return Fail(check.value), false;
    }
    g.TaskAt(taskID);
    TaskFacts(k, taskID);
    FlagTests(g.tasks[taskID].taskStatus);
    if Test(g.tasks[taskID].taskStatus, UNUSED) {
      return Fail(TaskNotCreated), false;
    }
    var running := Test(g.tasks[taskID].taskStatus, RUNNING);
    if running && g.taskLock != 0 {
      g.SetLock(0);
    }
    HomedLock(k, g.abs, taskID);
    SchedTaskExit(g, taskID);
    ExitNowhere(k, taskID);
    BuryTask(g, taskID);
    g.RunAt();
    if running {
      RunningTaskDelete(g, taskID);
      return Waiting, true;
    }
    HasFree(g);
    OffNowhere(g, taskID);
    g.ListAdd(FreeList, taskID);
    return Ok, false;
  }

  lemma HomedLock(k: Kernel, k': Kernel, t: Tid)
    requires Homed(k, t) && k'.lists == k.lists && k'.tcbs == k.tcbs && k'.cfg == k.cfg
    ensures Homed(k', t)
  {
  }

  lemma ExitNowhere(k: Kernel, t: Tid)
    requires KernelOK(k) && t < k.cfg.tasks && !k.tcbs[t].st.unused && t != k.cfg.idle
    ensures t < |k.tcbs| && forall n :: Nowhere(Exit(k.(lock := n), t).lists, t)
    ensures forall n :: |Exit(k.(lock := n), t).tcbs| == |k.tcbs|
  {
    HomedNow(k, t);
    SchedCode.UnlinkedNowhere(k.lists, t);
  }
}
