/** kernel/src/los_task.c: the life of a task control block. */
module Task {
  import opened Sequences
  import opened KernelState
  import opened Sched

  function CheckTaskId(cfg: Config, t: nat): Option<Error> {
    if t == cfg.idle then Some(TaskIsIdle)
    else if t == cfg.swtmr then Some(TaskIsSwtmr)
    else if t >= cfg.tasks then Some(TaskIdInvalid)
    else None
  }

  /** OsRecyleFinishedTask: every finished task goes to the head of the free list, oldest first. */
  function Recycle(k: Kernel): (r: Kernel)
    ensures r.tcbs == k.tcbs && r.obj == k.obj
    decreases |At(k.lists, RecycleList)|
  {
    var done := At(k.lists, RecycleList);
    if done == [] then k
    else
      var m := PushFront(Unlink(k.lists, done[0]), FreeList, done[0]);
      assert |At(m, RecycleList)| == |Drop(done, done[0])| < |done|;
      Recycle(k.(lists := m))
  }

  function Fresh(c: Tcb, prio: nat): Tcb {
    c.(st := NO_FLAGS.(suspend := true), prio := prio, slice := 0, waitTicks := 0, eventMask := 0, call := NoCall)
  }

  /** `memory` says whether the stack could be allocated. */
  function CreateOnly(k: Kernel, prio: nat, memory: bool): Out
    requires forall t :: t in At(Recycle(k).lists, FreeList) ==> t < |k.tcbs|
  {
    if prio >= LOWEST then Out(k, Fail(TaskPriorityError), false)
    else
      var k1 := Recycle(k);
      var free := At(k1.lists, FreeList);
      if free == [] then Out(k1, Fail(TaskNoControlBlock), false)
      else
        var t := free[0];
        assert t in free;
        var m := Unlink(k1.lists, t);
        if !memory then Out(k1.(lists := PushFront(m, FreeList, t)), Fail(TaskNoMemory), false)
        else Out(SetTcb(k1.(lists := m), t, Fresh(k1.tcbs[t], prio)), Id(t), false)
  }

  function Create(k: Kernel, prio: nat, memory: bool): Out
    requires forall t :: t in At(Recycle(k).lists, FreeList) ==> t < |k.tcbs|
  {
    var o := CreateOnly(k, prio, memory);
    if o.ret.Id? && o.ret.id < |o.k.tcbs| then Out(EnQueue(o.k, o.ret.id), o.ret, true) else o
  }

  function Resume(k: Kernel, t: nat): Out
    requires k.cfg.tasks <= |k.tcbs|
  {
    if t >= k.cfg.tasks then Out(k, Fail(TaskIdInvalid), false)
    else
      var c := k.tcbs[t];
      if c.st.unused then Out(k, Fail(TaskNotCreated), false)
      else if !c.st.suspend then Out(k, Fail(TaskNotSuspended), false)
      else
        var k1 := SetTcb(k, t, c.(st := c.st.(suspend := false)));
        if c.st.delay || c.st.pend then Out(k1, Ok, false) else Out(EnQueue(k1, t), Ok, true)
  }

  function Suspend(k: Kernel, t: nat): Out
    requires k.cfg.tasks <= |k.tcbs|
  {
    var bad := CheckTaskId(k.cfg, t);
    if bad.Some? then Out(k, Fail(bad.value), false)
    else
      var c := k.tcbs[t];
      if c.st.unused then Out(k, Fail(TaskNotCreated), false)
      else if c.st.suspend then Out(k, Fail(TaskAlreadySuspended), false)
      else if c.st.running && k.lock != 0 then Out(k, Fail(TaskSuspendLocked), false)
      else
        var k1 := DeQueue(k, t);
        var c1 := k1.tcbs[t];
        Out(SetTcb(k1, t, c1.(st := c1.st.(suspend := true))), if t == k.run then Waiting else Ok, t == k.run)
  }

  /** The stand-in block takes over as the running task, with the status the dead task is left with. */
  function StandIn(k: Kernel): Kernel
    requires k.cfg.tasks < |k.tcbs|
  {
    var d := k.tcbs[k.cfg.tasks];
    SetTcb(k, k.cfg.tasks, d.(st := NO_FLAGS.(unused := true, running := true))).(run := k.cfg.tasks)
  }

  function Buried(c: Tcb): Tcb {
    c.(st := NO_FLAGS.(unused := true), eventMask := 0, call := NoCall)
  }

  function Delete(k: Kernel, t: nat): Out
    requires k.cfg.tasks < |k.tcbs|
  {
    var bad := CheckTaskId(k.cfg, t);
    if bad.Some? then Out(k, Fail(bad.value), false)
    else if k.tcbs[t].st.unused then Out(k, Fail(TaskNotCreated), false)
    else
      var running := k.tcbs[t].st.running;
      var k1 := Exit(k.(lock := if running then 0 else k.lock), t);
      var k2 := SetTcb(k1, t, Buried(k1.tcbs[t]));
      if running then Out(StandIn(k2.(lists := PushBack(k2.lists, RecycleList, t))), Waiting, true)
      else Out(k2.(lists := PushFront(k2.lists, FreeList, t)), Ok, false)
  }

  function Yield(k: Kernel): Out
    requires k.run < |k.tcbs|
  {
    Out(SetTcb(k, k.run, k.tcbs[k.run].(slice := 0)), Ok, true)
  }

  function Delay(k: Kernel, ticks: nat, inInt: bool): Out
    requires k.run < |k.tcbs|
  {
    if inInt then Out(k, Fail(TaskDelayInInterrupt), false)
    else if k.lock != 0 then Out(k, Fail(TaskDelayInLock), false)
    else if ticks == 0 then Yield(k)
    else
      var c := k.tcbs[k.run];
      Out(SetTcb(k, k.run, c.(st := c.st.(delay := true), waitTicks := ticks)), Waiting, true)
  }

  function PriSet(k: Kernel, t: nat, prio: nat): Out
    requires k.cfg.tasks <= |k.tcbs|
  {
    if prio > LOWEST then Out(k, Fail(TaskPriorityError), false)
    else
      var bad := CheckTaskId(k.cfg, t);
      if bad.Some? then Out(k, Fail(bad.value), false)
      else if k.tcbs[t].st.unused then Out(k, Fail(TaskNotCreated), false)
      else Out(ModifyPrio(k, t, prio), Ok, k.tcbs[t].st.ready || k.tcbs[t].st.running)
  }

  function Lock(k: Kernel): Out {
    Out(k.(lock := k.lock + 1), Ok, false)
  }

  function Unlock(k: Kernel): Out {
    if k.lock > 0 then Out(k.(lock := k.lock - 1), Ok, k.lock == 1) else Out(k, Ok, false)
  }

  /** LOS_SchedTickHandler; `scan` is the test that the expiry was not the running task's slice. */
  function Tick(k: Kernel, scanAt: nat, now: nat, scan: bool): Out
    requires forall e :: e in k.timers ==> e.id < |k.tcbs|
    requires k.run < |k.tcbs|
  {
    var r := if scan then ScanTimers(k, scanAt) else (k, false);
    if r.1 && k.lock == 0 then Out(r.0.(now := now), Ok, true) else Out(ChargeSlice(r.0, now), Ok, false)
  }
}
