/** The kernel as one state machine: calls by the running task, calls by interrupt handlers, and task switches. */
module Machine {
  import opened KernelState
  import opened Sched
  import Task
  import Semaphore
  import Mutex
  import MessageQueue
  import EventFlags

  datatype Op =
    | TaskCreateOnly(prio: nat, memory: bool)
    | TaskCreate(prio: nat, memory: bool)
    | TaskDelete(t: nat)
    | TaskSuspend(t: nat)
    | TaskResume(t: nat)
    | TaskDelay(ticks: nat)
    | TaskYield
    | TaskPriSet(t: nat, prio: nat)
    | TaskLock
    | TaskUnlock
    | TaskRecycle
    | SemCreate(count: nat, max: nat)
    | SemDelete(sem: nat)
    | SemPend(sem: nat, timeout: nat)
    | SemPost(sem: nat)
    | MuxCreate
    | MuxDelete(mux: nat)
    | MuxPend(mux: nat, timeout: nat)
    | MuxPost(mux: nat)
    | QueueCreate(len: nat, maxMsg: nat, memory: bool)
    | QueueDelete(queue: nat)
    | QueueRead(queue: nat, room: nat, timeout: nat)
    | QueueWrite(queue: nat, front: bool, msg: seq<Byte>, timeout: nat)
    | EventInit(event: nat)
    | EventRead(event: nat, mask: bv32, mode: bv32, timeout: nat)
    | EventWrite(event: nat, events: bv32)
    | EventClear(event: nat, events: bv32)
    | EventDestroy(event: nat)
    | Finish
    | Tick(scanAt: nat, at: nat, scan: bool)

  /** A task that was made to wait runs again: the rest of the kernel call it was inside of. */
  function FinishCall(k: Kernel): Out
    requires k.run < |k.tcbs|
    requires forall q :: MessageQueue.Ready(k, q)
  {
    var c := k.tcbs[k.run];
    var k1 := SetTcb(k, k.run, c.(call := NoCall, st := c.st.(timeout := false)));
    match c.call
    case NoCall => Out(k, Ok, false)
    case SemCall(_) => Out(k1, if c.st.timeout then Fail(SemTimeout) else Ok, false)
    case MuxCall(_) => Out(k1, if c.st.timeout then Fail(MuxTimeout) else Ok, false)
    case ReadCall(q, room) =>
      if c.st.timeout then Out(k1, Fail(QueueTimeout), false)
      else if q < |k.obj.queues| && k.obj.queues[q].used then
        assert MessageQueue.Ready(k, q);
        MessageQueue.ReadNow(k1, q, room)
      else Out(k1, Ok, false)
    case WriteCall(q, front, msg) =>
      if c.st.timeout then Out(k1, Fail(QueueTimeout), false)
      else if q < |k.obj.queues| && k.obj.queues[q].used then
        assert MessageQueue.Ready(k, q);
        MessageQueue.WriteNow(k1, q, front, msg)
      else Out(k1, Ok, false)
    case EventCall(e, mask, mode) =>
      if c.st.timeout then Out(k1, Fail(EventTimeout), false)
      else if e < |k.obj.events| then EventFlags.PollNow(k1, e, mask, mode)
      else Out(k1, Ok, false)
  }

  /** Enough well-formedness for every call to be defined; `Settled` and the object invariants imply it. */
  ghost predicate Defined(k: Kernel) {
    && Shape(k)
    && (forall l :: Members(k, l))
    && (forall t :: t in At(Task.Recycle(k).lists, FreeList) ==> t < |k.tcbs|)
    && (forall e :: e in k.timers ==> e.id < |k.tcbs|)
    && (forall s :: s in k.obj.semFree ==> s < |k.obj.sems|)
    && (forall m :: m in k.obj.muxFree ==> m < |k.obj.muxes|)
    && (forall q :: q in k.obj.queueFree ==> q < |k.obj.queues|)
    && (forall q :: MessageQueue.Ready(k, q))
    && (forall i :: 0 <= i < |k.obj.muxes| && k.obj.muxes[i].count > 0 ==>
          k.obj.muxes[i].owner.Some? && k.obj.muxes[i].owner.value < |k.tcbs|)
  }

  /** Which source file serves the call. */
  datatype Service = OnTask | OnSem | OnMux | OnQueue | OnEvent

  function ServiceOf(op: Op): Service {
    match op
    case SemCreate(_, _) => OnSem
    case SemDelete(_) => OnSem
    case SemPend(_, _) => OnSem
    case SemPost(_) => OnSem
    case MuxCreate => OnMux
    case MuxDelete(_) => OnMux
    case MuxPend(_, _) => OnMux
    case MuxPost(_) => OnMux
    case QueueCreate(_, _, _) => OnQueue
    case QueueDelete(_) => OnQueue
    case QueueRead(_, _, _) => OnQueue
    case QueueWrite(_, _, _, _) => OnQueue
    case EventInit(_) => OnEvent
    case EventRead(_, _, _, _) => OnEvent
    case EventWrite(_, _) => OnEvent
    case EventClear(_, _) => OnEvent
    case EventDestroy(_) => OnEvent
    case _ => OnTask
  }

  function DoTask(k: Kernel, op: Op, inInt: bool): Out
    requires Defined(k) && ServiceOf(op) == OnTask
  {
    match op
    case TaskCreateOnly(prio, memory) => Task.CreateOnly(k, prio, memory)
    case TaskCreate(prio, memory) => Task.Create(k, prio, memory)
    case TaskDelete(t) => Task.Delete(k, t)
    case TaskSuspend(t) => Task.Suspend(k, t)
    case TaskResume(t) => Task.Resume(k, t)
    case TaskDelay(ticks) => Task.Delay(k, ticks, inInt)
    case TaskYield => Task.Yield(k)
    case TaskPriSet(t, prio) => Task.PriSet(k, t, prio)
    case TaskLock => Task.Lock(k)
    case TaskUnlock => Task.Unlock(k)
    case TaskRecycle => Out(Task.Recycle(k), Ok, false)
    case Finish => FinishCall(k)
    case Tick(scanAt, at, scan) => Task.Tick(k, scanAt, at, scan)
  }

  /** Each op, and the function of Task that serves it. */
  lemma DoTaskIs(k: Kernel, op: Op, inInt: bool)
    requires Defined(k) && ServiceOf(op) == OnTask
    ensures Shape(k) && (forall t :: t in At(Task.Recycle(k).lists, FreeList) ==> t < |k.tcbs|)
    ensures (forall e :: e in k.timers ==> e.id < |k.tcbs|) && forall q :: MessageQueue.Ready(k, q)
    ensures op.TaskCreateOnly? ==> DoTask(k, op, inInt) == Task.CreateOnly(k, op.prio, op.memory)
    ensures op.TaskCreate? ==> DoTask(k, op, inInt) == Task.Create(k, op.prio, op.memory)
    ensures op.TaskDelete? ==> DoTask(k, op, inInt) == Task.Delete(k, op.t)
    ensures op.TaskSuspend? ==> DoTask(k, op, inInt) == Task.Suspend(k, op.t)
    ensures op.TaskResume? ==> DoTask(k, op, inInt) == Task.Resume(k, op.t)
    ensures op.TaskDelay? ==> DoTask(k, op, inInt) == Task.Delay(k, op.ticks, inInt)
    ensures op.TaskYield? ==> DoTask(k, op, inInt) == Task.Yield(k)
    ensures op.TaskPriSet? ==> DoTask(k, op, inInt) == Task.PriSet(k, op.t, op.prio)
    ensures op.TaskLock? ==> DoTask(k, op, inInt) == Task.Lock(k)
    ensures op.TaskUnlock? ==> DoTask(k, op, inInt) == Task.Unlock(k)
    ensures op.TaskRecycle? ==> DoTask(k, op, inInt) == Out(Task.Recycle(k), Ok, false)
    ensures op.Finish? ==> DoTask(k, op, inInt) == FinishCall(k)
    ensures op.Tick? ==> DoTask(k, op, inInt) == Task.Tick(k, op.scanAt, op.at, op.scan)
  {
    hide FinishCall, MessageQueue.Ready, Task.Create, Task.CreateOnly, Task.Delete, Task.Suspend, Task.Resume,
         Task.Delay, Task.Yield, Task.PriSet, Task.Lock, Task.Unlock, Task.Tick, Task.Recycle;
  }

  /** The ops that the task module serves. */
  lemma OnTaskOps(op: Op)
    ensures ServiceOf(op) == OnTask <==>
            || op.TaskCreateOnly? || op.TaskCreate? || op.TaskDelete? || op.TaskSuspend? || op.TaskResume?
               || op.TaskDelay?
            || op.TaskYield? || op.TaskPriSet? || op.TaskLock? || op.TaskUnlock? || op.TaskRecycle? || op.Finish?
               || op.Tick?
  {
  }

  function DoSem(k: Kernel, op: Op, inInt: bool): Out
    requires Defined(k) && ServiceOf(op) == OnSem
  {
    match op
    case SemCreate(count, max) => Semaphore.Create(k, count, max)
    case SemDelete(s) => Semaphore.Delete(k, s)
    case SemPend(s, timeout) => Semaphore.Pend(k, s, timeout, inInt)
    case SemPost(s) => Semaphore.Post(k, s)
  }

  function DoMux(k: Kernel, op: Op, inInt: bool): Out
    requires Defined(k) && ServiceOf(op) == OnMux
  {
    match op
    case MuxCreate => Mutex.Create(k)
    case MuxDelete(m) => Mutex.Delete(k, m)
    case MuxPend(m, timeout) => Mutex.Pend(k, m, timeout, inInt)
    case MuxPost(m) => Mutex.Post(k, m)
  }

  function DoQueue(k: Kernel, op: Op, inInt: bool): Out
    requires Defined(k) && ServiceOf(op) == OnQueue
  {
    match op
    case QueueCreate(len, maxMsg, memory) => MessageQueue.Create(k, len, maxMsg, memory)
    case QueueDelete(q) => MessageQueue.Delete(k, q)
    case QueueRead(q, room, timeout) => MessageQueue.Read(k, q, room, timeout, inInt)
    case QueueWrite(q, front, msg, timeout) => MessageQueue.Write(k, q, front, msg, timeout, inInt)
  }

  function DoEvent(k: Kernel, op: Op, inInt: bool): Out
    requires Defined(k) && ServiceOf(op) == OnEvent
  {
    match op
    case EventInit(e) => EventFlags.Init(k, e)
    case EventRead(e, mask, mode, timeout) => EventFlags.Read(k, e, mask, mode, timeout, inInt)
    case EventWrite(e, events) => EventFlags.Write(k, e, events)
    case EventClear(e, events) => EventFlags.Clear(k, e, events)
    case EventDestroy(e) => EventFlags.Destroy(k, e)
  }

  function Do(k: Kernel, op: Op, inInt: bool): Out
    requires Defined(k)
  {
    match ServiceOf(op)
    case OnTask => DoTask(k, op, inInt)
    case OnSem => DoSem(k, op, inInt)
    case OnMux => DoMux(k, op, inInt)
    case OnQueue => DoQueue(k, op, inInt)
    case OnEvent => DoEvent(k, op, inInt)
  }

  lemma DoIs(k: Kernel, op: Op, inInt: bool)
    requires Defined(k)
    ensures ServiceOf(op) == OnTask ==> Do(k, op, inInt) == DoTask(k, op, inInt)
    ensures ServiceOf(op) == OnSem ==> Do(k, op, inInt) == DoSem(k, op, inInt)
    ensures ServiceOf(op) == OnMux ==> Do(k, op, inInt) == DoMux(k, op, inInt)
    ensures ServiceOf(op) == OnQueue ==> Do(k, op, inInt) == DoQueue(k, op, inInt)
    ensures ServiceOf(op) == OnEvent ==> Do(k, op, inInt) == DoEvent(k, op, inInt)
  {
    hide DoTask, DoSem, DoMux, DoQueue, DoEvent, Defined;
  }

  /**
   * `Call`: the running task makes a kernel call, with LOS_Schedule at its end taking effect at once.
   * `Interrupt`: a handler makes it, and the switch is only pended. `PendSV`: a pended switch takes place at some time.
   */
  datatype Step = Call(op: Op, now: nat) | Interrupt(op: Op) | PendSV(now: nat)

  predicate IsOp(s: Step) {
    !s.PendSV?
  }

  /** The op of a call or a handler's call. */
  function OpOf(s: Step): Op
    requires IsOp(s)
  {
    match s
    case Call(op, _) => op
    case Interrupt(op) => op
  }
}
