/** The kernel in memory makes exactly the steps of the machine: every call, every handler, every switch, every run. */
module KernelCode {
  import opened Deadlines
  import opened KernelState
  import opened Sched
  import opened SchedProofs
  import opened Invariants
  import opened TaskProofs
  import opened Machine
  import opened MachineProofs
  import opened KernelObjects
  import opened SortLink
  import opened SwitchCode
  import TaskCode
  import SemCode
  import MuxCode
  import QueueCode
  import EventCode
  import FinishCode
  import opened Boot
  import opened KernelBoot
  import EventFlags
  import MessageQueue
  import Mutex
  import Semaphore
  import Task

  // ---- Kernel calls ----

  method CallTask(g: Globals, op: Op, inInt: bool) returns (ret: Ret, sched: bool)
    requires g.Valid() && KernelOK(g.abs) == true && ServiceOf(op) == OnTask
    requires op.Tick? ==> g.abs.now <= op.scanAt <= op.at
    modifies g.Parts()
    ensures g.Valid() && Defined(old(g.abs)) && ServiceOf(op) == OnTask
    ensures Out(g.abs, ret, sched) == DoTask(old(g.abs), op, inInt)
  {
    hide *;
    ghost var k := g.abs;
    KernelDefined(k);
    IsSched(k);
    KernelSound(k);
    OnTaskOps(op);
    match op {
      case TaskCreateOnly(prio, memory) => ret, sched := TaskCode.TaskCreateOnly(g, prio, memory);
      case TaskCreate(prio, memory) =>
        MadeSpared(k, prio, memory);
        ret, sched := TaskCode.TaskCreate(g, prio, memory);
      case TaskDelete(t) => ret, sched := TaskCode.TaskDelete(g, t);
      case TaskSuspend(t) => ret, sched := TaskCode.TaskSuspend(g, t);
      case TaskResume(t) => ret, sched := TaskCode.TaskResume(g, t);
      case TaskDelay(ticks) => ret, sched := TaskCode.TaskDelay(g, ticks, inInt);
      case TaskYield => ret, sched := TaskCode.TaskYield(g);
      case TaskPriSet(t, prio) => ret, sched := TaskCode.TaskPriSet(g, t, prio);
      case TaskLock => ret, sched := TaskCode.TaskLock(g);
      case TaskUnlock => ret, sched := TaskCode.TaskUnlock(g);
      case TaskRecycle =>
        TaskCode.RecycleFinishedTask(g);
        ret, sched := Ok, false;
      case Finish => ret, sched := FinishCode.Finish(g);
      case Tick(scanAt, at, scan) =>
        sched := TickHandler(g, scanAt, at, scan);
        ret := Ok;
      case _ =>
    }
    IsDoTask(k, op, inInt, Out(g.abs, ret, sched));
  }

  lemma IsSched(k: Kernel)
    requires KernelOK(k)
    ensures SchedOK(k)
  {
  }

  /** What the method for `op` promises is what the machine does. */
  lemma IsDoTask(k: Kernel, op: Op, inInt: bool, o: Out)
    requires Defined(k) && ServiceOf(op) == OnTask
    requires op.TaskCreateOnly? ==> TaskCode.Creatable(k) && o == Task.CreateOnly(k, op.prio, op.memory)
    requires op.TaskCreate? ==> TaskCode.Creatable(k) && o == Task.Create(k, op.prio, op.memory)
    requires op.TaskDelete? ==> k.cfg.tasks < |k.tcbs| && o == Task.Delete(k, op.t)
    requires op.TaskSuspend? ==> k.cfg.tasks <= |k.tcbs| && o == Task.Suspend(k, op.t)
    requires op.TaskResume? ==> k.cfg.tasks <= |k.tcbs| && o == Task.Resume(k, op.t)
    requires op.TaskDelay? ==> k.run < |k.tcbs| && o == Task.Delay(k, op.ticks, inInt)
    requires op.TaskYield? ==> k.run < |k.tcbs| && o == Task.Yield(k)
    requires op.TaskPriSet? ==> k.cfg.tasks <= |k.tcbs| && o == Task.PriSet(k, op.t, op.prio)
    requires op.TaskLock? ==> o == Task.Lock(k)
    requires op.TaskUnlock? ==> o == Task.Unlock(k)
    requires op.TaskRecycle? ==> o == Out(Task.Recycle(k), Ok, false)
    requires op.Finish? ==> FinishCode.Resumable(k) && o == FinishCall(k)
    requires op.Tick? ==> IsTick(k, op.scanAt, op.at, op.scan, o.k, o.sched) && o.ret == Ok
    ensures o == DoTask(k, op, inInt)
  {
    DoTaskIs(k, op, inInt);
    OnTaskOps(op);
    hide Defined, FinishCall, DoTask, Task.Create, Task.CreateOnly, Task.Delete, Task.Suspend, Task.Resume, Task.Delay,
         Task.Yield, Task.PriSet, Task.Tick, Task.Recycle, Task.Lock, Task.Unlock;
  }

  method CallSem(g: Globals, op: Op, inInt: bool) returns (ret: Ret, sched: bool)
    requires g.Valid() && KernelOK(g.abs) == true && ServiceOf(op) == OnSem
    modifies g.Parts()
    ensures g.Valid() && Defined(old(g.abs)) && ServiceOf(op) == OnSem
    ensures Out(g.abs, ret, sched) == DoSem(old(g.abs), op, inInt)
  {
    hide *;
    ghost var k := g.abs;
    KernelDefined(k);
    KernelSound(k);
    IsSem(op);
    match op {
      case SemCreate(count, max) => ret, sched := SemCode.SemCreate(g, count, max);
      case SemDelete(s) => ret, sched := SemCode.SemDelete(g, s);
      case SemPend(s, timeout) => ret, sched := SemCode.SemPend(g, s, timeout, inInt);
      case SemPost(s) => ret, sched := SemCode.SemPost(g, s);
      case _ =>
    }
    IsDoSem(k, op, inInt, Out(g.abs, ret, sched));
  }

  lemma IsSem(op: Op)
    ensures ServiceOf(op) == OnSem <==> op.SemCreate? || op.SemDelete? || op.SemPend? || op.SemPost?
  {
  }

  lemma IsDoSem(k: Kernel, op: Op, inInt: bool, o: Out)
    requires Defined(k) && ServiceOf(op) == OnSem
    requires op.SemCreate? ==>
               && (forall s :: s in k.obj.semFree ==> s < |k.obj.sems|)
               && o == Semaphore.Create(k, op.count, op.max)
    requires op.SemDelete? ==> o == Semaphore.Delete(k, op.sem)
    requires op.SemPend? ==> k.run < |k.tcbs| && o == Semaphore.Pend(k, op.sem, op.timeout, inInt)
    requires op.SemPost? ==> Members(k, SemList(op.sem)) && o == Semaphore.Post(k, op.sem)
    ensures o == DoSem(k, op, inInt)
  {
    hide Defined, Semaphore.Create, Semaphore.Delete, Semaphore.Pend, Semaphore.Post;
  }

  method CallMux(g: Globals, op: Op, inInt: bool) returns (ret: Ret, sched: bool)
    requires g.Valid() && KernelOK(g.abs) == true && ServiceOf(op) == OnMux
    modifies g.Parts()
    ensures g.Valid() && Defined(old(g.abs)) && ServiceOf(op) == OnMux
    ensures Out(g.abs, ret, sched) == DoMux(old(g.abs), op, inInt)
  {
    hide *;
    ghost var k := g.abs;
    KernelDefined(k);
    KernelSound(k);
    IsMux(op);
    match op {
      case MuxCreate => ret, sched := MuxCode.MuxCreate(g);
      case MuxDelete(m) => ret, sched := MuxCode.MuxDelete(g, m);
      case MuxPend(m, timeout) => ret, sched := MuxCode.MuxPend(g, m, timeout, inInt);
      case MuxPost(m) => ret, sched := MuxCode.MuxPost(g, m);
      case _ =>
    }
    IsDoMux(k, op, inInt, Out(g.abs, ret, sched));
  }

  lemma IsMux(op: Op)
    ensures ServiceOf(op) == OnMux <==> op.MuxCreate? || op.MuxDelete? || op.MuxPend? || op.MuxPost?
  {
  }

  lemma IsDoMux(k: Kernel, op: Op, inInt: bool, o: Out)
    requires Defined(k) && ServiceOf(op) == OnMux
    requires op.MuxCreate? ==> (forall m :: m in k.obj.muxFree ==> m < |k.obj.muxes|) && o == Mutex.Create(k)
    requires op.MuxDelete? ==> o == Mutex.Delete(k, op.mux)
    requires op.MuxPend? ==> MuxCode.Pendable(k) && o == Mutex.Pend(k, op.mux, op.timeout, inInt)
    requires op.MuxPost? ==> Members(k, MuxList(op.mux)) && k.run < |k.tcbs| && o == Mutex.Post(k, op.mux)
    ensures o == DoMux(k, op, inInt)
  {
    hide Defined, Mutex.Create, Mutex.Delete, Mutex.Pend, Mutex.Post;
  }

  method CallQueue(g: Globals, op: Op, inInt: bool) returns (ret: Ret, sched: bool)
    requires g.Valid() && KernelOK(g.abs) == true && ServiceOf(op) == OnQueue
    modifies g.Parts()
    ensures g.Valid() && Defined(old(g.abs)) && ServiceOf(op) == OnQueue
    ensures Out(g.abs, ret, sched) == DoQueue(old(g.abs), op, inInt)
  {
    hide *;
    ghost var k := g.abs;
    KernelDefined(k);
    KernelSound(k);
    IsQueue(op);
    match op {
      case QueueCreate(len, maxMsg, memory) => ret, sched := QueueCode.QueueCreate(g, len, maxMsg, memory);
      case QueueDelete(q) => ret, sched := QueueCode.QueueDelete(g, q);
      case QueueRead(q, room, timeout) => ret, sched := QueueCode.QueueRead(g, q, room, timeout, inInt);
      case QueueWrite(q, front, msg, timeout) => ret, sched := QueueCode.QueueWrite(g, q, front, msg, timeout, inInt);
      case _ =>
    }
    IsDoQueue(k, op, inInt, Out(g.abs, ret, sched));
  }

  lemma IsQueue(op: Op)
    ensures ServiceOf(op) == OnQueue <==> op.QueueCreate? || op.QueueDelete? || op.QueueRead? || op.QueueWrite?
  {
  }

  lemma IsDoQueue(k: Kernel, op: Op, inInt: bool, o: Out)
    requires Defined(k) && ServiceOf(op) == OnQueue
    requires op.QueueCreate? ==>
               && (forall q :: q in k.obj.queueFree ==> q < |k.obj.queues|)
               && o == MessageQueue.Create(k, op.len, op.maxMsg, op.memory)
    requires op.QueueDelete? ==> o == MessageQueue.Delete(k, op.queue)
    requires op.QueueRead? ==>
               && MessageQueue.Ready(k, op.queue)
               && o == MessageQueue.Read(k, op.queue, op.room, op.timeout, inInt)
    requires op.QueueWrite? ==>
               && MessageQueue.Ready(k, op.queue)
               && o == MessageQueue.Write(k, op.queue, op.front, op.msg, op.timeout, inInt)
    ensures o == DoQueue(k, op, inInt)
  {
    hide Defined, MessageQueue.Create, MessageQueue.Delete, MessageQueue.Read, MessageQueue.Write, MessageQueue.Ready;
  }

  method CallEvent(g: Globals, op: Op, inInt: bool) returns (ret: Ret, sched: bool)
    requires g.Valid() && KernelOK(g.abs) == true && ServiceOf(op) == OnEvent
    modifies g.Parts()
    ensures g.Valid() && Defined(old(g.abs)) && ServiceOf(op) == OnEvent
    ensures Out(g.abs, ret, sched) == DoEvent(old(g.abs), op, inInt)
  {
    hide *;
    ghost var k := g.abs;
    KernelDefined(k);
    IsEvent(op);
    match op {
      case EventInit(e) => ret, sched := EventCode.EventInit(g, e);
      case EventRead(e, mask, mode, timeout) => ret, sched := EventCode.EventRead(g, e, mask, mode, timeout, inInt);
      case EventWrite(e, events) => ret, sched := EventCode.EventWrite(g, e, events);
      case EventClear(e, events) => ret, sched := EventCode.EventClear(g, e, events);
      case EventDestroy(e) => ret, sched := EventCode.EventDestroy(g, e);
      case _ =>
    }
    IsDoEvent(k, op, inInt, Out(g.abs, ret, sched));
  }

  lemma IsEvent(op: Op)
    ensures ServiceOf(op) == OnEvent
            <==> op.EventInit? || op.EventRead? || op.EventWrite? || op.EventClear? || op.EventDestroy?
  {
  }

  lemma IsDoEvent(k: Kernel, op: Op, inInt: bool, o: Out)
    requires Defined(k) && ServiceOf(op) == OnEvent
    requires op.EventInit? ==> o == EventFlags.Init(k, op.event)
    requires op.EventRead? ==>
               && k.run < |k.tcbs|
               && o == EventFlags.Read(k, op.event, op.mask, op.mode, op.timeout, inInt)
    requires op.EventWrite? ==> Members(k, EventList(op.event)) && o == EventFlags.Write(k, op.event, op.events)
    requires op.EventClear? ==> o == EventFlags.Clear(k, op.event, op.events)
    requires op.EventDestroy? ==> o == EventFlags.Destroy(k, op.event)
    ensures o == DoEvent(k, op, inInt)
  {
    hide Defined, EventFlags.Init, EventFlags.Read, EventFlags.Write, EventFlags.Clear, EventFlags.Destroy;
  }

  /** Any kernel call on the kernel's memory does what the machine does. */
  method CallKernel(g: Globals, op: Op, inInt: bool) returns (ret: Ret, sched: bool)
    requires g.Valid() && KernelOK(g.abs) == true
    requires op.Tick? ==> g.abs.now <= op.scanAt <= op.at
    modifies g.Parts()
    ensures g.Valid() && Defined(old(g.abs)) && Out(g.abs, ret, sched) == Do(old(g.abs), op, inInt)
  {
    hide *;
    ghost var k := g.abs;
    match ServiceOf(op) {
      case OnTask => ret, sched := CallTask(g, op, inInt);
      case OnSem => ret, sched := CallSem(g, op, inInt);
      case OnMux => ret, sched := CallMux(g, op, inInt);
      case OnQueue => ret, sched := CallQueue(g, op, inInt);
      case OnEvent => ret, sched := CallEvent(g, op, inInt);
    }
    DoIs(k, op, inInt);
  }

  // ---- Steps ----

  /** The deadline the running task may have asked for fits the clock word. */
  ghost predicate DeadlineFits(k: Kernel, now: nat) {
    Deadline(now, TcbAt(k, k.run).waitTicks, k.cfg.cyclesPerTick) < INVALID_TIME
  }

  ghost predicate StepFits(k: Kernel, s: Step)
    requires KernelOK(k)
  {
    match s
    case Call(op, now) => KernelDefined(k); DeadlineFits(Do(k, op, false).k, now)
    case Interrupt(op) => true
    case PendSV(now) => DeadlineFits(k, now)
  }

  /** A step of the machine on the kernel's memory; a handler's call only pends the switch. */
  method StepKernel(g: Globals, s: Step)
    requires g.Valid() && KernelOK(g.abs) && Legal(g.abs, s) == true && StepFits(g.abs, s) == true
    modifies g.Parts()
    ensures g.Valid() && IsStep(old(g.abs), s, g.abs)
  {
    hide *;
    ghost var k := g.abs;
    match s {
      case Call(op, now) =>
        CallSteps(k, op, now);
        var _, sched := CallKernel(g, op, false);
        if sched {
          g.RunAt();
          Schedule(g, now);
        }
      case Interrupt(op) =>
        HandlerSteps(k, op);
        var _, _ := CallKernel(g, op, true);
      case PendSV(now) =>
        SwitchSteps(k, now);
        g.RunAt();
        Schedule(g, now);
    }
  }

  ghost predicate IsStep(k: Kernel, s: Step, k': Kernel) {
    KernelOK(k) && Legal(k, s) && k' == Next(k, s)
  }

  lemma CallSteps(k: Kernel, op: Op, now: nat)
    requires KernelOK(k) && Legal(k, Call(op, now)) && StepFits(k, Call(op, now))
    ensures Defined(k) && !op.Tick?
    ensures var o := Do(k, op, false);
            && (!o.sched ==> IsStep(k, Call(op, now), o.k))
            && (o.sched ==>
                  && SchedOK(o.k) && Switchable(o.k) && o.k.now <= now
                  && Deadline(now, TcbAt(o.k, o.k.run).waitTicks, o.k.cfg.cyclesPerTick) < INVALID_TIME
                  && forall k' :: Scheduled(o.k, now, k') ==> IsStep(k, Call(op, now), k'))
  {
    DoOK(k, op, false);
    hide KernelOK, Do, SchedOK, ObjectsOK, Switchable, Defined, Switch;
    assert Legal(k, Call(op, now)) && !op.Tick?;
  }

  lemma HandlerSteps(k: Kernel, op: Op)
    requires KernelOK(k) && Legal(k, Interrupt(op))
    ensures Defined(k) && (op.Tick? ==> k.now <= op.scanAt <= op.at) && IsStep(k, Interrupt(op), Do(k, op, true).k)
  {
    KernelDefined(k);
    hide KernelOK, Do, Defined;
  }

  lemma SwitchSteps(k: Kernel, now: nat)
    requires KernelOK(k) && Legal(k, PendSV(now)) && StepFits(k, PendSV(now))
    ensures SchedOK(k) && Switchable(k) && k.now <= now && k.lock == 0
    ensures Deadline(now, TcbAt(k, k.run).waitTicks, k.cfg.cyclesPerTick) < INVALID_TIME
    ensures forall k' :: Scheduled(k, now, k') ==> IsStep(k, PendSV(now), k')
  {
    SettledSwitchable(k);
    hide ObjectsOK, SchedOK, Switchable, Switch;
  }

  // ---- Runs ----

  ghost predicate RunFits(k: Kernel, steps: seq<Step>)
    requires KernelOK(k) && LegalRun(k, steps)
    decreases |steps|
  {
    steps == [] || (StepFits(k, steps[0]) && RunFits(Next(k, steps[0]), steps[1..]))
  }

  lemma RunStarts(k: Kernel, steps: seq<Step>)
    requires KernelOK(k) && LegalRun(k, steps) && RunFits(k, steps) && steps != []
    ensures Legal(k, steps[0]) && StepFits(k, steps[0])
    ensures forall k' :: IsStep(k, steps[0], k') ==>
              && KernelOK(k') && k'.cfg == k.cfg && LegalRun(k', steps[1..]) && RunFits(k', steps[1..])
              && Run(k, steps) == Run(k', steps[1..])
  {
    hide Legal, KernelOK, StepFits;
  }

  lemma RunEnds(k: Kernel)
    requires KernelOK(k)
    ensures LegalRun(k, []) && Run(k, []) == k
  {
    hide KernelOK;
  }

  /** The kernel's memory goes through any legal run exactly as the machine does. */
  method RunKernel(g: Globals, steps: seq<Step>)
    requires g.Valid() && KernelOK(g.abs) && LegalRun(g.abs, steps) == true && RunFits(g.abs, steps) == true
    modifies g.Parts()
    ensures g.Valid() && IsRun(old(g.abs), steps, g.abs)
  {
    hide *;
    ghost var k := g.abs;
    var todo := steps;
    RunIs(k, steps);
    while todo != []
      invariant g.Valid() && KernelOK(g.abs) && LegalRun(g.abs, todo) == true && RunFits(g.abs, todo) == true
      invariant IsRun(k, steps, Run(g.abs, todo))
      decreases |todo|
    {
      RunStarts(g.abs, todo);
      StepKernel(g, todo[0]);
      todo := todo[1..];
    }
    RunEnds(g.abs);
  }

  ghost predicate IsRun(k: Kernel, steps: seq<Step>, k': Kernel) {
    KernelOK(k) && LegalRun(k, steps) && k' == Run(k, steps)
  }

  lemma RunIs(k: Kernel, steps: seq<Step>)
    requires KernelOK(k) && LegalRun(k, steps)
    ensures IsRun(k, steps, Run(k, steps))
  {
    hide KernelOK, LegalRun, Run;
  }

  /** From power-on through any set-up and any legal run: memory stands for the state the machine reaches. */
  method PowerOnAndRun(cfg: Config, n: Limits, s: Setup, steps: seq<Step>) returns (g: Globals)
    requires Bootable(cfg, n, s) == true && BootRun(cfg, n, s, steps) == true
    ensures g.Valid() && Bootable(cfg, n, s) && IsRun(Booted(cfg, n, s), steps, g.abs)
  {
    hide *;
    BootRunFacts(cfg, n, s, steps);
    g := KernelStart(cfg, n, s);
    RunKernel(g, steps);
  }

  ghost predicate BootRun(cfg: Config, n: Limits, s: Setup, steps: seq<Step>)
    requires Bootable(cfg, n, s)
  {
    LegalRun(Booted(cfg, n, s), steps) && RunFits(Booted(cfg, n, s), steps)
  }

  lemma BootRunFacts(cfg: Config, n: Limits, s: Setup, steps: seq<Step>)
    requires Bootable(cfg, n, s) && BootRun(cfg, n, s, steps)
    ensures KernelOK(Booted(cfg, n, s)) && LegalRun(Booted(cfg, n, s), steps) && RunFits(Booted(cfg, n, s), steps)
  {
    hide KernelOK, Booted, LegalRun, RunFits, Bootable;
  }
}
