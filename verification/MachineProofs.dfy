/** The kernel invariant is kept by every step, hence holds in every run. */
module MachineProofs {
  import opened KernelState
  import opened Sched
  import opened SchedProofs
  import opened Invariants
  import opened TaskProofs
  import opened ObjectProofs
  import opened Machine
  import QueueProofs
  import EventProofs
  import Task
  import MessageQueue

  lemma KernelDefined(k: Kernel)
    requires KernelOK(k)
    ensures Defined(k)
  {
    hide SchedOK, ObjectsOK, Defined;
    SoundDefined(k);
  }

  lemma SoundDefined(k: Kernel)
    requires SchedOK(k) && ObjectsOK(k)
    ensures Defined(k)
  {
    QueueProofs.MembersOK(k);
    RecycleOK(k);
    QueueProofs.MembersOK(Task.Recycle(k));
    assert Members(Task.Recycle(k), FreeList);
    SchedScannable(k);
    forall q: nat ensures MessageQueue.Ready(k, q) {
      QueueProofs.SoundReady(k, q);
    }
    forall i | 0 <= i < |k.obj.muxes| && k.obj.muxes[i].count > 0
      ensures k.obj.muxes[i].owner.Some? && k.obj.muxes[i].owner.value < |k.tcbs|
    {
      assert MuxOK(k, k.obj.muxes[i], At(k.lists, MuxList(i)));
    }
  }

  /** The running task with its pending call taken off its record. */
  function Back(k: Kernel): Kernel
    requires k.run < |k.tcbs|
  {
    var c := k.tcbs[k.run];
    SetTcb(k, k.run, c.(call := NoCall, st := c.st.(timeout := false)))
  }

  lemma BackOK(k: Kernel)
    requires KernelOK(k)
    ensures Settled(Back(k)) && Leaves(k, Back(k), k.run)
  {
    var t := k.run;
    assert TaskOK(k, t);
    OffWaitLists(k, t);
    SetTcbEffect(k, t, Back(k).tcbs[t]);
    assert Placed(Back(k), t);
    OneTaskStep(k, Back(k), t);
  }

  lemma BackObjects(k: Kernel)
    requires KernelOK(k)
    requires k.tcbs[k.run].st.timeout || (!k.tcbs[k.run].call.ReadCall? && !k.tcbs[k.run].call.WriteCall?)
    ensures KernelOK(Back(k))
  {
    BackOK(k);
    assert TaskOK(k, k.run);
    LeavesObjects(k, Back(k), k.run);
  }

  lemma BackFlight(k: Kernel, q: nat, reader: bool)
    requires KernelOK(k) && InFlight(k.tcbs[k.run], q, reader)
    ensures Shape(Back(k)) && |Flight(Back(k), q, reader)| + 1 == |Flight(k, q, reader)|
    ensures Flight(Back(k), q, !reader) == Flight(k, q, !reader)
    ensures q < |k.obj.queues| && k.obj.queues[q].used
  {
    var t := k.run;
    assert t in Flight(k, q, reader);
    assert QueueOK(k, q);
    assert Flight(Back(k), q, reader) == Flight(k, q, reader) - {t};
    FlightSame(k, Back(k), q, !reader);
  }

  lemma BackFits(k: Kernel, q: nat, size: nat)
    requires KernelOK(k) && forall x :: 0 <= x < k.cfg.tasks ==> CallFits(k.tcbs[x], q, size)
    ensures forall x :: 0 <= x < k.cfg.tasks ==> CallFits(Back(k).tcbs[x], q, size)
  {
    forall x | 0 <= x < k.cfg.tasks ensures CallFits(Back(k).tcbs[x], q, size) {
      assert CallFits(k.tcbs[x], q, size);
    }
  }

  /** A woken reader or writer turns the promise made to it back into a spare one. */
  lemma BackPromise(k: Kernel, q: nat, reader: bool)
    requires KernelOK(k) && InFlight(k.tcbs[k.run], q, reader)
    ensures var k1 := Back(k);
            && Settled(k1) && QueueProofs.OthersOK(k1)
            && QueueProofs.QueuesBut(k1, q, if reader then 1 else 0, if reader then 0 else 1)
            && CallFits(k.tcbs[k.run], q, k1.obj.queues[q].size)
  {
    var t := k.run;
    BackOK(k);
    assert TaskOK(k, t);
    QueueProofs.LeavesOthers(k, Back(k), t);
    BackFlight(k, q, reader);
    BackUsed(k, q, reader);
    forall p: nat | p != q ensures QueueOK(Back(k), p) {
      BackOtherQueue(k, p);
    }
  }

  lemma BackUsed(k: Kernel, q: nat, reader: bool)
    requires KernelOK(k) && InFlight(k.tcbs[k.run], q, reader)
    requires q < |k.obj.queues| && k.obj.queues[q].used
    requires Shape(Back(k)) && |Flight(Back(k), q, reader)| + 1 == |Flight(k, q, reader)|
    requires Flight(Back(k), q, !reader) == Flight(k, q, !reader)
    ensures UsedQueueOK(k.obj.queues[q],
                        |Flight(Back(k), q, true)| + (if reader then 1 else 0),
                        |Flight(Back(k), q, false)| + (if reader then 0 else 1),
                        At(k.lists, ReadList(q)), At(k.lists, WriteList(q)))
    ensures forall x :: 0 <= x < k.cfg.tasks ==> CallFits(Back(k).tcbs[x], q, k.obj.queues[q].size)
    ensures CallFits(k.tcbs[k.run], q, k.obj.queues[q].size)
  {
    assert QueueOK(k, q);
    BackFits(k, q, k.obj.queues[q].size);
  }

  lemma BackOtherQueue(k: Kernel, p: nat)
    requires KernelOK(k)
    requires (k.tcbs[k.run].call.ReadCall? || k.tcbs[k.run].call.WriteCall?) && k.tcbs[k.run].call.queue != p
    ensures Shape(Back(k)) && QueueOK(Back(k), p)
  {
    BackOK(k);
    assert QueueOK(k, p);
    FlightSame(k, Back(k), p, true);
    FlightSame(k, Back(k), p, false);
    if p < |k.obj.queues| && k.obj.queues[p].used {
      forall x | 0 <= x < k.cfg.tasks ensures CallFits(Back(k).tcbs[x], p, k.obj.queues[p].size) {
        assert CallFits(k.tcbs[x], p, k.obj.queues[p].size);
        assert x != k.run ==> Back(k).tcbs[x] == k.tcbs[x];
      }
    }
  }

  lemma FinishOK(k: Kernel)
    requires KernelOK(k) && (forall q :: MessageQueue.Ready(k, q))
    ensures CallOK(k, FinishCall(k))
  {
    var c := k.tcbs[k.run];
    var o := FinishCall(k);
    assert TaskOK(k, k.run);
    match c.call {
      case NoCall => Unchanged(k, o);
      case ReadCall(q, room) => FinishRead(k, o);
      case WriteCall(q, front, msg) => FinishWrite(k, o);
      case EventCall(e, mask, mode) =>
        BackObjects(k);
        Unchanged(Back(k), Out(Back(k), o.ret, false));
        if !c.st.timeout && e < |k.obj.events| {
          EventProofs.PollNowOK(Back(k), e, mask, mode);
        }
      case _ =>
        BackObjects(k);
        Unchanged(Back(k), o);
    }
  }

  lemma FinishRead(k: Kernel, o: Out)
    requires KernelOK(k) && (forall q :: MessageQueue.Ready(k, q)) && k.run < |k.tcbs|
    requires k.tcbs[k.run].call.ReadCall? && o == FinishCall(k)
    ensures CallOK(k, o)
  {
    hide *;
    var q, room := k.tcbs[k.run].call.queue, k.tcbs[k.run].call.room;
    if k.tcbs[k.run].st.timeout {
      FinishLate(k);
    } else {
      ReadBack(k, q, room);
      FinishIsRead(k, q, room);
    }
  }

  lemma FinishWrite(k: Kernel, o: Out)
    requires KernelOK(k) && (forall q :: MessageQueue.Ready(k, q)) && k.run < |k.tcbs|
    requires k.tcbs[k.run].call.WriteCall? && o == FinishCall(k)
    ensures CallOK(k, o)
  {
    hide *;
    var c := k.tcbs[k.run].call;
    if k.tcbs[k.run].st.timeout {
      FinishLate(k);
    } else {
      WriteBack(k, c.queue, c.front, c.msg);
      FinishIsWrite(k, c.queue, c.front, c.msg);
    }
  }

  lemma FinishLate(k: Kernel)
    requires KernelOK(k) && (forall q :: MessageQueue.Ready(k, q)) && k.run < |k.tcbs| && k.tcbs[k.run].st.timeout
    requires k.tcbs[k.run].call.ReadCall? || k.tcbs[k.run].call.WriteCall?
    ensures CallOK(k, FinishCall(k))
  {
    BackObjects(k);
    hide KernelOK, CallOK;
    Unchanged(Back(k), FinishCall(k));
    BackCall(k, FinishCall(k));
  }

  lemma BackCall(k: Kernel, o: Out)
    requires k.run < |k.tcbs| && CallOK(Back(k), o)
    ensures CallOK(k, o)
  {
    hide SchedOK, ObjectsOK, Runnable;
  }

  /** The promise made to a woken reader is a message it can read. */
  lemma ReadBack(k: Kernel, q: nat, room: nat)
    requires KernelOK(k) && k.run < |k.tcbs| && k.tcbs[k.run].call == ReadCall(q, room) && !k.tcbs[k.run].st.timeout
    ensures q < |k.obj.queues| && k.obj.queues[q].used && MessageQueue.Ready(Back(k), q)
    ensures CallOK(k, MessageQueue.ReadNow(Back(k), q, room))
  {
    hide *;
    RunFlight(k);
    BackUse(k, q);
    BackReady(k, q);
    BackPromise(k, q, true);
    FitsSlot(k.tcbs[k.run], q, room, Back(k).obj.queues[q].size);
    QueueProofs.ReadNowOK(Back(k), q, room);
    QueueProofs.NowIdle(Back(k), q, room, true, []);
    BackAnswers(k, MessageQueue.ReadNow(Back(k), q, room));
  }

  lemma RunFlight(k: Kernel)
    requires k.run < |k.tcbs| && !k.tcbs[k.run].st.timeout && KernelOK(k)
    requires k.tcbs[k.run].call.ReadCall? || k.tcbs[k.run].call.WriteCall?
    ensures InFlight(k.tcbs[k.run], k.tcbs[k.run].call.queue, k.tcbs[k.run].call.ReadCall?)
  {
    hide SchedOK, ObjectsOK;
  }

  lemma BackReady(k: Kernel, q: nat)
    requires KernelOK(k) && k.run < |k.tcbs| && MessageQueue.Ready(Back(k), q) && q < |k.obj.queues|
    requires k.obj.queues[q].used
    ensures var k1 := Back(k);
            && k1.obj == k.obj && MessageQueue.RingShape(k1.obj.queues[q]) && IdleMade(k1)
            && Members(k1, ReadList(q)) && Members(k1, WriteList(q)) && k1.run < |k1.tcbs|
            && k1.run == k.run && k1.now == k.now && k1.cfg == k.cfg
  {
    hide SchedOK, ObjectsOK;
  }

  lemma FitsSlot(c: Tcb, q: nat, room: nat, size: nat)
    requires CallFits(c, q, size) && !c.st.timeout
    ensures c.call == ReadCall(q, room) ==> size <= room + MessageQueue.WORD
    ensures c.call.WriteCall? && c.call.queue == q ==> |c.call.msg| + MessageQueue.WORD <= size
  {
  }

  lemma BackAnswers(k: Kernel, o: Out)
    requires KernelOK(k) && k.run < |k.tcbs| && SchedOK(o.k) && ObjectsOK(o.k) && o.k.run == k.run && o.k.now == k.now
    requires o.k.cfg == k.cfg && IdleMade(o.k) && o.ret != Waiting
    requires o.k.tcbs[k.run] == Back(k).tcbs[k.run]
    ensures CallOK(k, o)
  {
    SettledSwitchable(k);
    hide SchedOK, ObjectsOK;
  }

  lemma WriteBack(k: Kernel, q: nat, front: bool, msg: seq<Byte>)
    requires KernelOK(k) && k.run < |k.tcbs| && k.tcbs[k.run].call == WriteCall(q, front, msg)
    requires !k.tcbs[k.run].st.timeout
    ensures q < |k.obj.queues| && k.obj.queues[q].used && MessageQueue.Ready(Back(k), q)
    ensures CallOK(k, MessageQueue.WriteNow(Back(k), q, front, msg))
  {
    hide *;
    RunFlight(k);
    BackUse(k, q);
    BackReady(k, q);
    BackPromise(k, q, false);
    FitsSlot(k.tcbs[k.run], q, 0, Back(k).obj.queues[q].size);
    QueueProofs.WriteNowOK(Back(k), q, front, msg);
    QueueProofs.NowIdle(Back(k), q, 0, front, msg);
    BackAnswers(k, MessageQueue.WriteNow(Back(k), q, front, msg));
  }

  lemma BackUse(k: Kernel, q: nat)
    requires KernelOK(k) && (InFlight(k.tcbs[k.run], q, true) || InFlight(k.tcbs[k.run], q, false))
    ensures q < |k.obj.queues| && k.obj.queues[q].used && MessageQueue.Ready(Back(k), q)
  {
    BackOK(k);
    BackFlight(k, q, InFlight(k.tcbs[k.run], q, true));
    QueueProofs.MembersOK(Back(k));
    assert QueueOK(k, q);
    hide KernelOK, Settled;
  }

  lemma FinishIsRead(k: Kernel, q: nat, room: nat)
    requires k.run < |k.tcbs| && (forall p :: MessageQueue.Ready(k, p))
    requires k.tcbs[k.run].call == ReadCall(q, room) && !k.tcbs[k.run].st.timeout
    requires q < |k.obj.queues| && k.obj.queues[q].used && MessageQueue.Ready(Back(k), q)
    ensures FinishCall(k) == MessageQueue.ReadNow(Back(k), q, room)
  {
    hide MessageQueue.ReadNow;
  }

  lemma FinishIsWrite(k: Kernel, q: nat, front: bool, msg: seq<Byte>)
    requires k.run < |k.tcbs| && (forall p :: MessageQueue.Ready(k, p))
    requires k.tcbs[k.run].call == WriteCall(q, front, msg) && !k.tcbs[k.run].st.timeout
    requires q < |k.obj.queues| && k.obj.queues[q].used && MessageQueue.Ready(Back(k), q)
    ensures FinishCall(k) == MessageQueue.WriteNow(Back(k), q, front, msg)
  {
    hide MessageQueue.WriteNow;
  }

  // ---- Legal steps ----

  /** The time a call is ready to wait; 0 for a call that never waits. */
  function Patience(op: Op): nat {
    match op
    case TaskDelay(ticks) => ticks
    case SemPend(_, timeout) => timeout
    case MuxPend(_, timeout) => timeout
    case QueueRead(_, _, timeout) => timeout
    case QueueWrite(_, _, _, timeout) => timeout
    case EventRead(_, _, _, timeout) => timeout
    case _ => 0
  }

  /** What the kernel relies on its callers for. */
  ghost predicate OpLegal(k: Kernel, op: Op, inInt: bool)
    requires Shape(k)
  {
    && (Patience(op) > 0 && !inInt ==> k.run != k.cfg.idle)
    && (op.TaskDelete? && op.t < k.cfg.tasks ==> Deletable(k, op.t))
    && (op.EventInit? ==> At(k.lists, EventList(op.event)) == [])
    && (op.Tick? ==> inInt && k.now <= op.scanAt <= op.at)
  }

  ghost predicate Legal(k: Kernel, s: Step)
    requires Shape(k)
  {
    match s
    case Call(op, now) =>
      OpLegal(k, op, false) && k.now <= now && (op.Finish? <==> !k.tcbs[k.run].call.NoCall?)
    case Interrupt(op) =>
      // A handler does not delete or suspend the task it has interrupted: that would be a wait.
      OpLegal(k, op, true) && !op.Finish? && (op.TaskDelete? || op.TaskSuspend? ==> op.t != k.run)
    case PendSV(now) => k.now <= now && k.lock == 0
  }

  lemma DoSemOK(k: Kernel, op: Op, inInt: bool)
    requires KernelOK(k) && Defined(k) && OpLegal(k, op, inInt) && ServiceOf(op) == OnSem
    requires !inInt ==> k.tcbs[k.run].call.NoCall?
    ensures CallOK(k, DoSem(k, op, inInt))
  {
    hide CallOK, KernelOK, Defined;
    match op {
      case SemCreate(count, max) => SemCreateOK(k, count, max);
      case SemDelete(s) => SemDeleteOK(k, s);
      case SemPend(s, timeout) => SemPendOK(k, s, timeout, inInt);
      case SemPost(s) => SemPostOK(k, s);
    }
  }

  lemma DoMuxOK(k: Kernel, op: Op, inInt: bool)
    requires KernelOK(k) && Defined(k) && OpLegal(k, op, inInt) && ServiceOf(op) == OnMux
    requires !inInt ==> k.tcbs[k.run].call.NoCall?
    ensures CallOK(k, DoMux(k, op, inInt))
  {
    hide CallOK, KernelOK, Defined;
    match op {
      case MuxCreate => MuxCreateOK(k);
      case MuxDelete(m) => MuxDeleteOK(k, m);
      case MuxPend(m, timeout) => MuxPendOK(k, m, timeout, inInt);
      case MuxPost(m) => MuxPostOK(k, m);
    }
  }

  lemma DoQueueOK(k: Kernel, op: Op, inInt: bool)
    requires KernelOK(k) && Defined(k) && OpLegal(k, op, inInt) && ServiceOf(op) == OnQueue
    requires !inInt ==> k.tcbs[k.run].call.NoCall?
    ensures CallOK(k, DoQueue(k, op, inInt))
  {
    hide CallOK, KernelOK, Defined;
    match op {
      case QueueCreate(len, maxMsg, memory) => QueueProofs.CreateQueueOK(k, len, maxMsg, memory);
      case QueueDelete(q) => QueueProofs.DeleteQueueOK(k, q);
      case QueueRead(q, room, timeout) => QueueProofs.ReadOK(k, q, room, timeout, inInt);
      case QueueWrite(q, front, msg, timeout) => QueueProofs.WriteOK(k, q, front, msg, timeout, inInt);
    }
  }

  lemma DoEventOK(k: Kernel, op: Op, inInt: bool)
    requires KernelOK(k) && Defined(k) && OpLegal(k, op, inInt) && ServiceOf(op) == OnEvent
    requires !inInt ==> k.tcbs[k.run].call.NoCall?
    ensures CallOK(k, DoEvent(k, op, inInt))
  {
    hide CallOK, KernelOK, Defined;
    match op {
      case EventInit(e) => EventProofs.InitOK(k, e);
      case EventRead(e, mask, mode, timeout) => EventProofs.ReadOK(k, e, mask, mode, timeout, inInt);
      case EventWrite(e, events) => EventProofs.WriteOK(k, e, events);
      case EventClear(e, events) => EventProofs.ClearOK(k, e, events);
      case EventDestroy(e) => EventProofs.DestroyOK(k, e);
    }
  }

  lemma DoTaskOK(k: Kernel, op: Op, inInt: bool)
    requires KernelOK(k) && Defined(k) && OpLegal(k, op, inInt) && ServiceOf(op) == OnTask
    requires !inInt ==> (op.Finish? <==> !k.tcbs[k.run].call.NoCall?)
    ensures CallOK(if op.Tick? then k.(now := op.at) else k, DoTask(k, op, inInt))
  {
    hide *;
    DoTaskIs(k, op, inInt);
    OnTaskOps(op);
    TaskOpLegal(k, op, inInt);
    match op {
      case TaskCreateOnly(prio, memory) => CreateOnlyOK(k, prio, memory);
      case TaskCreate(prio, memory) => CreateOK(k, prio, memory);
      case TaskDelete(t) => DeleteOK(k, t);
      case TaskSuspend(t) => SuspendOK(k, t);
      case TaskResume(t) => ResumeOK(k, t);
      case TaskDelay(ticks) => DelayOK(k, ticks, inInt);
      case TaskYield => YieldOK(k);
      case TaskPriSet(t, prio) => PriSetOK(k, t, prio);
      case TaskLock => LocksOK(k);
      case TaskUnlock => LocksOK(k);
      case TaskRecycle => RecycleCallOK(k);
      case Finish => FinishOK(k);
      case Tick(scanAt, at, scan) => TickOK(k, scanAt, at, scan);
      case _ =>
    }
  }

  lemma LocksOK(k: Kernel)
    requires KernelOK(k)
    ensures CallOK(k, Task.Lock(k)) && CallOK(k, Task.Unlock(k))
  {
    LockOK(k, Task.Lock(k));
    LockOK(k, Task.Unlock(k));
    hide CallOK, KernelOK;
  }

  lemma TaskOpLegal(k: Kernel, op: Op, inInt: bool)
    requires KernelOK(k) && OpLegal(k, op, inInt)
    ensures k.run < |k.tcbs|
    ensures op.TaskDelete? && op.t < k.cfg.tasks ==> Deletable(k, op.t)
    ensures op.TaskDelay? && op.ticks > 0 && !inInt ==> k.run != k.cfg.idle
    ensures op.Tick? ==> inInt && k.now <= op.scanAt <= op.at
  {
    hide Deletable;
  }

  lemma DefinedReady(k: Kernel)
    requires Defined(k)
    ensures forall q :: MessageQueue.Ready(k, q)
  {
  }

  lemma FinishIsTask(k: Kernel, op: Op, inInt: bool)
    requires Defined(k) && op.Finish?
    ensures k.run < |k.tcbs| && forall p :: MessageQueue.Ready(k, p)
    ensures DoTask(k, op, inInt) == FinishCall(k)
  {
  }

  lemma DoOK(k: Kernel, op: Op, inInt: bool)
    requires KernelOK(k) && OpLegal(k, op, inInt)
    requires !inInt ==> (op.Finish? <==> !k.tcbs[k.run].call.NoCall?)
    ensures Defined(k)
    ensures CallOK(if op.Tick? then k.(now := op.at) else k, Do(k, op, inInt))
  {
    KernelDefined(k);
    hide DoTask, DoSem, DoMux, DoQueue, DoEvent, KernelOK, Defined, CallOK;
    match ServiceOf(op) {
      case OnTask => DoTaskOK(k, op, inInt);
      case OnSem => DoSemOK(k, op, inInt);
      case OnMux => DoMuxOK(k, op, inInt);
      case OnQueue => DoQueueOK(k, op, inInt);
      case OnEvent => DoEventOK(k, op, inInt);
    }
  }

  // ---- Steps and runs ----

  /** LOS_Schedule, and the pended switch: OsSchedTaskSwitch unless the scheduler is locked. */
  ghost function Reschedule(k: Kernel, now: nat): (k': Kernel)
    requires SchedOK(k) && Switchable(k) && ObjectsOK(k) && k.now <= now
    ensures k'.cfg == k.cfg
    ensures k.lock == 0 ==> KernelOK(k') && Best(k', k'.run)
    ensures k.lock != 0 ==> k' == k
  {
    if k.lock != 0 then k
    else
      SwitchOK(k, now);
      QuietObjects(k, Switch(k, now));
      Switch(k, now)
  }

  ghost function Next(k: Kernel, s: Step): (k': Kernel)
    requires KernelOK(k) && Legal(k, s)
    ensures KernelOK(k') && k'.cfg == k.cfg
  {
    match s
    case Call(op, now) =>
      DoOK(k, op, false);
      var o := Do(k, op, false);
      if o.sched then Reschedule(o.k, now) else o.k
    case Interrupt(op) =>
      DoOK(k, op, true);
      HandlerReturns(k, op);
      Do(k, op, true).k
    case PendSV(now) =>
      SettledSwitchable(k);
      Reschedule(k, now)
  }

  /** What a call by the running task leaves: a switch takes place if the call asks for one and the lock allows it. */
  lemma NextCallIs(k: Kernel, op: Op, now: nat)
    requires KernelOK(k) && Legal(k, Call(op, now))
    ensures Defined(k)
    ensures var o, k' := Do(k, op, false), Next(k, Call(op, now));
            && (!o.sched || o.k.lock != 0 ==> k' == o.k)
            && (o.sched && o.k.lock == 0 ==>
                  && SchedOK(o.k) && Switchable(o.k) && ObjectsOK(o.k) && o.k.now <= now
                  && Shape(o.k) && Top(Park(ChargeSlice(o.k, now))) < |o.k.tcbs| && k' == Switch(o.k, now))
  {
    DoOK(k, op, false);
    var o := Do(k, op, false);
    if o.sched && o.k.lock == 0 {
      SwitchOK(o.k, now);
    }
    hide Do, Defined, KernelOK, Switch, Top, Park, ChargeSlice, SchedOK, ObjectsOK, Switchable;
  }

  /** A handler's call never leaves the interrupted task unable to go on. */
  lemma HandlerReturns(k: Kernel, op: Op)
    requires KernelOK(k) && Legal(k, Interrupt(op)) && Defined(k)
    ensures Do(k, op, true).ret != Waiting
  {
    hide DoTask, DoSem, DoMux, DoQueue, DoEvent, KernelOK, Defined;
    match ServiceOf(op) {
      case OnTask => HandlerTaskReturns(k, op);
      case OnSem => HandlerSemReturns(k, op);
      case OnMux => HandlerMuxReturns(k, op);
      case OnQueue => HandlerQueueReturns(k, op);
      case OnEvent => HandlerEventReturns(k, op);
    }
  }

  lemma HandlerSemReturns(k: Kernel, op: Op)
    requires Defined(k) && ServiceOf(op) == OnSem
    ensures DoSem(k, op, true).ret != Waiting
  {
  }

  lemma HandlerMuxReturns(k: Kernel, op: Op)
    requires Defined(k) && ServiceOf(op) == OnMux
    ensures DoMux(k, op, true).ret != Waiting
  {
  }

  lemma HandlerQueueReturns(k: Kernel, op: Op)
    requires Defined(k) && ServiceOf(op) == OnQueue
    ensures DoQueue(k, op, true).ret != Waiting
  {
  }

  lemma HandlerEventReturns(k: Kernel, op: Op)
    requires Defined(k) && ServiceOf(op) == OnEvent
    ensures DoEvent(k, op, true).ret != Waiting
  {
  }

  lemma HandlerTaskReturns(k: Kernel, op: Op)
    requires KernelOK(k) && Legal(k, Interrupt(op)) && Defined(k) && ServiceOf(op) == OnTask
    ensures DoTask(k, op, true).ret != Waiting
  {
    if op.TaskDelete? {
      DeleteReturns(k, op.t);
    }
    hide KernelOK, Task.Recycle, Unlink, EnQueue, DeQueue, Exit, ModifyPrio, Task.Delete, ScanTimers;
  }

  lemma DeleteReturns(k: Kernel, t: nat)
    requires KernelOK(k) && t != k.run
    ensures Task.Delete(k, t).ret != Waiting
  {
    if t < k.cfg.tasks {
      assert TaskOK(k, t);
    }
  }

  ghost predicate LegalRun(k: Kernel, steps: seq<Step>)
    requires KernelOK(k)
    decreases |steps|
  {
    steps == [] || (Legal(k, steps[0]) && LegalRun(Next(k, steps[0]), steps[1..]))
  }

  /** The state after a run; its postcondition is the safety statement for all runs. */
  ghost function Run(k: Kernel, steps: seq<Step>): (k': Kernel)
    requires KernelOK(k) && LegalRun(k, steps)
    ensures KernelOK(k') && k'.cfg == k.cfg
    decreases |steps|
  {
    if steps == [] then k else Run(Next(k, steps[0]), steps[1..])
  }
}
