/** Priorities change only where a call says so: at creation, on request, and by mutex boost and restore. */
module Priorities {
  import opened Deadlines
  import opened KernelState
  import opened Sched
  import opened SchedProofs
  import opened Machine
  import opened MachineProofs
  import QueueProofs
  import Task
  import MessageQueue
  import EventFlags

  ghost predicate PrioSame(k: Kernel, k': Kernel) {
    |k'.tcbs| == |k.tcbs| && forall t :: 0 <= t < |k.tcbs| ==> k'.tcbs[t].prio == k.tcbs[t].prio
  }

  lemma PrioTrans(k: Kernel, k1: Kernel, k2: Kernel)
    requires PrioSame(k, k1) && PrioSame(k1, k2)
    ensures PrioSame(k, k2)
  {
  }

  lemma SetPrio(k: Kernel, k': Kernel, t: Tid, c: Tcb)
    requires t < |k.tcbs| && k'.tcbs == k.tcbs[t := c] && c.prio == k.tcbs[t].prio
    ensures PrioSame(k, k')
  {
  }

  lemma EnQueuePrio(k: Kernel, t: Tid)
    requires t < |k.tcbs|
    ensures PrioSame(k, EnQueue(k, t))
  {
    SetPrio(k, EnQueue(k, t), t, EnQueue(k, t).tcbs[t]);
  }

  lemma DeQueuePrio(k: Kernel, t: Tid)
    requires t < |k.tcbs|
    ensures PrioSame(k, DeQueue(k, t))
  {
  }

  lemma ExitPrio(k: Kernel, t: Tid)
    requires t < |k.tcbs|
    ensures PrioSame(k, Exit(k, t))
  {
    DeQueuePrio(k, t);
    hide DeQueue;
  }

  lemma WakePrio(k: Kernel, t: Tid)
    requires t < |k.tcbs|
    ensures PrioSame(k, Wake(k, t))
  {
    var c := k.tcbs[t];
    var k1 := k.(lists := Unlink(k.lists, t), timers := if c.st.pendTime then Remove(k.timers, t) else k.timers);
    var k2 := SetTcb(k1, t, c.(st := c.st.(pend := false, pendTime := false)));
    SetPrio(k, k2, t, k2.tcbs[t]);
    EnQueuePrio(k2, t);
    hide EnQueue;
    PrioTrans(k, k2, Wake(k, t));
  }

  lemma TimeoutWakePrio(k: Kernel, t: Tid)
    requires t < |k.tcbs|
    ensures PrioSame(k, TimeoutWake(k, t))
  {
    var c := k.tcbs[t];
    var st := c.st.(pend := false, pendTime := false, delay := false);
    var k1 := if c.st.pend then SetTcb(k, t, c.(st := st.(timeout := true))).(lists := Unlink(k.lists, t))
              else SetTcb(k, t, c.(st := st));
    SetPrio(k, k1, t, k1.tcbs[t]);
    EnQueuePrio(k1, t);
    hide EnQueue;
  }

  lemma TimeoutWakeTimers(k: Kernel, t: Tid)
    requires t < |k.tcbs|
    ensures TimeoutWake(k, t).timers == k.timers
  {
  }

  lemma {:induction false} ScanPrio(k: Kernel, now: nat)
    requires Scannable(k)
    ensures PrioSame(k, ScanTimers(k, now).0)
    decreases |k.timers|
  {
    if HeadDue(k, now) {
      assert k.timers[0] in k.timers;
      var t := k.timers[0].id;
      var k1 := k.(timers := Remove(k.timers, t));
      TimeoutWakePrio(k1, t);
      var k2 := TimeoutWake(k1, t);
      TimeoutWakeTimers(k1, t);
      hide TimeoutWake;
      assert forall e :: e in k2.timers ==> e in k.timers;
      ScanPrio(k2, now);
      PrioTrans(k1, k2, ScanTimers(k2, now).0);
    }
  }

  lemma {:induction false} WalkPrio(k: Kernel, todo: seq<Tid>, test: (bv32, bv32) -> bool)
    requires forall t :: t in todo ==> t < |k.tcbs|
    ensures PrioSame(k, EventFlags.WakeWhere(k, todo, test).0)
    decreases |todo|
  {
    if todo != [] {
      assert todo[0] in todo && forall t :: t in todo[1..] ==> t in todo;
      WakePrio(k, todo[0]);
      WalkPrio(if EventFlags.Hit(k, todo[0], test) then Wake(k, todo[0]) else k, todo[1..], test);
    }
  }

  lemma ParkPrio(k: Kernel)
    requires k.run < |k.tcbs|
    ensures PrioSame(k, Park(k))
  {
    EnQueuePrio(k, k.run);
    hide EnQueue;
  }

  lemma DispatchPrio(k: Kernel, n: Tid)
    requires k.run < |k.tcbs| && n < |k.tcbs|
    ensures PrioSame(k, Dispatch(k, n))
  {
    DeQueuePrio(k, n);
    if k.run != n {
      var k0 := SetTcb(k, k.run, k.tcbs[k.run].(st := k.tcbs[k.run].st.(running := false)));
      SetPrio(k, k0, k.run, k0.tcbs[k.run]);
      var k1 := SetTcb(k0, n, k0.tcbs[n].(st := k0.tcbs[n].st.(running := true), start := k.tcbs[k.run].start));
      SetPrio(k0, k1, n, k1.tcbs[n]);
      DeQueuePrio(k1, n);
      PrioTrans(k, k0, k1);
      PrioTrans(k, k1, DeQueue(k1, n));
    }
    hide DeQueue;
  }

  lemma SwitchPrio(k: Kernel, now: nat)
    requires SchedOK(k) && Switchable(k) && k.now <= now
    ensures Top(Park(ChargeSlice(k, now))) < |k.tcbs| && PrioSame(k, Switch(k, now))
  {
    SwitchOK(k, now);
    var k0 := ChargeSlice(k, now);
    SetPrio(k, k0, k.run, k0.tcbs[k.run]);
    ParkPrio(k0);
    ParkFrame(k0);
    DispatchPrio(Park(k0), Top(Park(k0)));
    hide Park, Dispatch, SchedOK;
    PrioTrans(k, k0, Park(k0));
    PrioTrans(k, Park(k0), Switch(k, now));
  }

  /** Calls that may change a priority. */
  predicate Reprioritizes(op: Op) {
    op.TaskCreate? || op.TaskCreateOnly? || op.TaskPriSet? || op.MuxPend? || op.MuxPost?
  }

  lemma TaskCallPrio(k: Kernel, op: Op, inInt: bool)
    requires Defined(k) && ServiceOf(op) == OnTask && !Reprioritizes(op) && !op.Finish?
    ensures PrioSame(k, DoTask(k, op, inInt).k)
  {
    hide *;
    OnTaskOps(op);
    DoTaskIs(k, op, inInt);
    InRange(k);
    if op.TaskDelete? {
      DeletePrio(k, op.t);
    } else if op.TaskSuspend? {
      SuspendPrio(k, op.t);
    } else if op.TaskResume? {
      ResumePrio(k, op.t);
    } else if op.Tick? {
      TickPrio(k, op.scanAt, op.at, op.scan);
    } else {
      SimplePrio(k, op, inInt);
    }
  }

  lemma InRange(k: Kernel)
    requires Defined(k)
    ensures k.run < |k.tcbs| && k.cfg.tasks < |k.tcbs|
  {
  }

  lemma SimplePrio(k: Kernel, op: Op, inInt: bool)
    requires Defined(k) && ServiceOf(op) == OnTask && !Reprioritizes(op)
    requires !op.Finish? && !op.TaskDelete? && !op.TaskSuspend? && !op.TaskResume? && !op.Tick?
    ensures PrioSame(k, DoTask(k, op, inInt).k)
  {
    OnTaskOps(op);
    DoTaskIs(k, op, inInt);
    hide Defined, DoTask, Task.Recycle;
  }

  lemma TickPrio(k: Kernel, scanAt: nat, at: nat, scan: bool)
    requires k.run < |k.tcbs| && forall e :: e in k.timers ==> e.id < |k.tcbs|
    ensures PrioSame(k, Task.Tick(k, scanAt, at, scan).k)
  {
    ScanPrio(k, scanAt);
    hide ScanTimers;
  }

  lemma SuspendPrio(k: Kernel, t: nat)
    requires k.cfg.tasks < |k.tcbs|
    ensures PrioSame(k, Task.Suspend(k, t).k)
  {
    if t < |k.tcbs| {
      DeQueuePrio(k, t);
    }
    hide DeQueue;
  }

  lemma ResumePrio(k: Kernel, t: nat)
    requires k.cfg.tasks < |k.tcbs|
    ensures PrioSame(k, Task.Resume(k, t).k)
  {
    if t < |k.tcbs| {
      var k1 := SetTcb(k, t, k.tcbs[t].(st := k.tcbs[t].st.(suspend := false)));
      SetPrio(k, k1, t, k1.tcbs[t]);
      EnQueuePrio(k1, t);
    }
    hide EnQueue;
  }

  lemma DeletePrio(k: Kernel, t: nat)
    requires k.cfg.tasks < |k.tcbs|
    ensures PrioSame(k, Task.Delete(k, t).k)
  {
    if t < k.cfg.tasks {
      ExitPrio(k.(lock := 0), t);
      ExitPrio(k.(lock := k.lock), t);
      hide Exit;
    }
  }

  lemma HeadMember(k: Kernel, l: ListId)
    requires Defined(k) && At(k.lists, l) != []
    ensures At(k.lists, l)[0] < |k.tcbs| && k.run < |k.tcbs|
  {
    assert Members(k, l);
    assert At(k.lists, l)[0] in At(k.lists, l);
  }

  lemma WaitPrio(k: Kernel, call: Call, ticks: nat)
    requires k.run < |k.tcbs|
    ensures PrioSame(k, Wait(k, call, ticks))
  {
  }

  lemma SemCallPrio(k: Kernel, op: Op, inInt: bool)
    requires Defined(k) && ServiceOf(op) == OnSem
    ensures PrioSame(k, DoSem(k, op, inInt).k)
  {
    if op.SemPost? && At(k.lists, SemList(op.sem)) != [] {
      HeadMember(k, SemList(op.sem));
      WakePrio(k, At(k.lists, SemList(op.sem))[0]);
    }
    hide Wake, Wait, Defined;
    if op.SemPend? {
      WaitPrio(k, SemCall(op.sem), op.timeout);
    }
  }

  lemma SlotPrio(k: Kernel, q: nat)
    requires q < |k.obj.queues| && Members(k, WriteList(q)) && Members(k, ReadList(q))
    ensures PrioSame(k, MessageQueue.FreeSlot(k, q).0) && PrioSame(k, MessageQueue.FillSlot(k, q).0)
  {
    var wl, rl := At(k.lists, WriteList(q)), At(k.lists, ReadList(q));
    if wl != [] {
      assert wl[0] in wl;
      WakePrio(k, wl[0]);
    }
    if rl != [] {
      assert rl[0] in rl;
      WakePrio(k, rl[0]);
    }
    hide Wake;
  }

  lemma NowPrio(k: Kernel, q: nat, room: nat, front: bool, msg: seq<Byte>)
    requires q < |k.obj.queues| && MessageQueue.RingShape(k.obj.queues[q]) && Members(k, WriteList(q))
             && Members(k, ReadList(q))
    ensures PrioSame(k, MessageQueue.ReadNow(k, q, room).k) && PrioSame(k, MessageQueue.WriteNow(k, q, front, msg).k)
  {
    SlotPrio(MessageQueue.SetQueue(k, q, MessageQueue.RingRead(k.obj.queues[q]).0), q);
    SlotPrio(MessageQueue.SetQueue(k, q, MessageQueue.RingWrite(k.obj.queues[q], front, msg)), q);
    hide MessageQueue.FreeSlot, MessageQueue.FillSlot;
  }

  lemma ReadPrio(k: Kernel, q: nat, room: nat, timeout: nat, inInt: bool)
    requires MessageQueue.Ready(k, q)
    ensures PrioSame(k, MessageQueue.Read(k, q, room, timeout, inInt).k)
  {
    if q < |k.obj.queues| && k.obj.queues[q].used && k.obj.queues[q].readable > 0 {
      var k1 := MessageQueue.SetQueue(k, q, k.obj.queues[q].(readable := k.obj.queues[q].readable - 1));
      NowPrio(k1, q, room, true, []);
    }
    WaitPrio(k, ReadCall(q, room), timeout);
    hide MessageQueue.ReadNow, Wait;
  }

  lemma WritePrio(k: Kernel, q: nat, front: bool, msg: seq<Byte>, timeout: nat, inInt: bool)
    requires MessageQueue.Ready(k, q)
    ensures PrioSame(k, MessageQueue.Write(k, q, front, msg, timeout, inInt).k)
  {
    if q < |k.obj.queues| && k.obj.queues[q].used && k.obj.queues[q].writable > 0 {
      var k1 := MessageQueue.SetQueue(k, q, k.obj.queues[q].(writable := k.obj.queues[q].writable - 1));
      NowPrio(k1, q, 0, front, msg);
    }
    WaitPrio(k, WriteCall(q, front, msg), timeout);
    QueueProofs.WriteCases(k, q, front, msg, timeout, inInt);
    hide MessageQueue.Write, MessageQueue.WriteNow, Wait;
  }

  lemma QueueCallPrio(k: Kernel, op: Op, inInt: bool)
    requires Defined(k) && ServiceOf(op) == OnQueue
    ensures PrioSame(k, DoQueue(k, op, inInt).k)
  {
    if op.QueueRead? {
      assert MessageQueue.Ready(k, op.queue);
      ReadPrio(k, op.queue, op.room, op.timeout, inInt);
    } else if op.QueueWrite? {
      assert MessageQueue.Ready(k, op.queue);
      WritePrio(k, op.queue, op.front, op.msg, op.timeout, inInt);
    }
    hide MessageQueue.Read, MessageQueue.Write, Defined;
  }

  lemma EventWritePrio(k: Kernel, e: nat, events: bv32)
    requires Members(k, EventList(e))
    ensures PrioSame(k, EventFlags.Write(k, e, events).k)
  {
    hide PrioSame, EventFlags.WakeWhere, EventFlags.Satisfied;
    PrioSelf(k);
    if e < |k.obj.events| && k.obj.events[e].ready && events & EventFlags.ERROR_BIT == 0 {
      var bits := k.obj.events[e].bits | events;
      var k1 := EventFlags.SetEvent(k, e, k.obj.events[e].(bits := bits));
      ObjectsPrio(k, k1);
      WalkPrio(k1, At(k.lists, EventList(e)), (mask, mode) => EventFlags.Satisfied(mask, mode, events, bits));
      PrioTrans(k, k1, EventFlags.Write(k, e, events).k);
    }
  }

  lemma PrioSelf(k: Kernel)
    ensures PrioSame(k, k)
  {
  }

  lemma ObjectsPrio(k: Kernel, k': Kernel)
    requires k' == k.(obj := k'.obj)
    ensures PrioSame(k, k')
  {
  }

  lemma EventReadPrio(k: Kernel, e: nat, mask: bv32, mode: bv32, timeout: nat, inInt: bool)
    requires k.run < |k.tcbs|
    ensures PrioSame(k, EventFlags.Read(k, e, mask, mode, timeout, inInt).k)
  {
    hide EventFlags.Poll, EventFlags.ModeOK;
  }

  lemma EventCallPrio(k: Kernel, op: Op, inInt: bool)
    requires Defined(k) && ServiceOf(op) == OnEvent
    ensures PrioSame(k, DoEvent(k, op, inInt).k)
  {
    if op.EventWrite? {
      assert Members(k, EventList(op.event));
      EventWritePrio(k, op.event, op.events);
    } else if op.EventRead? {
      EventReadPrio(k, op.event, op.mask, op.mode, op.timeout, inInt);
    }
    hide EventFlags.Write, EventFlags.Read, Defined;
  }

  lemma FinishPrio(k: Kernel)
    requires k.run < |k.tcbs| && (forall q :: MessageQueue.Ready(k, q))
    ensures PrioSame(k, FinishCall(k).k)
  {
    var c := k.tcbs[k.run].call;
    hide EventFlags.Poll;
    if (c.ReadCall? || c.WriteCall?) && c.queue < |k.obj.queues| && k.obj.queues[c.queue].used {
      assert MessageQueue.Ready(k, c.queue);
      if c.ReadCall? {
        NowPrio(Back(k), c.queue, c.room, true, []);
      } else {
        NowPrio(Back(k), c.queue, 0, c.front, c.msg);
      }
      hide MessageQueue.ReadNow, MessageQueue.WriteNow;
    }
  }

  lemma DoPrio(k: Kernel, op: Op, inInt: bool)
    requires Defined(k) && !Reprioritizes(op)
    ensures PrioSame(k, Do(k, op, inInt).k)
  {
    hide DoTask, DoSem, DoMux, DoQueue, DoEvent, PrioSame;
    match ServiceOf(op) {
      case OnTask =>
        if op.Finish? {
          FinishIsTask(k, op, inInt);
          FinishPrio(k);
        } else {
          TaskCallPrio(k, op, inInt);
        }
      case OnSem => SemCallPrio(k, op, inInt);
      case OnMux => MuxCallPrio(k, op, inInt);
      case OnQueue => QueueCallPrio(k, op, inInt);
      case OnEvent => EventCallPrio(k, op, inInt);
    }
  }

  lemma MuxCallPrio(k: Kernel, op: Op, inInt: bool)
    requires Defined(k) && ServiceOf(op) == OnMux && !Reprioritizes(op)
    ensures PrioSame(k, DoMux(k, op, inInt).k)
  {
    hide Defined;
  }
}
