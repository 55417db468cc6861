/** Wait lists are first in, first out: the head has waited at least as long as anybody behind it. */
module WaitOrder {
  import opened Sequences
  import opened Deadlines
  import opened KernelState
  import opened Sched
  import opened SchedProofs
  import opened TaskProofs
  import opened Machine
  import opened MachineProofs
  import EventFlags
  import Invariants
  import MessageQueue
  import Mutex
  import Task

  ghost predicate Before(s: seq<Tid>, a: Tid, b: Tid) {
    exists i, j :: 0 <= i < j < |s| && s[i] == a && s[j] == b
  }

  /** `r` has no pair of tasks in another order than `s`, except that `x` may have come in behind others. */
  ghost predicate OrderKept(s: seq<Tid>, r: seq<Tid>, x: Tid) {
    forall a, b :: Before(r, a, b) ==> Before(s, a, b) || b == x
  }

  ghost predicate Kept(m: Lists, m': Lists, x: Tid) {
    forall l: ListId :: l.IsWait() ==> OrderKept(At(m, l), At(m', l), x)
  }

  lemma KeptTrans(m: Lists, m1: Lists, m2: Lists, x: Tid)
    requires Kept(m, m1, x) && Kept(m1, m2, x)
    ensures Kept(m, m2, x)
  {
    forall l: ListId | l.IsWait() ensures OrderKept(At(m, l), At(m2, l), x) {
      assert OrderKept(At(m, l), At(m1, l), x) && OrderKept(At(m1, l), At(m2, l), x);
    }
  }

  lemma KeptSame(m: Lists, x: Tid)
    ensures Kept(m, m, x)
  {
  }

  // ---- Lists ----

  lemma {:induction false} DropOrder(s: seq<Tid>, t: Tid, i: nat, j: nat)
    requires i < j < |Drop(s, t)|
    ensures Before(s, Drop(s, t)[i], Drop(s, t)[j])
  {
    var a, b := Drop(s, t)[i], Drop(s, t)[j];
    if s[0] == t {
      DropOrder(s[1..], t, i, j);
      BeforeTail(s, a, b);
    } else if i > 0 {
      DropOrder(s[1..], t, i - 1, j - 1);
      BeforeTail(s, a, b);
    } else {
      assert b == Drop(s[1..], t)[j - 1] && b in Drop(s[1..], t);
      var p :| 0 <= p < |s[1..]| && s[1..][p] == b;
      assert s[0] == a && s[p + 1] == b;
    }
  }

  lemma BeforeTail(s: seq<Tid>, a: Tid, b: Tid)
    requires s != [] && Before(s[1..], a, b)
    ensures Before(s, a, b)
  {
    var i, j :| 0 <= i < j < |s[1..]| && s[1..][i] == a && s[1..][j] == b;
    assert s[i + 1] == a && s[j + 1] == b;
  }

  lemma UnlinkKept(m: Lists, t: Tid, x: Tid)
    ensures Kept(m, Unlink(m, t), x)
  {
    forall l: ListId, a, b | l.IsWait() && Before(At(Unlink(m, t), l), a, b) ensures Before(At(m, l), a, b) {
      var s := At(m, l);
      var i, j :| 0 <= i < j < |Drop(s, t)| && Drop(s, t)[i] == a && Drop(s, t)[j] == b;
      DropOrder(s, t, i, j);
    }
  }

  lemma PushKept(m: Lists, l: ListId, t: Tid, x: Tid)
    ensures !l.IsWait() ==> Kept(m, PushFront(m, l, t), x) && Kept(m, PushBack(m, l, t), x)
    ensures Kept(m, PushBack(m, l, t), t)
  {
    KeptSame(m, x);
    var s := At(m, l);
    forall a, b | Before(s + [t], a, b) && b != t ensures Before(s, a, b) {
      var i, j :| 0 <= i < j < |s + [t]| && (s + [t])[i] == a && (s + [t])[j] == b;
      assert s[i] == a && s[j] == b;
    }
  }

  // ---- The scheduler ----

  lemma EnQueueKept(k: Kernel, t: Tid, x: Tid)
    requires t < |k.tcbs|
    ensures Kept(k.lists, EnQueue(k, t).lists, x)
  {
    KeptSame(k.lists, x);
    PushKept(k.lists, ReadyList(k.tcbs[t].prio), t, x);
    hide Kept;
  }

  lemma DeQueueKept(k: Kernel, t: Tid, x: Tid)
    requires t < |k.tcbs|
    ensures Kept(k.lists, DeQueue(k, t).lists, x)
  {
    KeptSame(k.lists, x);
    UnlinkKept(k.lists, t, x);
    hide Kept, Unlink;
  }

  lemma ExitKept(k: Kernel, t: Tid, x: Tid)
    requires t < |k.tcbs|
    ensures Kept(k.lists, Exit(k, t).lists, x)
  {
    KeptSame(k.lists, x);
    UnlinkKept(k.lists, t, x);
    DeQueueKept(k, t, x);
    hide Kept, Unlink, DeQueue;
  }

  lemma WakeKept(k: Kernel, t: Tid, x: Tid)
    requires t < |k.tcbs|
    ensures Kept(k.lists, Wake(k, t).lists, x)
  {
    UnlinkKept(k.lists, t, x);
    var c := k.tcbs[t];
    var k1 := k.(lists := Unlink(k.lists, t), timers := if c.st.pendTime then Remove(k.timers, t) else k.timers);
    var k2 := SetTcb(k1, t, c.(st := c.st.(pend := false, pendTime := false)));
    EnQueueKept(k2, t, x);
    KeptTransIf(k.lists, k2.lists, EnQueue(k2, t).lists, x);
    hide Kept, Unlink, EnQueue;
  }

  lemma KeptTransIf(m: Lists, m1: Lists, m2: Lists, x: Tid)
    ensures Kept(m, m1, x) && Kept(m1, m2, x) ==> Kept(m, m2, x)
  {
    if Kept(m, m1, x) && Kept(m1, m2, x) {
      KeptTrans(m, m1, m2, x);
    }
  }

  lemma WaitKept(k: Kernel, call: Call, ticks: nat)
    requires k.run < |k.tcbs|
    ensures Kept(k.lists, Wait(k, call, ticks).lists, k.run)
  {
    PushKept(k.lists, WaitListOf(call), k.run, k.run);
    hide Kept, PushBack;
  }

  lemma ModifyPrioKept(k: Kernel, t: Tid, prio: nat, x: Tid)
    requires t < |k.tcbs|
    ensures Kept(k.lists, ModifyPrio(k, t, prio).lists, x)
  {
    KeptSame(k.lists, x);
    DeQueueKept(k, t, x);
    var k1 := DeQueue(k, t);
    var k2 := SetTcb(k1, t, k1.tcbs[t].(prio := prio));
    EnQueueKept(k2, t, x);
    KeptTransIf(k.lists, k2.lists, EnQueue(k2, t).lists, x);
    hide Kept, DeQueue, EnQueue;
  }

  lemma TimeoutWakeKept(k: Kernel, t: Tid, x: Tid)
    requires t < |k.tcbs|
    ensures Kept(k.lists, TimeoutWake(k, t).lists, x)
  {
    KeptSame(k.lists, x);
    UnlinkKept(k.lists, t, x);
    var c := k.tcbs[t];
    var st := c.st.(pend := false, pendTime := false, delay := false);
    var k1 := if c.st.pend then SetTcb(k, t, c.(st := st.(timeout := true))).(lists := Unlink(k.lists, t))
              else SetTcb(k, t, c.(st := st));
    EnQueueKept(k1, t, x);
    KeptTransIf(k.lists, k1.lists, EnQueue(k1, t).lists, x);
    hide Kept, Unlink, EnQueue;
  }

  lemma {:induction false} ScanKept(k: Kernel, now: nat, x: Tid)
    requires forall e :: e in k.timers ==> e.id < |k.tcbs|
    ensures Kept(k.lists, ScanTimers(k, now).0.lists, x)
    decreases |k.timers|
  {
    KeptSame(k.lists, x);
    if k.timers != [] && k.timers[0].time <= now {
      var t := k.timers[0].id;
      assert k.timers[0] in k.timers;
      var k0 := k.(timers := Remove(k.timers, t));
      var k1 := TimeoutWake(k0, t);
      assert forall e :: e in k1.timers ==> e in k.timers;
      TimeoutWakeKept(k0, t, x);
      hide Kept, TimeoutWake;
      ScanKept(k1, now, x);
      KeptTransIf(k.lists, k1.lists, ScanTimers(k1, now).0.lists, x);
    }
  }

  lemma {:induction false} WakeWhereKept(k: Kernel, todo: seq<Tid>, test: (bv32, bv32) -> bool, x: Tid)
    requires forall t :: t in todo ==> t < |k.tcbs|
    ensures Kept(k.lists, EventFlags.WakeWhere(k, todo, test).0.lists, x)
    decreases |todo|
  {
    KeptSame(k.lists, x);
    if todo != [] {
      assert todo[0] in todo && forall t :: t in todo[1..] ==> t in todo;
      var k1 := if EventFlags.Hit(k, todo[0], test) then Wake(k, todo[0]) else k;
      WakeKept(k, todo[0], x);
      hide Kept, Wake, EventFlags.Hit;
      WakeWhereKept(k1, todo[1..], test, x);
      KeptTransIf(k.lists, k1.lists, EventFlags.WakeWhere(k1, todo[1..], test).0.lists, x);
    }
  }

  lemma {:induction false} RecycleKept(k: Kernel, x: Tid)
    ensures Kept(k.lists, Task.Recycle(k).lists, x)
    decreases |At(k.lists, RecycleList)|
  {
    KeptSame(k.lists, x);
    var done := At(k.lists, RecycleList);
    if done != [] {
      var m := Unlink(k.lists, done[0]);
      UnlinkKept(k.lists, done[0], x);
      PushKept(m, FreeList, done[0], x);
      var k1 := k.(lists := PushFront(m, FreeList, done[0]));
      assert |At(k1.lists, RecycleList)| == |Drop(done, done[0])| < |done|;
      hide Kept;
      RecycleKept(k1, x);
      KeptTransIf(k.lists, m, k1.lists, x);
      KeptTransIf(k.lists, k1.lists, Task.Recycle(k1).lists, x);
    }
  }

  lemma SwitchKept(k: Kernel, now: nat, x: Tid)
    requires Shape(k) && Top(Park(ChargeSlice(k, now))) < |k.tcbs|
    ensures Kept(k.lists, Switch(k, now).lists, x)
  {
    var k0 := ChargeSlice(k, now);
    var k1 := Park(k0);
    var n := Top(k1);
    KeptSame(k.lists, x);
    EnQueueKept(k0, k0.run, x);
    DispatchKept(k1, n, x);
    KeptTransIf(k.lists, k1.lists, Dispatch(k1, n).lists, x);
    hide Kept, EnQueue, Dispatch, Top, Insert;
  }

  lemma DispatchKept(k: Kernel, n: Tid, x: Tid)
    requires k.run < |k.tcbs| && n < |k.tcbs|
    ensures Kept(k.lists, Dispatch(k, n).lists, x)
  {
    var k1 := if k.run == n then k
              else
                var prev := k.tcbs[k.run];
                var k0 := SetTcb(k, k.run, prev.(st := prev.st.(running := false)));
                SetTcb(k0, n, k0.tcbs[n].(st := k0.tcbs[n].st.(running := true), start := prev.start));
    DeQueueKept(k1, n, x);
    hide Kept, DeQueue;
  }

  // ---- Kernel calls ----

  lemma SemKept(k: Kernel, op: Op, inInt: bool)
    requires Defined(k) && ServiceOf(op) == OnSem
    ensures Kept(k.lists, DoSem(k, op, inInt).k.lists, k.run)
  {
    hide Kept, Wait, Wake;
    KeptSame(k.lists, k.run);
    match op {
      case SemPend(s, timeout) => WaitKept(k, SemCall(s), timeout);
      case SemPost(s) =>
        assert Members(k, SemList(s));
        HeadWakeKept(k, SemList(s));
      case _ =>
    }
    hide Defined;
  }

  lemma HeadWakeKept(k: Kernel, l: ListId)
    requires Members(k, l)
    ensures At(k.lists, l) != [] ==>
              At(k.lists, l)[0] < |k.tcbs| && Kept(k.lists, Wake(k, At(k.lists, l)[0]).lists, k.run)
  {
    if At(k.lists, l) != [] {
      assert At(k.lists, l)[0] in At(k.lists, l);
      WakeKept(k, At(k.lists, l)[0], k.run);
    }
  }

  lemma MuxKept(k: Kernel, op: Op, inInt: bool)
    requires Defined(k) && ServiceOf(op) == OnMux
    ensures Kept(k.lists, DoMux(k, op, inInt).k.lists, k.run)
  {
    KeptSame(k.lists, k.run);
    match op {
      case MuxPend(m, timeout) => MuxPendKept(k, m, timeout, inInt);
      case MuxPost(m) => MuxPostKept(k, m);
      case _ =>
    }
    hide Kept, Mutex.Pend, Mutex.Post, Defined;
  }

  lemma MuxPendKept(k: Kernel, m: nat, timeout: nat, inInt: bool)
    requires Defined(k)
    ensures k.run < |k.tcbs|
    ensures Kept(k.lists, Mutex.Pend(k, m, timeout, inInt).k.lists, k.run)
  {
    KeptSame(k.lists, k.run);
    if m < |k.obj.muxes| && k.obj.muxes[m].count > 0 {
      var owner := k.obj.muxes[m].owner.value;
      ModifyPrioKept(k, owner, k.tcbs[k.run].prio, k.run);
      WaitKept(Mutex.Boost(k, owner), MuxCall(m), timeout);
      hide Kept, ModifyPrio, Wait, Defined;
      KeptTransIf(k.lists, Mutex.Boost(k, owner).lists, Wait(Mutex.Boost(k, owner), MuxCall(m), timeout).lists, k.run);
    }
  }

  lemma MuxPostKept(k: Kernel, m: nat)
    requires k.run < |k.tcbs| && Members(k, MuxList(m))
    ensures Kept(k.lists, Mutex.Post(k, m).k.lists, k.run)
  {
    KeptSame(k.lists, k.run);
    if m < |k.obj.muxes| {
      var x := k.obj.muxes[m];
      var k0 := Mutex.SetMux(k, m, x.(count := 0));
      var k1 := Mutex.Restore(k0, x);
      ModifyPrioKept(k0, k.run, x.prio, k.run);
      var l := At(k.lists, MuxList(m));
      if l != [] {
        assert l[0] in l;
        var k2 := Mutex.SetMux(k1, m, k1.obj.muxes[m].(count := 1, owner := Some(l[0]), prio := k1.tcbs[l[0]].prio));
        WakeKept(k2, l[0], k.run);
        KeptTransIf(k.lists, k2.lists, Wake(k2, l[0]).lists, k.run);
        hide Kept, ModifyPrio, Wake;
      }
    }
  }

  lemma ReadNowKept(k: Kernel, q: nat, room: nat, x: Tid)
    requires q < |k.obj.queues| && MessageQueue.RingShape(k.obj.queues[q]) && Members(k, WriteList(q))
    ensures Kept(k.lists, MessageQueue.ReadNow(k, q, room).k.lists, x)
  {
    KeptSame(k.lists, x);
    var k1 := MessageQueue.SetQueue(k, q, MessageQueue.RingRead(k.obj.queues[q]).0);
    var l := At(k.lists, WriteList(q));
    if l != [] {
      assert l[0] in l;
      WakeKept(k1, l[0], x);
    }
    hide Kept, Wake;
  }

  lemma WriteNowKept(k: Kernel, q: nat, front: bool, msg: seq<Byte>, x: Tid)
    requires q < |k.obj.queues| && MessageQueue.RingShape(k.obj.queues[q]) && Members(k, ReadList(q))
    ensures Kept(k.lists, MessageQueue.WriteNow(k, q, front, msg).k.lists, x)
  {
    KeptSame(k.lists, x);
    var k1 := MessageQueue.SetQueue(k, q, MessageQueue.RingWrite(k.obj.queues[q], front, msg));
    var l := At(k.lists, ReadList(q));
    if l != [] {
      assert l[0] in l;
      WakeKept(k1, l[0], x);
    }
    hide Kept, Wake, MessageQueue.RingWrite;
  }

  lemma QueueKept(k: Kernel, op: Op, inInt: bool)
    requires Defined(k) && ServiceOf(op) == OnQueue
    ensures Kept(k.lists, DoQueue(k, op, inInt).k.lists, k.run)
  {
    KeptSame(k.lists, k.run);
    match op {
      case QueueRead(q, room, timeout) => ReadKept(k, q, room, timeout, inInt);
      case QueueWrite(q, front, msg, timeout) => WriteKept(k, q, front, msg, timeout, inInt);
      case _ =>
    }
    hide Kept, MessageQueue.Read, MessageQueue.Write, Defined;
  }

  lemma ReadKept(k: Kernel, q: nat, room: nat, timeout: nat, inInt: bool)
    requires Defined(k)
    ensures MessageQueue.Ready(k, q) && Kept(k.lists, MessageQueue.Read(k, q, room, timeout, inInt).k.lists, k.run)
  {
    assert MessageQueue.Ready(k, q);
    KeptSame(k.lists, k.run);
    WaitKept(k, ReadCall(q, room), timeout);
    hide Kept, Wait, MessageQueue.ReadNow, Defined;
    if q < |k.obj.queues| && k.obj.queues[q].used && k.obj.queues[q].readable > 0 {
      ReadNowKept(MessageQueue.SetQueue(k, q, k.obj.queues[q].(readable := k.obj.queues[q].readable - 1)), q, room,
                  k.run);
    }
  }

  lemma WriteKept(k: Kernel, q: nat, front: bool, msg: seq<Byte>, timeout: nat, inInt: bool)
    requires Defined(k)
    ensures MessageQueue.Ready(k, q)
            && Kept(k.lists, MessageQueue.Write(k, q, front, msg, timeout, inInt).k.lists, k.run)
  {
    assert MessageQueue.Ready(k, q);
    KeptSame(k.lists, k.run);
    WaitKept(k, WriteCall(q, front, msg), timeout);
    hide Kept, Wait, MessageQueue.WriteNow, Defined;
    if q < |k.obj.queues| && k.obj.queues[q].used && k.obj.queues[q].writable > 0 {
      WriteNowKept(MessageQueue.SetQueue(k, q, k.obj.queues[q].(writable := k.obj.queues[q].writable - 1)), q, front,
                   msg, k.run);
    }
  }

  lemma EventKept(k: Kernel, op: Op, inInt: bool)
    requires Defined(k) && ServiceOf(op) == OnEvent
    ensures Kept(k.lists, DoEvent(k, op, inInt).k.lists, k.run)
  {
    KeptSame(k.lists, k.run);
    match op {
      case EventRead(e, mask, mode, timeout) => EventReadKept(k, e, mask, mode, timeout, inInt);
      case EventWrite(e, events) => EventWriteKept(k, e, events);
      case _ =>
    }
    hide Kept, EventFlags.Read, EventFlags.Write, Defined;
  }

  lemma EventReadKept(k: Kernel, e: nat, mask: bv32, mode: bv32, timeout: nat, inInt: bool)
    requires k.run < |k.tcbs|
    ensures Kept(k.lists, EventFlags.Read(k, e, mask, mode, timeout, inInt).k.lists, k.run)
  {
    hide Kept, Wait, EventFlags.Poll, EventFlags.ModeOK, EventFlags.Match;
    KeptSame(k.lists, k.run);
    if e < |k.obj.events| {
      var k1 := EventFlags.PollNow(k, e, mask, mode).k;
      var k2 := SetTcb(k1, k.run, k1.tcbs[k.run].(eventMask := mask, eventMode := mode));
      WaitKept(k2, EventCall(e, mask, mode), timeout);
    }
  }

  lemma EventWriteKept(k: Kernel, e: nat, events: bv32)
    requires Members(k, EventList(e))
    ensures Kept(k.lists, EventFlags.Write(k, e, events).k.lists, k.run)
  {
    KeptSame(k.lists, k.run);
    if e < |k.obj.events| {
      var bits := k.obj.events[e].bits | events;
      var k1 := EventFlags.SetEvent(k, e, k.obj.events[e].(bits := bits));
      WakeWhereKept(k1, At(k.lists, EventList(e)), (mask, mode) => EventFlags.Satisfied(mask, mode, events, bits),
                    k.run);
    }
    hide Kept, EventFlags.WakeWhere, EventFlags.Satisfied;
  }

  // ---- Task calls ----

  lemma CreateOnlyKept(k: Kernel, prio: nat, memory: bool, x: Tid)
    requires forall t :: t in At(Task.Recycle(k).lists, FreeList) ==> t < |k.tcbs|
    ensures Kept(k.lists, Task.CreateOnly(k, prio, memory).k.lists, x)
  {
    KeptSame(k.lists, x);
    RecycleKept(k, x);
    var k1 := Task.Recycle(k);
    var free := At(k1.lists, FreeList);
    if free != [] {
      var m := Unlink(k1.lists, free[0]);
      UnlinkKept(k1.lists, free[0], x);
      PushKept(m, FreeList, free[0], x);
      KeptTransIf(k.lists, k1.lists, m, x);
      KeptTransIf(k.lists, m, PushFront(m, FreeList, free[0]), x);
    }
    hide Kept, Task.Recycle, Unlink, PushFront;
  }

  lemma CreateKept(k: Kernel, prio: nat, memory: bool, x: Tid)
    requires forall t :: t in At(Task.Recycle(k).lists, FreeList) ==> t < |k.tcbs|
    ensures Kept(k.lists, Task.Create(k, prio, memory).k.lists, x)
  {
    CreateOnlyKept(k, prio, memory, x);
    var o := Task.CreateOnly(k, prio, memory);
    hide Kept, Task.CreateOnly, EnQueue, Task.Recycle;
    if o.ret.Id? && o.ret.id < |o.k.tcbs| {
      EnQueueKept(o.k, o.ret.id, x);
      KeptTransIf(k.lists, o.k.lists, EnQueue(o.k, o.ret.id).lists, x);
    }
  }

  lemma DeleteKept(k: Kernel, t: nat, x: Tid)
    requires k.cfg.tasks < |k.tcbs|
    ensures Kept(k.lists, Task.Delete(k, t).k.lists, x)
  {
    KeptSame(k.lists, x);
    if t < k.cfg.tasks {
      var k0 := k.(lock := if k.tcbs[t].st.running then 0 else k.lock);
      var k1 := Exit(k0, t);
      ExitKept(k0, t, x);
      PushKept(k1.lists, RecycleList, t, x);
      PushKept(k1.lists, FreeList, t, x);
      KeptTransIf(k.lists, k1.lists, PushBack(k1.lists, RecycleList, t), x);
      KeptTransIf(k.lists, k1.lists, PushFront(k1.lists, FreeList, t), x);
    }
    hide Kept, Exit, PushBack, PushFront;
  }

  lemma TickKept(k: Kernel, scanAt: nat, now: nat, scan: bool, x: Tid)
    requires k.run < |k.tcbs| && forall e :: e in k.timers ==> e.id < |k.tcbs|
    ensures Kept(k.lists, Task.Tick(k, scanAt, now, scan).k.lists, x)
  {
    KeptSame(k.lists, x);
    ScanKept(k, scanAt, x);
    hide Kept, ScanTimers;
  }

  lemma FinishKept(k: Kernel, x: Tid)
    requires k.run < |k.tcbs| && forall q :: MessageQueue.Ready(k, q)
    ensures Kept(k.lists, FinishCall(k).k.lists, x)
  {
    KeptSame(k.lists, x);
    var c := k.tcbs[k.run];
    hide Kept, MessageQueue.ReadNow, MessageQueue.WriteNow, EventFlags.Poll;
    if (c.call.ReadCall? || c.call.WriteCall?) && !c.st.timeout && c.call.queue < |k.obj.queues|
       && k.obj.queues[c.call.queue].used {
      assert MessageQueue.Ready(k, c.call.queue);
      if c.call.ReadCall? {
        ReadNowKept(Back(k), c.call.queue, c.call.room, x);
      } else {
        WriteNowKept(Back(k), c.call.queue, c.call.front, c.call.msg, x);
      }
    }
  }

  lemma TaskKept(k: Kernel, op: Op, inInt: bool)
    requires Defined(k) && ServiceOf(op) == OnTask
    ensures Kept(k.lists, DoTask(k, op, inInt).k.lists, k.run)
  {
    KeptSame(k.lists, k.run);
    match op {
      case TaskCreateOnly(prio, memory) => CreateOnlyKept(k, prio, memory, k.run);
      case TaskCreate(prio, memory) => CreateKept(k, prio, memory, k.run);
      case TaskDelete(t) => DeleteKept(k, t, k.run);
      case TaskSuspend(t) => SuspendKept(k, t, k.run);
      case TaskResume(t) => ResumeKept(k, t, k.run);
      case TaskPriSet(t, prio) => PriSetKept(k, t, prio, k.run);
      case TaskRecycle => RecycleKept(k, k.run);
      case Finish => FinishKept(k, k.run);
      case Tick(scanAt, at, scan) => TickKept(k, scanAt, at, scan, k.run);
      case _ => QuietKept(k, op, inInt);
    }
    hide Kept, Task.CreateOnly, Task.Create, Task.Delete, Task.Suspend, Task.Resume, Task.PriSet, Task.Recycle,
         Task.Tick, Task.Delay, Task.Yield, FinishCall, Defined;
  }

  lemma QuietKept(k: Kernel, op: Op, inInt: bool)
    requires Defined(k) && (op.TaskDelay? || op.TaskYield? || op.TaskLock? || op.TaskUnlock?)
    ensures Kept(k.lists, DoTask(k, op, inInt).k.lists, k.run)
  {
    KeptSame(k.lists, k.run);
    hide Kept, Defined;
  }

  lemma SuspendKept(k: Kernel, t: nat, x: Tid)
    requires k.cfg.tasks <= |k.tcbs|
    ensures Kept(k.lists, Task.Suspend(k, t).k.lists, x)
  {
    KeptSame(k.lists, x);
    if t < |k.tcbs| {
      DeQueueKept(k, t, x);
    }
    hide Kept, DeQueue;
  }

  lemma ResumeKept(k: Kernel, t: nat, x: Tid)
    requires k.cfg.tasks <= |k.tcbs|
    ensures Kept(k.lists, Task.Resume(k, t).k.lists, x)
  {
    KeptSame(k.lists, x);
    if t < |k.tcbs| {
      EnQueueKept(SetTcb(k, t, k.tcbs[t].(st := k.tcbs[t].st.(suspend := false))), t, x);
    }
    hide Kept, EnQueue;
  }

  lemma PriSetKept(k: Kernel, t: nat, prio: nat, x: Tid)
    requires k.cfg.tasks <= |k.tcbs|
    ensures Kept(k.lists, Task.PriSet(k, t, prio).k.lists, x)
  {
    KeptSame(k.lists, x);
    if t < |k.tcbs| {
      ModifyPrioKept(k, t, prio, x);
    }
    hide Kept, ModifyPrio;
  }

  lemma DoKept(k: Kernel, op: Op, inInt: bool)
    requires Defined(k)
    ensures Kept(k.lists, Do(k, op, inInt).k.lists, k.run)
  {
    hide DoTask, DoSem, DoMux, DoQueue, DoEvent, Defined, Kept;
    match ServiceOf(op) {
      case OnTask => TaskKept(k, op, inInt);
      case OnSem => SemKept(k, op, inInt);
      case OnMux => MuxKept(k, op, inInt);
      case OnQueue => QueueKept(k, op, inInt);
      case OnEvent => EventKept(k, op, inInt);
    }
  }

  // ---- Steps and runs ----

  lemma RescheduleKept(k: Kernel, now: nat, x: Tid)
    requires SchedOK(k) && Switchable(k) && Invariants.ObjectsOK(k) && k.now <= now
    ensures Kept(k.lists, Reschedule(k, now).lists, x)
  {
    KeptSame(k.lists, x);
    SwitchOK(k, now);
    SwitchKept(k, now, x);
    hide Kept, Switch, SchedOK, Invariants.ObjectsOK, Switchable;
  }

  lemma NextKept(k: Kernel, s: Step)
    requires KernelOK(k) && Legal(k, s)
    ensures Kept(k.lists, Next(k, s).lists, k.run)
  {
    match s {
      case Call(op, now) =>
        DoOK(k, op, false);
        DoKept(k, op, false);
        var o := Do(k, op, false);
        if o.sched {
          RescheduleKept(o.k, now, k.run);
          KeptTransIf(k.lists, o.k.lists, Reschedule(o.k, now).lists, k.run);
        }
      case Interrupt(op) =>
        DoOK(k, op, true);
        DoKept(k, op, true);
      case PendSV(now) =>
        SettledSwitchable(k);
        RescheduleKept(k, now, k.run);
    }
    hide Kept, Do, Reschedule, Defined;
  }

  /** `t` is on wait list `l` in every state of the run. */
  ghost predicate WaitsThroughout(k: Kernel, steps: seq<Step>, l: ListId, t: Tid)
    requires KernelOK(k) && LegalRun(k, steps)
    decreases |steps|
  {
    On(k, l, t) && (steps == [] || WaitsThroughout(Next(k, steps[0]), steps[1..], l, t))
  }

  lemma RunOffLists(k: Kernel, l: ListId)
    requires KernelOK(k)
    ensures !On(k, l, k.run)
  {
    assert TaskOK(k, k.run) && Placed(k, k.run);
    assert On(k, l, k.run) ==> Home(l, k.tcbs[k.run], k.run == k.cfg.idle);
  }

  lemma BeforeMembers(s: seq<Tid>, a: Tid, b: Tid)
    requires Before(s, a, b)
    ensures a in s && b in s
  {
  }

  /**
   * First to wait, first in the list: if `a` stands in front of `b` at the end of a run through which `b` has been
   * waiting, then `a` has been waiting, in front of `b`, through the same run.
   */
  lemma {:induction false} FirstWaitsLongest(k: Kernel, steps: seq<Step>, l: ListId, a: Tid, b: Tid)
    requires KernelOK(k) && LegalRun(k, steps) && l.IsWait() && WaitsThroughout(k, steps, l, b)
    requires Before(At(Run(k, steps).lists, l), a, b)
    ensures Before(At(k.lists, l), a, b) && WaitsThroughout(k, steps, l, a)
    decreases |steps|
  {
    hide Next, Before, KernelOK, Kept;
    if steps == [] {
      BeforeMembers(At(k.lists, l), a, b);
    } else {
      FirstWaitsLongest(Next(k, steps[0]), steps[1..], l, a, b);
      NextKept(k, steps[0]);
      KeptAt(k.lists, Next(k, steps[0]).lists, k.run, l, a, b);
      RunOffLists(k, l);
      BeforeMembers(At(k.lists, l), a, b);
    }
  }

  lemma KeptAt(m: Lists, m': Lists, x: Tid, l: ListId, a: Tid, b: Tid)
    requires Kept(m, m', x) && l.IsWait() && Before(At(m', l), a, b)
    ensures Before(At(m, l), a, b) || b == x
  {
    assert OrderKept(At(m, l), At(m', l), x);
  }

  /** So the task that a post, a release, a read or a write serves next has waited at least as long as any other. */
  lemma HeadWaitsLongest(k: Kernel, steps: seq<Step>, l: ListId, b: Tid)
    requires KernelOK(k) && LegalRun(k, steps) && l.IsWait() && WaitsThroughout(k, steps, l, b)
    ensures At(Run(k, steps).lists, l) != [] && WaitsThroughout(k, steps, l, At(Run(k, steps).lists, l)[0])
  {
    var s := At(Run(k, steps).lists, l);
    StillThere(k, steps, l, b);
    hide WaitsThroughout, KernelOK, Run, LegalRun;
    var j :| 0 <= j < |s| && s[j] == b;
    if j > 0 {
      assert Before(s, s[0], s[j]);
      FirstWaitsLongest(k, steps, l, s[0], b);
    }
  }

  lemma {:induction false} StillThere(k: Kernel, steps: seq<Step>, l: ListId, b: Tid)
    requires KernelOK(k) && LegalRun(k, steps) && WaitsThroughout(k, steps, l, b)
    ensures On(Run(k, steps), l, b)
    decreases |steps|
  {
    hide Next, KernelOK;
    if steps != [] {
      StillThere(Next(k, steps[0]), steps[1..], l, b);
    }
  }
}
