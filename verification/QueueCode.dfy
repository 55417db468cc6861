/** The queue calls on the kernel's globals: ring positions, promised counts and the two wait lists. */
module QueueCode {
  import opened KernelState
  import opened Sched
  import opened TaskProofs
  import opened KernelObjects
  import opened SchedCode
  import opened ObjectFacts
  import opened MessageQueue
  import QueueProofs

  lemma QueueFreeOK(k: Kernel)
    requires Sound(k)
    ensures forall q :: q in k.obj.queueFree ==> q < |k.obj.queues|
  {
  }

  lemma HasQueue(g: Globals, q: nat)
    ensures q < g.queues.Length ==> g.HasList(ReadList(q)) && g.HasList(WriteList(q))
  {
  }

  /** LOS_QueueCreate; `memory` is whether the heap had room for the ring. */
  method QueueCreate(g: Globals, len: nat, maxMsgSize: nat, memory: bool) returns (ret: Ret, sched: bool)
    requires g.Valid() && Sound(g.abs) == true
    modifies g.Parts()
    ensures g.Valid() && (forall q :: q in old(g.abs).obj.queueFree ==> q < |old(g.abs).obj.queues|)
    ensures Out(g.abs, ret, sched) == Create(old(g.abs), len, maxMsgSize, memory)
  {
    hide Globals.Valid, Globals.Parts, Sound;
    QueueFreeOK(g.abs);
    g.ObjectAt();
    if maxMsgSize > 0xFFFF - WORD {
      return Fail(QueueSizeTooBig), false;
    }
    if len == 0 || maxMsgSize == 0 {
      return Fail(QueueZeroParameter), false;
    }
    if !memory {
      return Fail(QueueNoMemory), false;
    }
    if g.freeQueues == [] {
      return Fail(QueueNoControlBlock), false;
    }
    var q := g.freeQueues[0];
    assert q in g.freeQueues;
    g.StoreFree(g.freeSems, g.freeMuxes, g.freeQueues[1..]);
    g.StoreQueue(q, Queue(true, len, maxMsgSize + WORD, 0, len, 0, 0, seq(len, _ => [])));
    return Id(q), false;
  }

  /** LOS_QueueDelete */
  method QueueDelete(g: Globals, queueID: nat) returns (ret: Ret, sched: bool)
    requires g.Valid()
    modifies g.Parts()
    ensures g.Valid() && Out(g.abs, ret, sched) == Delete(old(g.abs), queueID)
  {
    hide Globals.Valid, Globals.Parts;
    g.ObjectAt();
    if queueID >= g.queues.Length {
      return Fail(QueueInvalid), false;
    }
    var queueCB := g.queues[queueID];
    if !queueCB.used {
      return Fail(QueueNotCreated), false;
    }
    HasQueue(g, queueID);
    var noReader := g.ListEmpty(ReadList(queueID));
    if !noReader {
      return Fail(QueueInTaskUse), false;
    }
    var noWriter := g.ListEmpty(WriteList(queueID));
    if !noWriter {
      return Fail(QueueInTaskUse), false;
    }
    if queueCB.writable + queueCB.readable != queueCB.len {
      return Fail(QueueInTaskWrite), false;
    }
    g.StoreFree(g.freeSems, g.freeMuxes, [queueID] + g.freeQueues);
    g.ObjectAt();
    g.StoreQueue(queueID, queueCB.(used := false));
    return Ok, false;
  }

  // ---- What a queue operation needs of the queue and of the tasks waiting for it ----

  ghost predicate FirstWakeable(k: Kernel, l: ListId) {
    At(k.lists, l) != [] ==> Wakeable(k, At(k.lists, l)[0])
  }

  ghost predicate Served(k: Kernel, q: nat) {
    && q < |k.obj.queues| && RingShape(k.obj.queues[q])
    && Members(k, ReadList(q)) && Members(k, WriteList(q))
    && FirstWakeable(k, ReadList(q)) && FirstWakeable(k, WriteList(q))
  }

  lemma ServedFacts(k: Kernel, q: nat)
    requires Served(k, q)
    ensures q < |k.obj.queues| && RingShape(k.obj.queues[q])
    ensures Members(k, ReadList(q)) && Members(k, WriteList(q)) && FirstWakeable(k, ReadList(q))
            && FirstWakeable(k, WriteList(q))
  {
  }

  lemma UsedServed(k: Kernel, q: nat)
    requires KernelOK(k)
    ensures Ready(k, q)
    ensures q < |k.obj.queues| && k.obj.queues[q].used ==> Served(k, q)
  {
    QueueProofs.QueueReady(k, q);
    FirstWaiter(k, ReadList(q));
    FirstWaiter(k, WriteList(q));
    hide KernelOK, Wakeable;
  }

  lemma SetServed(k: Kernel, q: nat, x: Queue)
    requires Served(k, q) && RingShape(x)
    ensures Served(SetQueue(k, q, x), q) && PutQueue(k, q, x) == SetQueue(k, q, x)
  {
    var k' := SetQueue(k, q, x);
    forall l | FirstWakeable(k, l) ensures FirstWakeable(k', l) {
      if At(k.lists, l) != [] {
        StillWakeable(k, k', At(k.lists, l)[0]);
      }
    }
    hide Wakeable;
  }

  // ---- OsQueueBufferOperate ----

  /** Reading from the head. */
  method TakeMessage(g: Globals, q: nat) returns (msg: seq<Byte>)
    requires g.Valid() && q < g.queues.Length && Served(g.abs, q) == true
    modifies g.Parts()
    ensures g.Valid() && q < |old(g.abs).obj.queues| && RingShape(old(g.abs).obj.queues[q]) && Served(g.abs, q)
    ensures var r := RingRead(old(g.abs).obj.queues[q]); g.abs == SetQueue(old(g.abs), q, r.0) && msg == r.1
  {
    hide Globals.Valid, Globals.Parts, Served, FirstWakeable;
    ServedFacts(g.abs, q);
    g.ObjectAt();
    var queueCB := g.queues[q];
    msg := queueCB.slots[queueCB.head];
    var head := if queueCB.head + 1 == queueCB.len then 0 else queueCB.head + 1;
    SetServed(g.abs, q, queueCB.(head := head));
    g.StoreQueue(q, queueCB.(head := head));
  }

  /** Writing in front of the head or at the tail. */
  method PutMessage(g: Globals, q: nat, front: bool, msg: seq<Byte>)
    requires g.Valid() && q < g.queues.Length && Served(g.abs, q) == true
    modifies g.Parts()
    ensures g.Valid() && q < |old(g.abs).obj.queues| && RingShape(old(g.abs).obj.queues[q]) && Served(g.abs, q)
    ensures g.abs == SetQueue(old(g.abs), q, RingWrite(old(g.abs).obj.queues[q], front, msg))
  {
    hide Globals.Valid, Globals.Parts, Served, FirstWakeable;
    ServedFacts(g.abs, q);
    g.ObjectAt();
    var queueCB := g.queues[q];
    if front {
      var head := if queueCB.head == 0 then queueCB.len - 1 else queueCB.head - 1;
      queueCB := queueCB.(head := head, slots := queueCB.slots[head := msg]);
    } else {
      var tail := if queueCB.tail + 1 == queueCB.len then 0 else queueCB.tail + 1;
      queueCB := queueCB.(tail := tail, slots := queueCB.slots[queueCB.tail := msg]);
    }
    SetServed(g.abs, q, queueCB);
    g.StoreQueue(q, queueCB);
  }

  // ---- OsQueueOperate: the other side is served ----

  /** The longest waiting writer gets the slot that became free; without one it is counted. */
  method ServeWriter(g: Globals, q: nat) returns (woke: bool)
    requires g.Valid() && q < g.queues.Length && Served(g.abs, q) == true
    modifies g.Parts()
    ensures g.Valid() && q < |old(g.abs).obj.queues| && Members(old(g.abs), WriteList(q))
    ensures (g.abs, woke) == FreeSlot(old(g.abs), q)
  {
    hide Globals.Valid, Globals.Parts, Served, Wakeable, Wake;
    ServedFacts(g.abs, q);
    g.RunAt();
    g.ObjectAt();
    HasQueue(g, q);
    var empty := g.ListEmpty(WriteList(q));
    if !empty {
      var resumedTask := g.ListFirst(WriteList(q));
      WakeableFacts(g.abs, resumedTask);
      SchedTaskWake(g, resumedTask);
      return true;
    }
    g.StoreQueue(q, g.queues[q].(writable := g.queues[q].writable + 1));
    return false;
  }

  /** The longest waiting reader gets the message; without one it is counted. */
  method ServeReader(g: Globals, q: nat) returns (woke: bool)
    requires g.Valid() && q < g.queues.Length && Served(g.abs, q) == true
    modifies g.Parts()
    ensures g.Valid() && q < |old(g.abs).obj.queues| && Members(old(g.abs), ReadList(q))
    ensures (g.abs, woke) == FillSlot(old(g.abs), q)
  {
    hide Globals.Valid, Globals.Parts, Served, Wakeable, Wake;
    ServedFacts(g.abs, q);
    g.RunAt();
    g.ObjectAt();
    HasQueue(g, q);
    var empty := g.ListEmpty(ReadList(q));
    if !empty {
      var resumedTask := g.ListFirst(ReadList(q));
      WakeableFacts(g.abs, resumedTask);
      SchedTaskWake(g, resumedTask);
      return true;
    }
    g.StoreQueue(q, g.queues[q].(readable := g.queues[q].readable + 1));
    return false;
  }

  // ---- OsQueueOperate: from the buffer on ----

  method OperateRead(g: Globals, q: nat, room: nat) returns (ret: Ret, sched: bool)
    requires g.Valid() && q < g.queues.Length && Served(g.abs, q) == true
    modifies g.Parts()
    ensures g.Valid() && CanRead(old(g.abs), q) && Out(g.abs, ret, sched) == ReadNow(old(g.abs), q, room)
  {
    hide Globals.Valid, Globals.Parts, Served, FirstWakeable, FreeSlot, RingRead;
    ServedFacts(g.abs, q);
    var msg := TakeMessage(g, q);
    ServedFacts(g.abs, q);
    ret := Deliver(msg, room);
    sched := ServeWriter(g, q);
  }

  ghost predicate CanRead(k: Kernel, q: nat) {
    q < |k.obj.queues| && RingShape(k.obj.queues[q]) && Members(k, WriteList(q))
  }

  ghost predicate CanWrite(k: Kernel, q: nat) {
    q < |k.obj.queues| && RingShape(k.obj.queues[q]) && Members(k, ReadList(q))
  }

  method OperateWrite(g: Globals, q: nat, front: bool, msg: seq<Byte>) returns (ret: Ret, sched: bool)
    requires g.Valid() && q < g.queues.Length && Served(g.abs, q) == true
    modifies g.Parts()
    ensures g.Valid() && CanWrite(old(g.abs), q) && Out(g.abs, ret, sched) == WriteNow(old(g.abs), q, front, msg)
  {
    hide Globals.Valid, Globals.Parts, Served, FirstWakeable, FillSlot, RingWrite;
    ServedFacts(g.abs, q);
    PutMessage(g, q, front, msg);
    ServedFacts(g.abs, q);
    ret := Ok;
    sched := ServeReader(g, q);
  }

  /** LOS_QueueReadCopy up to the switch; a task that is made to wait goes on in `Finish`. */
  method QueueRead(g: Globals, queueID: nat, room: nat, timeout: nat, inInt: bool) returns (ret: Ret, sched: bool)
    requires g.Valid() && KernelOK(g.abs) == true
    modifies g.Parts()
    ensures g.Valid() && Ready(old(g.abs), queueID)
    ensures Out(g.abs, ret, sched) == Read(old(g.abs), queueID, room, timeout, inInt)
  {
    hide Globals.Valid, Globals.Parts, KernelOK, Served, Ready, Nowhere, Wait, ReadNow;
    UsedServed(g.abs, queueID);
    RunFree(g.abs);
    g.RunAt();
    g.ObjectAt();
    if queueID >= g.queues.Length {
      return Fail(QueueInvalid), false;
    }
    if room == 0 {
      return Fail(QueueZeroSize), false;
    }
    if timeout != 0 && inInt {
      return Fail(QueueInInterrupt), false;
    }
    var queueCB := g.queues[queueID];
    if !queueCB.used {
      return Fail(QueueNotCreated), false;
    }
    if room + WORD < queueCB.size {
      return Fail(QueueReadTooSmall), false;
    }
    if queueCB.readable == 0 {
      if timeout == 0 {
        return Fail(QueueEmpty), false;
      }
      if g.taskLock != 0 {
        return Fail(QueuePendInLock), false;
      }
      HasQueue(g, queueID);
      SchedTaskWait(g, ReadCall(queueID, room), timeout);
      return Waiting, true;
    }
    ServedFacts(g.abs, queueID);
    SetServed(g.abs, queueID, queueCB.(readable := queueCB.readable - 1));
    g.StoreQueue(queueID, queueCB.(readable := queueCB.readable - 1));
    ret, sched := OperateRead(g, queueID, room);
  }

  /** LOS_QueueWriteCopy and LOS_QueueWriteHeadCopy up to the switch. */
  method QueueWrite(g: Globals, queueID: nat, front: bool, msg: seq<Byte>, timeout: nat, inInt: bool)
      returns (ret: Ret, sched: bool)
    requires g.Valid() && KernelOK(g.abs) == true
    modifies g.Parts()
    ensures g.Valid() && Ready(old(g.abs), queueID)
    ensures Out(g.abs, ret, sched) == Write(old(g.abs), queueID, front, msg, timeout, inInt)
  {
    hide Globals.Valid, Globals.Parts, KernelOK, Served, Ready, Nowhere, Wait, WriteNow;
    UsedServed(g.abs, queueID);
    RunFree(g.abs);
    g.RunAt();
    g.ObjectAt();
    if queueID >= g.queues.Length {
      return Fail(QueueInvalid), false;
    }
    if |msg| == 0 {
      return Fail(QueueZeroSize), false;
    }
    if timeout != 0 && inInt {
      return Fail(QueueInInterrupt), false;
    }
    var queueCB := g.queues[queueID];
    if !queueCB.used {
      return Fail(QueueNotCreated), false;
    }
    if |msg| + WORD > queueCB.size {
      return Fail(QueueWriteTooBig), false;
    }
    if queueCB.writable == 0 {
      if timeout == 0 {
        return Fail(QueueFull), false;
      }
      if g.taskLock != 0 {
        return Fail(QueuePendInLock), false;
      }
      HasQueue(g, queueID);
      SchedTaskWait(g, WriteCall(queueID, front, msg), timeout);
      return Waiting, true;
    }
    ServedFacts(g.abs, queueID);
    SetServed(g.abs, queueID, queueCB.(writable := queueCB.writable - 1));
    g.StoreQueue(queueID, queueCB.(writable := queueCB.writable - 1));
    ret, sched := OperateWrite(g, queueID, front, msg);
  }
}
