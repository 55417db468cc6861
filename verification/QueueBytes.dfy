/** The bytes of a message queue over whole runs of the kernel (kernel/src/los_queue.c). */
module QueueBytes {
  import opened KernelState
  import opened Sched
  import opened Invariants
  import opened TaskProofs
  import opened Machine
  import opened MachineProofs
  import opened QueueHistory
  import opened QueueMemory
  import opened QueueBuffer
  import MessageQueue
  import QueueProofs
  import SchedProofs

  // ---- The number and size of the slots do not change ----

  ghost predicate SameSlots(k: Kernel, k': Kernel, q: nat) {
    && q < |k.obj.queues| && q < |k'.obj.queues|
    && k'.obj.queues[q].len == k.obj.queues[q].len && k'.obj.queues[q].size == k.obj.queues[q].size
  }

  lemma SameObjects(k: Kernel, k': Kernel, q: nat)
    requires k'.obj.queues == k.obj.queues && q < |k.obj.queues|
    ensures SameSlots(k, k', q)
  {
  }

  lemma WaitObjects(k: Kernel, call: Call, ticks: nat)
    requires k.run < |k.tcbs|
    ensures Wait(k, call, ticks).obj == k.obj
  {
  }

  lemma ReadSlots(k: Kernel, q: nat, room: nat, timeout: nat, inInt: bool)
    requires MessageQueue.Ready(k, q) && q < |k.obj.queues|
    ensures SameSlots(k, MessageQueue.Read(k, q, room, timeout, inInt).k, q)
  {
    hide MessageQueue.Read, MessageQueue.ReadNow, Wait;
    QueueProofs.ReadCases(k, q, room, timeout, inInt);
    var x := k.obj.queues[q];
    WaitObjects(k, ReadCall(q, room), timeout);
    if x.used && x.readable > 0 {
      ReadRecord(MessageQueue.SetQueue(k, q, x.(readable := x.readable - 1)), q, room);
    }
  }

  lemma WriteSlots(k: Kernel, q: nat, front: bool, msg: seq<Byte>, timeout: nat, inInt: bool)
    requires MessageQueue.Ready(k, q) && q < |k.obj.queues|
    ensures SameSlots(k, MessageQueue.Write(k, q, front, msg, timeout, inInt).k, q)
  {
    hide MessageQueue.Write, MessageQueue.WriteNow, Wait;
    QueueProofs.WriteCases(k, q, front, msg, timeout, inInt);
    var x := k.obj.queues[q];
    var o := MessageQueue.Write(k, q, front, msg, timeout, inInt);
    if o.ret == Waiting {
      WaitObjects(k, WriteCall(q, front, msg), timeout);
    } else if !o.ret.Fail? {
      SlotCounts(MessageQueue.SetQueue(k, q, x.(writable := x.writable - 1)), q, front, msg);
    }
  }

  lemma FinishSlots(k: Kernel, q: nat)
    requires k.run < |k.tcbs| && InUse(k, q) && (forall p :: MessageQueue.Ready(k, p)) && Operates(k, Finish, q)
    ensures SameSlots(k, FinishCall(k).k, q)
  {
    var c := k.tcbs[k.run];
    if c.st.timeout {
      assert FinishCall(k).k.obj == k.obj;
    } else {
      hide FinishCall, MessageQueue.ReadNow, MessageQueue.WriteNow;
      FinishIsOperation(k, q);
      if c.call.ReadCall? {
        ReadRecord(Back(k), q, c.call.room);
      } else {
        SlotCounts(Back(k), q, c.call.front, c.call.msg);
      }
    }
  }

  lemma DoSlots(k: Kernel, op: Op, inInt: bool, q: nat)
    requires InUse(k, q) && KernelOK(k) && OpLegal(k, op, inInt)
    ensures Defined(k)
    ensures (op.QueueDelete? && op.queue == q ==> Do(k, op, inInt).ret.Fail?) ==>
              SameSlots(k, Do(k, op, inInt).k, q)
  {
    KernelDefined(k);
    RunInRange(k);
    InUseIn(k, q);
    hide *;
    if Operates(k, op, q) {
      DoIsOperation(k, op, inInt, q);
      if op.QueueRead? {
        ReadSlots(k, q, op.room, op.timeout, inInt);
      } else if op.QueueWrite? {
        WriteSlots(k, q, op.front, op.msg, op.timeout, inInt);
      } else {
        FinishSlots(k, q);
      }
    } else if !op.QueueDelete? || op.queue != q || Do(k, op, inInt).ret.Fail? {
      OtherRecord(k, op, inInt, q);
      SameRecord(k, Do(k, op, inInt).k, q);
    }
  }

  lemma SameRecord(k: Kernel, k': Kernel, q: nat)
    requires q < |k.obj.queues| && q < |k'.obj.queues| && k'.obj.queues[q] == k.obj.queues[q]
    ensures SameSlots(k, k', q)
  {
  }

  lemma QuietSlots(k: Kernel, k1: Kernel, k': Kernel, q: nat)
    requires SchedProofs.Quiet(k1, k') && SameSlots(k, k1, q)
    ensures SameSlots(k, k', q)
  {
  }

  lemma SparesDeletion(k: Kernel, s: Step, q: nat)
    requires KernelOK(k) && Spares(k, s, q) && IsOp(s)
    ensures Defined(k)
    ensures OpOf(s).QueueDelete? && OpOf(s).queue == q ==> Do(k, OpOf(s), s.Interrupt?).ret.Fail?
  {
    KernelDefined(k);
  }

  /** A step that does not delete the queue keeps its slots. */
  lemma StepSlots(k: Kernel, s: Step, q: nat)
    requires KernelOK(k) && Legal(k, s) && InUse(k, q) && Spares(k, s, q)
    ensures SameSlots(k, Next(k, s), q)
  {
    InUseIn(k, q);
    hide Do, Defined, KernelOK, OpLegal, SchedOK, SchedProofs.Switchable, ObjectsOK, SchedProofs.Quiet, InUse,
         SameSlots, Spares;
    match s {
      case Call(op, now) =>
        SparesDeletion(k, s, q);
        DoSlots(k, op, false, q);
        NextCallIs(k, op, now);
        var o := Do(k, op, false);
        if o.sched && o.k.lock == 0 {
          SchedProofs.SwitchOK(o.k, now);
          QuietSlots(k, o.k, Next(k, s), q);
        }
      case Interrupt(op) =>
        SparesDeletion(k, s, q);
        DoSlots(k, op, true, q);
      case PendSV(now) =>
        SchedProofs.SettledSwitchable(k);
        SchedProofs.SwitchOK(k, now);
        SameObjects(k, k, q);
        QuietSlots(k, k, Next(k, s), q);
    }
  }

  // ---- The byte array carries the messages ----

  /** The byte array holds the messages `s`, oldest first from its head on, and the next one to the tail goes behind. */
  ghost predicate Carries(ring: RingBuffer, s: seq<seq<Byte>>)
    reads ring, ring.queue
  {
    && ring.Valid() && |s| <= ring.len && ring.tail == Wrap(ring.head + |s|, ring.len)
    && QueueProofs.Contents(ring.Ring(0, 0), |s|) == s
  }

  /** A message comes from a buffer of the caller's. */
  method PutBytes(front: bool, msg: seq<Byte>, ring: RingBuffer, ghost s: seq<seq<Byte>>)
    requires Carries(ring, s) && |s| < ring.len
    requires msg != [] && |msg| + MessageQueue.WORD <= ring.size && |msg| < 0x1_0000_0000
    modifies ring, ring.queue
    ensures Carries(ring, if front then [msg] + s else s + [msg])
  {
    hide RingBuffer.Valid, MessageQueue.RingWrite, QueueProofs.Contents;
    RingShaped(ring);
    var buffer := new Byte[|msg|](i requires 0 <= i < |msg| => msg[i]);
    assert buffer[..|msg|] == msg;
    QueueProofs.WriteAdds(ring.Ring(0, 0), |s|, front, msg);
    ring.Write(front, buffer, |msg|);
  }

  lemma RingShaped(ring: RingBuffer)
    requires ring.Valid()
    ensures MessageQueue.RingShape(ring.Ring(0, 0))
  {
  }

  /** A message goes to a buffer of the caller's. */
  method TakeBytes(ring: RingBuffer, ghost s: seq<seq<Byte>>) returns (msg: seq<Byte>)
    requires Carries(ring, s) && s != [] && s[0] != []
    modifies ring`head
    ensures Carries(ring, s[1..]) && msg == s[0]
  {
    hide RingBuffer.Valid, MessageQueue.RingRead;
    RingShaped(ring);
    HeadFits(ring, s);
    QueueProofs.ReadTakesOldest(ring.Ring(0, 0), |s|);
    var buffer := new Byte[ring.size];
    var n := ring.Read(buffer, ring.size);
    msg := buffer[..n];
  }

  lemma HeadFits(ring: RingBuffer, s: seq<seq<Byte>>)
    requires Carries(ring, s) && s != [] && s[0] != []
    ensures ring.head < |ring.slots| && ring.slots[ring.head] == s[0] && |s[0]| <= ring.size
  {
    assert ring.SlotOK(ring.head);
  }

  // ---- Runs ----

  /** The byte array is the memory of queue `q`: it has its slots and holds its messages. */
  ghost predicate Memory(ring: RingBuffer, k: Kernel, q: nat)
    reads ring, ring.queue
  {
    && InUse(k, q) && Carries(ring, Messages(k, q)) && ring.size < 0x1_0000_0000
    && ring.len == k.obj.queues[q].len && ring.size == k.obj.queues[q].size
  }

  /** A queue that has just been created is in use and empty. */
  lemma CreatedEmpty(k: Kernel, len: nat, maxMsg: nat, memory: bool)
    requires KernelOK(k) && Defined(k)
    ensures forall q :: q in k.obj.queueFree ==> q < |k.obj.queues|
    ensures var o := MessageQueue.Create(k, len, maxMsg, memory);
            o.ret.Id? ==>
              && InUse(o.k, o.ret.id) && Messages(o.k, o.ret.id) == []
              && 0 < len == o.k.obj.queues[o.ret.id].len && 0 < maxMsg
              && o.k.obj.queues[o.ret.id].size == maxMsg + MessageQueue.WORD < 0x1_0000_0000
  {
    QueueProofs.CreateQueueOK(k, len, maxMsg, memory);
    var o := MessageQueue.Create(k, len, maxMsg, memory);
    if o.ret.Id? {
      assert o.ret.id in k.obj.queueFree;
      assert QueueOK(k, o.ret.id) && QueueOK(o.k, o.ret.id);
      FlightSame(k, o.k, o.ret.id, true);
    }
  }

  /** The buffer LOS_QueueCreate allocates is the memory of the queue it creates. */
  method NewBytes(ghost k: Kernel, q: nat, len: nat, maxMsg: nat) returns (ring: RingBuffer)
    requires InUse(k, q) && Messages(k, q) == [] && 0 < len == k.obj.queues[q].len && 0 < maxMsg
    requires k.obj.queues[q].size == maxMsg + MessageQueue.WORD < 0x1_0000_0000
    ensures fresh(ring) && fresh(ring.queue) && Memory(ring, k, q)
  {
    hide InUse, Messages;
    ring := new RingBuffer(len, maxMsg);
  }

  lemma StoredFits(k: Kernel, q: nat)
    requires InUse(k, q)
    ensures q < |k.obj.queues| && |Messages(k, q)| <= k.obj.queues[q].len
    ensures forall i :: 0 <= i < |Messages(k, q)| ==>
              |Messages(k, q)[i]| + MessageQueue.WORD <= k.obj.queues[q].size
  {
    MessagesAre(k, q);
  }

  /** A message that has gone in was one that fits, and there was room for it. */
  lemma PutFits(e: DataEvent, k: Kernel, k': Kernel, q: nat)
    requires InUse(k, q) && InUse(k', q) && SameSlots(k, k', q) && e.Put?
    requires Explains(e, Messages(k, q), Messages(k', q))
    ensures |Messages(k, q)| < k.obj.queues[q].len && |e.msg| + MessageQueue.WORD <= k.obj.queues[q].size
  {
    hide InUse, Messages;
    StoredFits(k', q);
    var after := Messages(k', q);
    assert e.msg == after[if e.front then 0 else |after| - 1];
  }

  lemma TakeFirst(e: DataEvent, before: seq<seq<Byte>>, after: seq<seq<Byte>>)
    requires Explains(e, before, after) && e.Take?
    ensures before != [] && e.msg == before[0] && after == before[1..]
  {
  }

  lemma MemoryNext(ring: RingBuffer, k: Kernel, k': Kernel, q: nat)
    requires InUse(k', q) && SameSlots(k, k', q) && Carries(ring, Messages(k', q)) && ring.size < 0x1_0000_0000
    requires ring.len == k.obj.queues[q].len && ring.size == k.obj.queues[q].size
    ensures Memory(ring, k', q)
  {
    hide Carries;
  }

  /** What step `s` does to queue `q`, done to the bytes: `e` is what its caller sees. */
  method StepBytes(ghost k: Kernel, ghost s: Step, q: nat, e: DataEvent, ring: RingBuffer)
      returns (delivered: seq<seq<Byte>>)
    requires KernelOK(k) && Legal(k, s) && InUse(k, q) && Spares(k, s, q) && CallsSane(k)
    requires NoEmpty(Messages(k, q)) && e == StepEvent(k, s, q) && Memory(ring, k, q)
    modifies ring, ring.queue
    ensures InUse(Next(k, s), q) && Memory(ring, Next(k, s), q)
    ensures delivered == if e.Take? then [e.msg] else []
  {
    StepMessages(k, s, q);
    StepSlots(k, s, q);
    PutSane(k, s, q);
    ghost var k' := Next(k, s);
    hide KernelOK, Legal, Next, InUse, Spares, CallsSane, StepEvent, Messages, Carries, SameSlots;
    delivered := [];
    match e {
      case Quiet =>
      case Put(front, msg) =>
        PutFits(e, k, k', q);
        PutBytes(front, msg, ring, Messages(k, q));
      case Take(_) =>
        TakeFirst(e, Messages(k, q), Messages(k', q));
        var msg := TakeBytes(ring, Messages(k, q));
        delivered := [msg];
    }
    MemoryNext(ring, k, k', q);
  }

  /**
   * Over every run the byte array keeps holding the messages of the queue, and what is copied out of it are, byte for
   * byte, the messages the run delivers: with writes to the tail only, those there at the start and those sent, in
   * order.
   */
  method RunBytes(ghost k: Kernel, ghost steps: seq<Step>, q: nat, log: seq<DataEvent>, ring: RingBuffer)
      returns (delivered: seq<seq<Byte>>)
    requires KernelOK(k) && LegalRun(k, steps) && InUse(k, q) && SparesAll(k, steps, q) && CallsSane(k)
    requires NoEmpty(Messages(k, q)) && log == Log(k, steps, q) && Memory(ring, k, q)
    modifies ring, ring.queue
    ensures InUse(Run(k, steps), q) && Memory(ring, Run(k, steps), q)
    ensures delivered == Delivered(log)
    ensures TailOnly(log) ==> Messages(k, q) + Sent(log) == delivered + Messages(Run(k, steps), q)
    decreases |log|
  {
    hide *;
    LogSteps(k, steps, q);
    if TailOnly(log) {
      FifoOverRuns(k, steps, q);
    }
    if log == [] {
      return [];
    }
    var first := StepBytes(k, steps[0], q, log[0], ring);
    NoEmptyStep(k, steps[0], q);
    var rest := RunBytes(Next(k, steps[0]), steps[1..], q, log[1..], ring);
    delivered := first + rest;
    DeliveredFirst(log);
  }

  lemma DeliveredFirst(log: seq<DataEvent>)
    ensures log == [] ==> Delivered(log) == []
    ensures log != [] ==> Delivered(log) == (if log[0].Take? then [log[0].msg] else []) + Delivered(log[1..])
  {
  }

  lemma LogSteps(k: Kernel, steps: seq<Step>, q: nat)
    requires KernelOK(k) && LegalRun(k, steps) && SparesAll(k, steps, q)
    ensures |Log(k, steps, q)| == 0 <==> steps == []
    ensures steps == [] ==> Run(k, steps) == k && Delivered(Log(k, steps, q)) == []
    ensures steps != [] ==>
              && Legal(k, steps[0]) && Spares(k, steps[0], q)
              && LegalRun(Next(k, steps[0]), steps[1..]) && SparesAll(Next(k, steps[0]), steps[1..], q)
              && Run(k, steps) == Run(Next(k, steps[0]), steps[1..])
              && Log(k, steps, q)[0] == StepEvent(k, steps[0], q)
              && Log(k, steps, q)[1..] == Log(Next(k, steps[0]), steps[1..], q)
  {
    hide KernelOK, Legal, Next, Spares, StepEvent;
  }
}
