/** The messages of a running kernel in the byte buffers of its queues (kernel/src/los_queue.c). */
module QueueMemory {
  import opened KernelState
  import opened Sched
  import opened Invariants
  import opened TaskProofs
  import opened Machine
  import opened MachineProofs
  import opened Fates
  import opened Outcomes
  import opened QueueHistory
  import opened QueueBuffer
  import opened ReadyBitmap
  import opened KernelObjects
  import opened QueueCode
  import EventFlags
  import MessageQueue
  import Mutex
  import QueueProofs
  import SchedProofs
  import Semaphore

  // ---- No queue ever holds an empty message ----

  /** The call a task is inside of does not write an empty message. */
  predicate Sane(c: Call) {
    c.WriteCall? ==> c.msg != []
  }

  ghost predicate CallsSane(k: Kernel)
    requires Shape(k)
  {
    forall t :: 0 <= t < k.cfg.tasks ==> Sane(k.tcbs[t].call)
  }

  predicate NoEmpty(s: seq<seq<Byte>>) {
    forall i :: 0 <= i < |s| ==> s[i] != []
  }

  /** The call that `op` leaves a task inside of, when it makes it wait. */
  function CallOf(op: Op): Call {
    match op
    case SemPend(s, _) => SemCall(s)
    case MuxPend(m, _) => MuxCall(m)
    case QueueRead(q, room, _) => ReadCall(q, room)
    case QueueWrite(q, front, msg, _) => WriteCall(q, front, msg)
    case EventRead(e, mask, mode, _) => EventCall(e, mask, mode)
    case _ => NoCall
  }

  lemma WaitCall(k: Kernel, call: Call, ticks: nat)
    requires k.run < |k.tcbs|
    ensures Wait(k, call, ticks).tcbs[k.run].call == call
  {
    hide PushBack, WaitListOf;
  }

  /** What remains of a call that waits. */
  ghost predicate Inside(k: Kernel, o: Out, c: Call) {
    k.run < |o.k.tcbs| && o.k.tcbs[k.run].call == c
  }

  /** A caller that is made to wait for an object is inside of the call it made. */
  lemma WaitsInside(k: Kernel, op: Op, inInt: bool)
    requires KernelOK(k) && Defined(k) && k.run < |k.tcbs| && Patience(op) > 0 && Do(k, op, inInt).ret == Waiting
             && !op.TaskDelay?
    ensures Inside(k, Do(k, op, inInt), CallOf(op)) && Sane(CallOf(op))
  {
    hide *;
    Patient(op);
    DoIs(k, op, inInt);
    CallsAre(k, op, inInt);
    if op.SemPend? {
      SemInside(k, op.sem, op.timeout, inInt);
    } else if op.MuxPend? {
      PendWaits(k, op.mux, op.timeout, inInt);
      WaitCall(Mutex.Boost(k, k.obj.muxes[op.mux].owner.value), MuxCall(op.mux), op.timeout);
      InsideIs(k, Mutex.Pend(k, op.mux, op.timeout, inInt), MuxCall(op.mux));
    } else if op.QueueRead? {
      QueueProofs.ReadCases(k, op.queue, op.room, op.timeout, inInt);
      ReadInside(k, op.queue, op.room, op.timeout, inInt);
    } else if op.QueueWrite? {
      QueueProofs.WriteCases(k, op.queue, op.front, op.msg, op.timeout, inInt);
      WriteInside(k, op.queue, op.front, op.msg, op.timeout, inInt);
    } else {
      EventInside(k, op.event, op.mask, op.mode, op.timeout, inInt);
    }
  }

  lemma Patient(op: Op)
    ensures Patience(op) > 0 && !op.TaskDelay? ==>
              op.SemPend? || op.MuxPend? || op.QueueRead? || op.QueueWrite? || op.EventRead?
    ensures (op.SemPend? ==> ServiceOf(op) == OnSem) && (op.MuxPend? ==> ServiceOf(op) == OnMux)
    ensures (op.QueueRead? || op.QueueWrite? ==> ServiceOf(op) == OnQueue)
            && (op.EventRead? ==> ServiceOf(op) == OnEvent)
    ensures !op.QueueWrite? ==> Sane(CallOf(op))
    ensures op.QueueWrite? ==> (Sane(CallOf(op)) <==> op.msg != [])
    ensures op.SemPend? ==> CallOf(op) == SemCall(op.sem)
    ensures op.MuxPend? ==> CallOf(op) == MuxCall(op.mux)
    ensures op.QueueRead? ==> CallOf(op) == ReadCall(op.queue, op.room)
    ensures op.QueueWrite? ==> CallOf(op) == WriteCall(op.queue, op.front, op.msg)
    ensures op.EventRead? ==> CallOf(op) == EventCall(op.event, op.mask, op.mode)
  {
  }

  lemma CallsAre(k: Kernel, op: Op, inInt: bool)
    requires Defined(k) && k.run < |k.tcbs|
    ensures forall q :: MessageQueue.Ready(k, q)
    ensures forall i :: 0 <= i < |k.obj.muxes| && k.obj.muxes[i].count > 0 ==>
              k.obj.muxes[i].owner.Some? && k.obj.muxes[i].owner.value < |k.tcbs|
    ensures op.SemPend? ==> DoSem(k, op, inInt) == Semaphore.Pend(k, op.sem, op.timeout, inInt)
    ensures op.MuxPend? ==> DoMux(k, op, inInt) == Mutex.Pend(k, op.mux, op.timeout, inInt)
    ensures op.QueueRead? ==> DoQueue(k, op, inInt) == MessageQueue.Read(k, op.queue, op.room, op.timeout, inInt)
    ensures op.QueueWrite? ==>
              DoQueue(k, op, inInt) == MessageQueue.Write(k, op.queue, op.front, op.msg, op.timeout, inInt)
    ensures op.EventRead? ==>
              DoEvent(k, op, inInt) == EventFlags.Read(k, op.event, op.mask, op.mode, op.timeout, inInt)
  {
    DefinedReady(k);
    hide Semaphore.Pend, Mutex.Pend, MessageQueue.Read, MessageQueue.Write, EventFlags.Read, MessageQueue.Ready, DoTask;
  }

  lemma InsideIs(k: Kernel, o: Out, c: Call)
    requires k.run < |o.k.tcbs| && o.k.tcbs[k.run].call == c
    ensures Inside(k, o, c)
  {
  }

  lemma SemInside(k: Kernel, s: nat, timeout: nat, inInt: bool)
    requires k.run < |k.tcbs| && Semaphore.Pend(k, s, timeout, inInt).ret == Waiting
    ensures Inside(k, Semaphore.Pend(k, s, timeout, inInt), SemCall(s))
  {
    WaitCall(k, SemCall(s), timeout);
    hide Wait;
  }

  lemma ReadInside(k: Kernel, q: nat, room: nat, timeout: nat, inInt: bool)
    requires k.run < |k.tcbs| && MessageQueue.Ready(k, q)
             && MessageQueue.Read(k, q, room, timeout, inInt).ret == Waiting
    ensures Inside(k, MessageQueue.Read(k, q, room, timeout, inInt), ReadCall(q, room))
  {
    WaitCall(k, ReadCall(q, room), timeout);
    hide Wait, MessageQueue.FreeSlot;
  }

  lemma WriteInside(k: Kernel, q: nat, front: bool, msg: seq<Byte>, timeout: nat, inInt: bool)
    requires k.run < |k.tcbs| && MessageQueue.Ready(k, q)
    requires MessageQueue.Write(k, q, front, msg, timeout, inInt).ret == Waiting
    ensures Inside(k, MessageQueue.Write(k, q, front, msg, timeout, inInt), WriteCall(q, front, msg)) && msg != []
  {
    WaitCall(k, WriteCall(q, front, msg), timeout);
    hide Wait, MessageQueue.FillSlot;
  }

  lemma EventInside(k: Kernel, e: nat, mask: bv32, mode: bv32, timeout: nat, inInt: bool)
    requires k.run < |k.tcbs| && EventFlags.Read(k, e, mask, mode, timeout, inInt).ret == Waiting
    ensures Inside(k, EventFlags.Read(k, e, mask, mode, timeout, inInt), EventCall(e, mask, mode))
  {
    var k1 := EventFlags.PollNow(k, e, mask, mode).k;
    var k2 := SetTcb(k1, k.run, k1.tcbs[k.run].(eventMask := mask, eventMode := mode));
    WaitCall(k2, EventCall(e, mask, mode), timeout);
    hide Wait, EventFlags.ModeOK, EventFlags.Poll;
  }

  /** Every call keeps the calls of all tasks sane. */
  lemma DoSane(k: Kernel, op: Op, inInt: bool)
    requires KernelOK(k) && OpLegal(k, op, inInt) && CallsSane(k)
    requires !inInt ==> (op.Finish? <==> !k.tcbs[k.run].call.NoCall?)
    ensures Defined(k) && Shape(Do(k, op, inInt).k) && CallsSane(Do(k, op, inInt).k)
  {
    hide Do, Fate, Defined, KernelOK, OpLegal, Sane;
    RunInRange(k);
    InRangeAll(k);
    DoFates(k, op, inInt);
    DoOK(k, op, inInt);
    var o := Do(k, op, inInt);
    DoneShape(k, op, o);
    forall t | 0 <= t < k.cfg.tasks ensures Sane(o.k.tcbs[t].call) {
      assert Fate(op, k, o.k, t);
      OneSane(k, op, inInt, t);
    }
  }

  lemma DoneShape(k: Kernel, op: Op, o: Out)
    requires CallOK(if op.Tick? then k.(now := op.at) else k, o)
    ensures Shape(o.k) && o.k.cfg == k.cfg
  {
  }

  lemma OneSane(k: Kernel, op: Op, inInt: bool, t: Tid)
    requires KernelOK(k) && Defined(k) && t < k.cfg.tasks && Sane(k.tcbs[t].call)
    requires k.run < |k.tcbs| == |Do(k, op, inInt).k.tcbs| && t < |k.tcbs| && Fate(op, k, Do(k, op, inInt).k, t)
    requires CallOK(if op.Tick? then k.(now := op.at) else k, Do(k, op, inInt))
    ensures Sane(Do(k, op, inInt).k.tcbs[t].call)
  {
    var o := Do(k, op, inInt);
    hide Do, Defined, KernelOK;
    if t == k.run && Patience(op) > 0 && o.k.tcbs[t].st.pend && k.tcbs[t].call.NoCall? {
      PendingWaits(k, op, o);
      if op.TaskDelay? {
        DelayNeverPends(k, op, inInt);
      } else {
        WaitsInside(k, op, inInt);
      }
    }
  }

  lemma PendingWaits(k: Kernel, op: Op, o: Out)
    requires KernelOK(k) && CallOK(if op.Tick? then k.(now := op.at) else k, o) && !op.Tick?
    requires k.run < |o.k.tcbs| && o.k.tcbs[k.run].st.pend
    ensures o.ret == Waiting
  {
  }

  lemma DelayNeverPends(k: Kernel, op: Op, inInt: bool)
    requires KernelOK(k) && Defined(k) && op.TaskDelay? && k.run < |k.tcbs| == |Do(k, op, inInt).k.tcbs|
    ensures Do(k, op, inInt).k.tcbs[k.run].call == k.tcbs[k.run].call
  {
    OnTaskOps(op);
    DoIs(k, op, inInt);
    DoTaskIs(k, op, inInt);
    hide Do, DoTask, Defined, KernelOK;
  }

  lemma SwitchSane(k: Kernel, k': Kernel)
    requires Shape(k) && Shape(k') && SchedProofs.Quiet(k, k') && CallsSane(k)
    ensures CallsSane(k')
  {
    forall t | 0 <= t < k'.cfg.tasks ensures Sane(k'.tcbs[t].call) {
      assert SchedProofs.SameCall(k.tcbs[t], k'.tcbs[t]);
    }
  }

  /** Over every run, nobody is left inside of a write of an empty message. */
  lemma StepSane(k: Kernel, s: Step)
    requires KernelOK(k) && Legal(k, s) && CallsSane(k)
    ensures Shape(Next(k, s)) && CallsSane(Next(k, s))
  {
    match s {
      case Call(op, now) =>
        DoSane(k, op, false);
        NextCallIs(k, op, now);
        var o := Do(k, op, false);
        if o.sched && o.k.lock == 0 {
          SchedProofs.SwitchOK(o.k, now);
          SwitchSane(o.k, Next(k, s));
        }
      case Interrupt(op) => DoSane(k, op, true);
      case PendSV(now) =>
        SchedProofs.SettledSwitchable(k);
        SchedProofs.SwitchOK(k, now);
        SwitchSane(k, Next(k, s));
    }
  }

  lemma PutSane(k: Kernel, s: Step, q: nat)
    requires KernelOK(k) && Legal(k, s) && CallsSane(k)
    ensures StepEvent(k, s, q).Put? ==> StepEvent(k, s, q).msg != []
  {
    hide *;
    KernelDefined(k);
    RunInRange(k);
    PutCases(k, s, q);
    if IsOp(s) && OpOf(s).QueueWrite? && Do(k, OpOf(s), s.Interrupt?).ret == Ok {
      var op := OpOf(s);
      Patient(op);
      DoIs(k, op, s.Interrupt?);
      CallsAre(k, op, s.Interrupt?);
      AcceptedWrite(k, op.queue, op.front, op.msg, op.timeout, s.Interrupt?);
    }
  }

  /** A message enters the ring out of the caller's hand, or out of the call that the running task is inside of. */
  lemma PutCases(k: Kernel, s: Step, q: nat)
    requires KernelOK(k) && Legal(k, s) && CallsSane(k) && Defined(k) && k.run < |k.tcbs|
    ensures StepEvent(k, s, q).Put? ==>
              || StepEvent(k, s, q).msg != []
              || (IsOp(s) && OpOf(s).QueueWrite? && Do(k, OpOf(s), s.Interrupt?).ret == Ok
                  && StepEvent(k, s, q).msg == OpOf(s).msg)
    ensures s.PendSV? ==> !IsOp(s)
    ensures !s.PendSV? ==> IsOp(s)
  {
    assert k.run < k.cfg.tasks;
    hide Do, Defined, KernelOK;
  }

  lemma AcceptedWrite(k: Kernel, q: nat, front: bool, msg: seq<Byte>, timeout: nat, inInt: bool)
    requires MessageQueue.Ready(k, q) && MessageQueue.Write(k, q, front, msg, timeout, inInt).ret == Ok
    ensures msg != []
  {
  }

  lemma NoEmptyStep(k: Kernel, s: Step, q: nat)
    requires KernelOK(k) && Legal(k, s) && InUse(k, q) && Spares(k, s, q) && CallsSane(k)
    requires NoEmpty(Messages(k, q))
    ensures InUse(Next(k, s), q) && NoEmpty(Messages(Next(k, s), q))
    ensures Shape(Next(k, s)) && CallsSane(Next(k, s))
  {
    hide KernelOK, Legal, Next, InUse, Spares, CallsSane, StepEvent, Messages;
    StepMessages(k, s, q);
    PutSane(k, s, q);
    StepSane(k, s);
    ExplainedNoEmpty(StepEvent(k, s, q), Messages(k, q), Messages(Next(k, s), q));
  }

  /** Over every run, no stored message is empty, so a slot that is read holds what was written to it. */
  lemma {:induction false} NoEmptyOverRuns(k: Kernel, steps: seq<Step>, q: nat)
    requires KernelOK(k) && LegalRun(k, steps) && InUse(k, q) && SparesAll(k, steps, q)
    requires CallsSane(k) && NoEmpty(Messages(k, q))
    ensures InUse(Run(k, steps), q) && NoEmpty(Messages(Run(k, steps), q)) && CallsSane(Run(k, steps))
    decreases |steps|
  {
    if steps != [] {
      NoEmptyStep(k, steps[0], q);
      hide Next, KernelOK, InUse, Messages, CallsSane;
      NoEmptyOverRuns(Next(k, steps[0]), steps[1..], q);
    }
  }

  lemma ExplainedNoEmpty(e: DataEvent, before: seq<seq<Byte>>, after: seq<seq<Byte>>)
    requires Explains(e, before, after) && NoEmpty(before) && (e.Put? ==> e.msg != [])
    ensures NoEmpty(after)
  {
    if e.Take? {
      assert forall i :: 0 <= i < |after| ==> after[i] == before[i + 1];
    }
  }

  /** The slot at the head holds the oldest message. */
  lemma HeadHoldsOldest(k: Kernel, q: nat)
    requires InUse(k, q) && Stored(k, q) > 0
    ensures MessageQueue.RingShape(k.obj.queues[q]) && |Messages(k, q)| > 0
    ensures k.obj.queues[q].slots[k.obj.queues[q].head] == Messages(k, q)[0]
  {
    MessagesAre(k, q);
  }

  // ---- The kernel's queue and its bytes, operated together ----

  /** A queue's record without its counters, which the ring does not know. */
  function Uncounted(x: Queue): Queue {
    x.(readable := 0, writable := 0)
  }

  /** The byte buffer `ring` is the memory of queue `q`. */
  ghost predicate Holds(g: Globals, ring: RingBuffer, q: nat)
    reads g.queues, ring, ring.queue
  {
    ring.Valid() && q < g.queues.Length && Uncounted(g.queues[q]) == ring.Ring(0, 0)
  }

  lemma RingUncounted(x: Queue, front: bool, msg: seq<Byte>)
    requires MessageQueue.RingShape(x)
    ensures MessageQueue.RingShape(Uncounted(x))
    ensures Uncounted(MessageQueue.RingWrite(x, front, msg)) == MessageQueue.RingWrite(Uncounted(x), front, msg)
    ensures var r, u := MessageQueue.RingRead(x), MessageQueue.RingRead(Uncounted(x));
            Uncounted(r.0) == u.0 && r.1 == u.1
  {
  }

  /** No memory of the caller or of the ring is the kernel's. */
  ghost predicate Apart(g: Globals, ring: RingBuffer, buffer: array<Byte>) {
    ring !in g.Parts() && ring.queue !in g.Parts() && buffer !in g.Parts() && buffer != ring.queue
  }

  /** OsQueueOperate from the buffer on, reading: what the caller gets in `buffer` is what the machine delivers. */
  method ReadBytes(g: Globals, ring: RingBuffer, q: nat, buffer: array<Byte>, bufferSize: nat)
      returns (ret: Ret, sched: bool, n: nat)
    requires g.Valid() && Served(g.abs, q) == true && Holds(g, ring, q) && Apart(g, ring, buffer)
    requires ring.slots[ring.head] != [] && |ring.slots[ring.head]| <= bufferSize <= buffer.Length
    modifies g.Parts(), ring`head, buffer
    ensures g.Valid() && CanRead(old(g.abs), q)
            && Out(g.abs, ret, sched) == MessageQueue.ReadNow(old(g.abs), q, bufferSize)
    ensures Holds(g, ring, q) && n <= buffer.Length && ret == Data(buffer[..n])
  {
    hide Globals.TasksAre, Globals.LinksAre, Globals.TimersAre, Globals.ObjectsAre, Agrees, Served,
         MessageQueue.ReadNow, MessageQueue.RingRead, RingBuffer.Valid;
    g.ObjectAt();
    ghost var k := g.abs;
    ServedFacts(k, q);
    RingUncounted(k.obj.queues[q], false, []);
    n := ring.Read(buffer, bufferSize);
    ret, sched := OperateRead(g, q, bufferSize);
    g.ObjectAt();
    ReadBack(k, q, bufferSize);
  }

  lemma ReadBack(k: Kernel, q: nat, room: nat)
    requires CanRead(k, q) && |k.obj.queues[q].slots[k.obj.queues[q].head]| <= room
    ensures var o, r := MessageQueue.ReadNow(k, q, room), MessageQueue.RingRead(k.obj.queues[q]);
            && o.ret == Data(r.1) && |o.k.obj.queues| == |k.obj.queues|
            && o.k.obj.queues[q] == r.0.(writable := o.k.obj.queues[q].writable)
  {
    hide Wake;
  }

  /** OsQueueOperate from the buffer on, writing: the machine stores what the caller has in `buffer`. */
  method WriteBytes(g: Globals, ring: RingBuffer, q: nat, front: bool, buffer: array<Byte>, bufferSize: nat)
      returns (ret: Ret, sched: bool)
    requires g.Valid() && Served(g.abs, q) == true && Holds(g, ring, q) && Apart(g, ring, buffer)
    requires 0 < bufferSize <= buffer.Length && bufferSize + MessageQueue.WORD <= ring.size
             && bufferSize < 0x1_0000_0000
    modifies g.Parts(), ring, ring.queue
    ensures g.Valid() && CanWrite(old(g.abs), q)
    ensures Out(g.abs, ret, sched) == MessageQueue.WriteNow(old(g.abs), q, front, old(buffer[..bufferSize]))
    ensures Holds(g, ring, q)
  {
    hide Globals.TasksAre, Globals.LinksAre, Globals.TimersAre, Globals.ObjectsAre, Agrees, Served,
         MessageQueue.WriteNow, MessageQueue.RingWrite, RingBuffer.Valid;
    g.ObjectAt();
    ghost var k := g.abs;
    ServedFacts(k, q);
    RingUncounted(k.obj.queues[q], front, buffer[..bufferSize]);
    ring.Write(front, buffer, bufferSize);
    ret, sched := OperateWrite(g, q, front, buffer[..bufferSize]);
    g.ObjectAt();
    SlotCounts(k, q, front, buffer[..bufferSize]);
  }
}
