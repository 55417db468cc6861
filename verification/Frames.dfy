/** Which objects a kernel call can change at all. */
module Frames {
  import opened KernelState
  import opened Sched
  import opened SchedProofs
  import opened TaskProofs
  import opened Machine
  import opened MachineProofs
  import MessageQueue
  import EventFlags

  lemma TaskCallsKeepObjects(k: Kernel, op: Op, inInt: bool)
    requires Defined(k) && ServiceOf(op) == OnTask && !op.Finish?
    ensures DoTask(k, op, inInt).k.obj == k.obj
  {
    hide EnQueue, DeQueue, Exit, ModifyPrio, Defined;
  }

  lemma SemCallsKeep(k: Kernel, op: Op, inInt: bool)
    requires Defined(k) && ServiceOf(op) == OnSem
    ensures var o := DoSem(k, op, inInt).k.obj;
            o.muxes == k.obj.muxes && o.muxFree == k.obj.muxFree && o.queues == k.obj.queues
                && o.queueFree == k.obj.queueFree
            && o.events == k.obj.events
  {
    hide Wake, Wait, Defined;
  }

  lemma MuxCallsKeep(k: Kernel, op: Op, inInt: bool)
    requires Defined(k) && ServiceOf(op) == OnMux
    ensures var o := DoMux(k, op, inInt).k.obj;
            o.sems == k.obj.sems && o.semFree == k.obj.semFree && o.queues == k.obj.queues
                && o.queueFree == k.obj.queueFree
            && o.events == k.obj.events
  {
    hide Wake, Wait, ModifyPrio, Defined;
  }

  lemma QueueCallsKeep(k: Kernel, op: Op, inInt: bool)
    requires Defined(k) && ServiceOf(op) == OnQueue
    ensures op.QueueCreate? ==> OnlyQueues(k.obj, DoQueue(k, op, inInt).k.obj)
    ensures !op.QueueCreate? ==> OnlyQueue(k.obj, DoQueue(k, op, inInt).k.obj, op.queue)
  {
    match op {
      case QueueRead(q, room, timeout) => ReadKeeps(k, q, room, timeout, inInt);
      case QueueWrite(q, front, msg, timeout) => WriteKeeps(k, q, front, msg, timeout, inInt);
      case _ =>
    }
    hide Defined, MessageQueue.Read, MessageQueue.Write;
  }

  /** Nothing but the queues has changed. */
  predicate OnlyQueues(o: Objects, o': Objects) {
    && o'.sems == o.sems && o'.semFree == o.semFree && o'.muxes == o.muxes && o'.muxFree == o.muxFree
       && o'.events == o.events
  }

  /** Nothing but queue `q` has changed. */
  predicate OnlyQueue(o: Objects, o': Objects, q: nat) {
    && OnlyQueues(o, o') && |o'.queues| == |o.queues|
    && forall p :: 0 <= p < |o.queues| && p != q ==> o'.queues[p] == o.queues[p]
  }

  lemma ReadKeeps(k: Kernel, q: nat, room: nat, timeout: nat, inInt: bool)
    requires Defined(k)
    ensures MessageQueue.Ready(k, q) && OnlyQueue(k.obj, MessageQueue.Read(k, q, room, timeout, inInt).k.obj, q)
  {
    assert MessageQueue.Ready(k, q);
    hide Wake, Wait, Defined, MessageQueue.RingRead;
  }

  lemma WriteKeeps(k: Kernel, q: nat, front: bool, msg: seq<Byte>, timeout: nat, inInt: bool)
    requires Defined(k)
    ensures MessageQueue.Ready(k, q) && OnlyQueue(k.obj, MessageQueue.Write(k, q, front, msg, timeout, inInt).k.obj, q)
  {
    assert MessageQueue.Ready(k, q);
    hide Wake, Wait, Defined, MessageQueue.RingWrite;
  }

  lemma EventCallsKeep(k: Kernel, op: Op, inInt: bool)
    requires Defined(k) && ServiceOf(op) == OnEvent
    ensures var o := DoEvent(k, op, inInt).k.obj;
            o.sems == k.obj.sems && o.semFree == k.obj.semFree && o.muxes == k.obj.muxes && o.muxFree == k.obj.muxFree
            && o.queues == k.obj.queues && o.queueFree == k.obj.queueFree
  {
    hide Wake, Wait, EventFlags.Poll, EventFlags.ModeOK, Defined;
  }

  lemma FinishKeeps(k: Kernel)
    requires k.run < |k.tcbs| && (forall q :: MessageQueue.Ready(k, q))
    ensures var o := FinishCall(k).k.obj;
            o.sems == k.obj.sems && o.semFree == k.obj.semFree && o.muxes == k.obj.muxes && o.muxFree == k.obj.muxFree
            && o.queueFree == k.obj.queueFree
    ensures forall q ::
              0 <= q < |k.obj.queues|
              && !(var c := k.tcbs[k.run].call; (c.ReadCall? || c.WriteCall?) && c.queue == q) ==>
                q < |FinishCall(k).k.obj.queues| && FinishCall(k).k.obj.queues[q] == k.obj.queues[q]
  {
    hide Wake, EventFlags.Poll;
  }

  /** A task switch changes no object. */
  lemma NextObjects(k: Kernel, step: Step)
    requires KernelOK(k) && Legal(k, step)
    ensures Defined(k)
    ensures Next(k, step).obj == if IsOp(step) then Do(k, OpOf(step), step.Interrupt?).k.obj else k.obj
  {
    KernelDefined(k);
    match step {
      case Call(op, now) =>
        DoOK(k, op, false);
        var o := Do(k, op, false);
        if o.sched && o.k.lock == 0 {
          SwitchOK(o.k, now);
        }
      case Interrupt(op) => DoOK(k, op, true);
      case PendSV(now) =>
        SettledSwitchable(k);
        SwitchOK(k, now);
    }
  }
}
