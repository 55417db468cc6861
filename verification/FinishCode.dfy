/** What a task that was made to wait does when it runs again: the second halves of the blocking calls. */
module FinishCode {
  import opened KernelState
  import opened StatusWord
  import opened TaskProofs
  import opened Machine
  import opened MachineProofs
  import opened KernelObjects
  import opened SchedCode
  import opened ObjectFacts
  import opened QueueCode
  import opened EventCode
  import EventFlags
  import MessageQueue

  ghost predicate Resumable(k: Kernel) {
    k.run < |k.tcbs| && forall q :: MessageQueue.Ready(k, q)
  }

  /** The error of a wait that timed out. */
  function TimeoutOf(c: Call): Error
    requires !c.NoCall?
  {
    match c
    case SemCall(_) => SemTimeout
    case MuxCall(_) => MuxTimeout
    case ReadCall(_, _) => QueueTimeout
    case WriteCall(_, _, _) => QueueTimeout
    case EventCall(_, _, _) => EventTimeout
  }

  lemma CanResume(k: Kernel)
    requires KernelOK(k)
    ensures Resumable(k)
  {
    RunFree(k);
    forall q: nat ensures MessageQueue.Ready(k, q) {
      UsedServed(k, q);
    }
    hide KernelOK, MessageQueue.Ready;
  }

  lemma FinishPlain(k: Kernel)
    requires Resumable(k)
    ensures k.run < |k.tcbs| && forall q :: MessageQueue.Ready(k, q)
    ensures var c, o := k.tcbs[k.run], FinishCall(k);
            && (c.call.NoCall? ==> o == Out(k, Ok, false))
            && (!c.call.NoCall? && c.st.timeout ==> o == Out(Back(k), Fail(TimeoutOf(c.call)), false))
            && (!c.st.timeout && (c.call.SemCall? || c.call.MuxCall?) ==> o == Out(Back(k), Ok, false))
            && (!c.st.timeout && c.call.EventCall? ==>
                  o == if c.call.event < |k.obj.events| then
                      EventFlags.PollNow(Back(k), c.call.event, c.call.mask, c.call.mode)
                       else Out(Back(k), Ok, false))
  {
    hide EventFlags.PollNow, MessageQueue.ReadNow, MessageQueue.WriteNow, MessageQueue.Ready;
  }

  lemma FinishQueue(k: Kernel)
    requires Resumable(k) && !k.tcbs[k.run].st.timeout
             && (k.tcbs[k.run].call.ReadCall? || k.tcbs[k.run].call.WriteCall?)
    ensures k.run < |k.tcbs| && forall q :: MessageQueue.Ready(k, q)
    ensures var c, o := k.tcbs[k.run].call, FinishCall(k);
            if c.queue < |k.obj.queues| && k.obj.queues[c.queue].used then
              && CanRead(Back(k), c.queue) && CanWrite(Back(k), c.queue)
              && o == if c.ReadCall? then MessageQueue.ReadNow(Back(k), c.queue, c.room)
                      else MessageQueue.WriteNow(Back(k), c.queue, c.front, c.msg)
            else o == Out(Back(k), Ok, false)
  {
    assert MessageQueue.Ready(k, k.tcbs[k.run].call.queue);
    hide MessageQueue.ReadNow, MessageQueue.WriteNow, MessageQueue.RingShape;
  }

  /** The waiting tasks of a queue are not the running one. */
  lemma BackServed(k: Kernel, q: nat)
    requires KernelOK(k) && q < |k.obj.queues| && k.obj.queues[q].used
    ensures k.run < |k.tcbs| && Served(Back(k), q)
  {
    UsedServed(k, q);
    RunFree(k);
    forall l | FirstWakeable(k, l) ensures FirstWakeable(Back(k), l) {
      if At(k.lists, l) != [] {
        assert At(k.lists, l)[0] in At(k.lists, l);
        StillWakeable(k, Back(k), At(k.lists, l)[0]);
      }
    }
    hide KernelOK, Wakeable, MessageQueue.RingShape;
  }

  /** The wait is over: the timeout mark and the call leave the record of the task. */
  method LeaveWait(g: Globals)
    requires g.Valid() && KernelOK(g.abs) == true
    modifies g.Parts()
    ensures g.Valid() && old(g.abs).run < |old(g.abs).tcbs| && g.abs == Back(old(g.abs))
  {
    hide *;
    ghost var k := g.abs;
    g.RunAt();
    var t := g.runTask.taskID;
    g.TaskAt(t);
    ClearIs(g.tasks[t].taskStatus);
    g.SetStatus(t, Clear(g.tasks[t].taskStatus, TIMEOUT));
    g.SetCall(t, NoCall);
    BackIs(k);
  }

  lemma BackIs(k: Kernel)
    requires k.run < |k.tcbs|
    ensures var k1 := PutTcb(k, k.run, TcbAt(k, k.run).(st := TcbAt(k, k.run).st.(timeout := false)));
            PutTcb(k1, k.run, TcbAt(k1, k.run).(call := NoCall)) == Back(k)
  {
  }

  /** The rest of LOS_SemPend, LOS_MuxPend, OsQueueOperate and LOS_EventRead behind LOS_Schedule. */
  method Finish(g: Globals) returns (ret: Ret, sched: bool)
    requires g.Valid() && KernelOK(g.abs) == true
    modifies g.Parts()
    ensures g.Valid() && Resumable(old(g.abs)) && Out(g.abs, ret, sched) == FinishCall(old(g.abs))
  {
    hide *;
    ghost var k := g.abs;
    CanResume(k);
    FinishPlain(k);
    g.RunAt();
    var t := g.runTask.taskID;
    g.TaskAt(t);
    var call := g.tasks[t].call;
    FlagTests(g.tasks[t].taskStatus);
    if call.NoCall? {
      return Ok, false;
    }
    var timedOut := Test(g.tasks[t].taskStatus, TIMEOUT);
    LeaveWait(g);
    if timedOut {
      return Fail(TimeoutOf(call)), false;
    }
    g.ObjectAt();
    match call {
      case ReadCall(q, room) =>
        FinishQueue(k);
        SameObjectsBack(k);
        if q < g.queues.Length && g.queues[q].used {
          BackServed(k, q);
          ret, sched := OperateRead(g, q, room);
          return;
        }
      case WriteCall(q, front, msg) =>
        FinishQueue(k);
        SameObjectsBack(k);
        if q < g.queues.Length && g.queues[q].used {
          BackServed(k, q);
          ret, sched := OperateWrite(g, q, front, msg);
          return;
        }
      case EventCall(e, mask, mode) =>
        SameObjectsBack(k);
        if e < g.events.Length {
          var bits := PollEvent(g, e, mask, mode);
          return Bits(bits), false;
        }
      case _ =>
    }
    return Ok, false;
  }

  lemma SameObjectsBack(k: Kernel)
    requires k.run < |k.tcbs|
    ensures Back(k).obj == k.obj
  {
  }
}
