/** Every blocked wait ends at most once, by a grant or by a timeout, and the call reports which. */
module Outcomes {
  import opened KernelState
  import opened SchedProofs
  import opened TaskProofs
  import opened Machine
  import opened MachineProofs
  import opened Fates
  import EventFlags
  import Task

  lemma QueueOrEventFates(k: Kernel, op: Op, inInt: bool)
    requires KernelOK(k) && Defined(k) && OpLegal(k, op, inInt)
             && (ServiceOf(op) == OnQueue || ServiceOf(op) == OnEvent)
    requires !inInt ==> k.tcbs[k.run].call.NoCall?
    ensures AllFates(op, k, Do(k, op, inInt).k)
  {
    hide AllFates, KernelOK, Defined, DoTask, DoSem, DoMux,
         MessageQueue.Read, MessageQueue.Write, EventFlags.Read, EventFlags.Write;
    match op {
      case QueueCreate(len, maxMsg, memory) => QuietFates(op, k, Do(k, op, inInt).k);
      case QueueDelete(q) => QuietFates(op, k, Do(k, op, inInt).k);
      case QueueRead(q, room, timeout) => QueueReadFates(k, q, room, timeout, inInt);
      case QueueWrite(q, front, msg, timeout) => QueueWriteFates(k, q, front, msg, timeout, inInt);
      case EventInit(e) => QuietFates(op, k, Do(k, op, inInt).k);
      case EventRead(e, mask, mode, timeout) => EventReadFates(k, e, mask, mode, timeout, inInt);
      case EventWrite(e, events) => EventWriteFates(k, e, events);
      case EventClear(e, events) => QuietFates(op, k, Do(k, op, inInt).k);
      case EventDestroy(e) => QuietFates(op, k, Do(k, op, inInt).k);
    }
  }

  lemma SemOrMuxFates(k: Kernel, op: Op, inInt: bool)
    requires KernelOK(k) && Defined(k) && OpLegal(k, op, inInt) && (ServiceOf(op) == OnSem || ServiceOf(op) == OnMux)
    requires !inInt ==> k.tcbs[k.run].call.NoCall?
    ensures AllFates(op, k, Do(k, op, inInt).k)
  {
    hide AllFates, KernelOK, Defined, DoTask, DoQueue, DoEvent, Semaphore.Pend, Semaphore.Post, Mutex.Pend, Mutex.Post;
    match op {
      case SemCreate(count, max) => QuietFates(op, k, Do(k, op, inInt).k);
      case SemDelete(s) => QuietFates(op, k, Do(k, op, inInt).k);
      case SemPend(s, timeout) => SemPendFates(k, s, timeout, inInt);
      case SemPost(s) => SemPostFates(k, s);
      case MuxCreate => QuietFates(op, k, Do(k, op, inInt).k);
      case MuxDelete(m) => QuietFates(op, k, Do(k, op, inInt).k);
      case MuxPend(m, timeout) => MuxPendFates(k, m, timeout, inInt);
      case MuxPost(m) => MuxPostFates(k, m);
    }
  }

  lemma TaskFates(k: Kernel, op: Op, inInt: bool)
    requires KernelOK(k) && Defined(k) && OpLegal(k, op, inInt) && ServiceOf(op) == OnTask
    ensures AllFates(op, k, DoTask(k, op, inInt).k)
  {
    hide *;
    DoTaskIs(k, op, inInt);
    OnTaskOps(op);
    TaskOpLegal(k, op, inInt);
    if op.TaskCreateOnly? || op.TaskCreate? {
      CreateFates(k, op, op.prio, op.memory);
    } else if op.TaskDelete? {
      DeleteFates(k, op.t);
    } else if op.Finish? {
      FinishFates(k);
    } else if op.Tick? {
      TickFates(k, op.scanAt, op.at, op.scan);
    } else {
      StillCalls(k, op, inInt);
      StillFates(op, k, DoTask(k, op, inInt).k);
    }
  }

  lemma StillCalls(k: Kernel, op: Op, inInt: bool)
    requires KernelOK(k) && Defined(k) && ServiceOf(op) == OnTask
    requires !op.TaskCreateOnly? && !op.TaskCreate? && !op.TaskDelete? && !op.Finish? && !op.Tick?
    ensures Still(k, DoTask(k, op, inInt).k)
  {
    hide *;
    DoTaskIs(k, op, inInt);
    OnTaskOps(op);
    if op.TaskSuspend? {
      SuspendStill(k, op.t);
    } else if op.TaskResume? {
      ResumeStill(k, op.t);
    } else if op.TaskPriSet? {
      PriSetStill(k, op.t, op.prio);
    } else if op.TaskRecycle? {
      RecycleStill(k);
    } else {
      SimpleStill(k, if op.TaskDelay? then op.ticks else 0, inInt);
    }
  }

  lemma TickFates(k: Kernel, scanAt: nat, at: nat, scan: bool)
    requires KernelOK(k) && k.now <= scanAt <= at
    ensures Scannable(k) && AllFates(Tick(scanAt, at, scan), k, Task.Tick(k, scanAt, at, scan).k)
  {
    SchedScannable(k);
    forall x | 0 <= x < k.cfg.tasks ensures Fate(Tick(scanAt, at, scan), k, Task.Tick(k, scanAt, at, scan).k, x) {
      TickFate(k, scanAt, at, scan, x);
    }
  }

  lemma DoFates(k: Kernel, op: Op, inInt: bool)
    requires KernelOK(k) && OpLegal(k, op, inInt)
    requires !inInt ==> (op.Finish? <==> !k.tcbs[k.run].call.NoCall?)
    ensures Defined(k) && AllFates(op, k, Do(k, op, inInt).k)
  {
    KernelDefined(k);
    hide AllFates, KernelOK, Defined, DoTask, DoSem, DoMux, DoQueue, DoEvent;
    match ServiceOf(op) {
      case OnTask => TaskFates(k, op, inInt);
      case OnSem => SemOrMuxFates(k, op, inInt);
      case OnMux => SemOrMuxFates(k, op, inInt);
      case OnQueue => QueueOrEventFates(k, op, inInt);
      case OnEvent => QueueOrEventFates(k, op, inInt);
    }
  }

  // ---- Steps ----

  /** What a whole step, with its task switch, does to a task: what its call does, and no more. */
  lemma StepFates(k: Kernel, s: Step, x: Tid)
    requires KernelOK(k) && Legal(k, s) && x < k.cfg.tasks
    ensures var k' := Next(k, s);
            && k'.cfg == k.cfg && |k'.tcbs| == |k.tcbs|
            && (s.PendSV? ==> SameCall(k.tcbs[x], k'.tcbs[x]))
            && (IsOp(s) ==> Defined(k) && var o := Do(k, OpOf(s), s.Interrupt?);
                  && |o.k.tcbs| == |k.tcbs| && Fate(OpOf(s), k, o.k, x) && SameCall(o.k.tcbs[x], k'.tcbs[x]))
  {
    match s {
      case Call(op, now) =>
        DoFates(k, op, false);
        DoOK(k, op, false);
        var o := Do(k, op, false);
        if o.sched && o.k.lock == 0 {
          SwitchOK(o.k, now);
        }
      case Interrupt(op) =>
        DoFates(k, op, true);
        DoOK(k, op, true);
      case PendSV(now) =>
        SettledSwitchable(k);
        SwitchOK(k, now);
    }
  }

  // ---- Outcomes ----

  datatype Outcome = Open | Granted | TimedOut

  function OutcomeOf(c: Tcb): Outcome {
    if c.st.pend then Open else if c.st.timeout then TimedOut else Granted
  }

  /** Task `x` is inside a blocking call and step `s` is neither its return nor its deletion. */
  ghost predicate StaysInside(k: Kernel, s: Step, x: Tid)
    requires x < |k.tcbs|
  {
    && !k.tcbs[x].call.NoCall?
    && !(s.Call? && s.op.Finish? && x == k.run)
    && !(IsOp(s) && OpOf(s).TaskDelete? && OpOf(s).t == x)
  }

  /**
   * While a task is inside a blocking call its wait is open, granted or timed out. An open wait can be closed
   * only by a matching post, write or read, or by a tick at or after its deadline; a closed one stays as it is.
   */
  lemma OutcomeStep(k: Kernel, s: Step, x: Tid)
    requires KernelOK(k) && Legal(k, s) && x < k.cfg.tasks && StaysInside(k, s, x)
    ensures var k' := Next(k, s);
            && |k'.tcbs| == |k.tcbs|
            && k'.tcbs[x].call == k.tcbs[x].call
            && (OutcomeOf(k.tcbs[x]) != Open ==> OutcomeOf(k'.tcbs[x]) == OutcomeOf(k.tcbs[x]))
            && (OutcomeOf(k.tcbs[x]) == Open && OutcomeOf(k'.tcbs[x]) == TimedOut ==>
                  IsOp(s) && OpOf(s).Tick? && Due(k, x, OpOf(s).scanAt))
            && (OutcomeOf(k.tcbs[x]) == Open && OutcomeOf(k'.tcbs[x]) == Granted ==>
                  IsOp(s) && Serves(OpOf(s), k.tcbs[k.run].call, k.tcbs[x].call))
  {
    StepFates(k, s, x);
    assert TaskOK(k, x);
  }

  /** A closed wait has no list and no deadline left by which it could be closed a second time. */
  lemma ClosedIsOff(k: Kernel, x: Tid)
    requires KernelOK(k) && x < k.cfg.tasks && !k.tcbs[x].call.NoCall?
    ensures OutcomeOf(k.tcbs[x]) != Open ==> !Timed(k, x) && forall l: ListId :: l.IsWait() ==> !On(k, l, x)
    ensures OutcomeOf(k.tcbs[x]) == Open ==> On(k, WaitListOf(k.tcbs[x].call), x)
  {
    assert TaskOK(k, x);
    if !k.tcbs[x].st.pend {
      OffWaitLists(k, x);
    }
  }

  ghost predicate InsideThroughout(k: Kernel, steps: seq<Step>, x: Tid)
    requires KernelOK(k) && LegalRun(k, steps) && x < k.cfg.tasks
    decreases |steps|
  {
    steps == [] ||
    (StaysInside(k, steps[0], x)
     && (StepFates(k, steps[0], x); InsideThroughout(Next(k, steps[0]), steps[1..], x)))
  }

  /** Over a whole run: once a wait is granted, or has timed out, that is its outcome until the call returns. */
  lemma {:induction false} OutcomeIsFinal(k: Kernel, steps: seq<Step>, x: Tid)
    requires KernelOK(k) && LegalRun(k, steps) && x < k.cfg.tasks && InsideThroughout(k, steps, x)
    requires OutcomeOf(k.tcbs[x]) != Open
    ensures var k' := Run(k, steps);
            && |k'.tcbs| == |k.tcbs| && k'.tcbs[x].call == k.tcbs[x].call
            && OutcomeOf(k'.tcbs[x]) == OutcomeOf(k.tcbs[x])
    decreases |steps|
  {
    if steps != [] {
      OutcomeStep(k, steps[0], x);
      StepFates(k, steps[0], x);
      OutcomeIsFinal(Next(k, steps[0]), steps[1..], x);
    }
  }

  predicate IsTimeoutError(r: Ret) {
    r.Fail? && (r.error.SemTimeout? || r.error.MuxTimeout? || r.error.QueueTimeout? || r.error.EventTimeout?)
  }

  /** The blocking call returns the timeout error exactly when its wait timed out. */
  lemma FinishReports(k: Kernel)
    requires KernelOK(k) && !k.tcbs[k.run].call.NoCall?
    ensures Defined(k)
    ensures IsTimeoutError(FinishCall(k).ret) <==> OutcomeOf(k.tcbs[k.run]) == TimedOut
    ensures FinishCall(k).ret.Fail? ==> IsTimeoutError(FinishCall(k).ret)
  {
    KernelDefined(k);
    assert TaskOK(k, k.run);
    hide EventFlags.Poll;
  }
}
