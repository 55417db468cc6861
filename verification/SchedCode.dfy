/** The scheduler's entry points on the kernel's globals: ready queues, waiting, waking, priorities. */
module SchedCode {
  import opened Deadlines
  import opened KernelState
  import opened Sched
  import opened StatusWord
  import opened KernelObjects
  import opened SortLink

  // ---- What the intrusive lists need of a task ----

  /** A task is on the one list its status says, or on none. */
  ghost predicate Homed(k: Kernel, t: Tid) {
    && t < |k.tcbs|
    && var c := k.tcbs[t];
       && (c.st.ready && t != k.cfg.idle ==> c.prio <= LOWEST && t in At(k.lists, ReadyList(c.prio)))
       && (c.st.pend ==> Waiting(k.lists, t))
       && (!c.st.unused && !c.st.pend && (!c.st.ready || t == k.cfg.idle) ==> Nowhere(k.lists, t))
       && (!c.st.unused ==> c.prio <= LOWEST)
       && !(c.st.ready && c.st.pend)
  }

  ghost predicate Nowhere(m: Lists, t: Tid) {
    forall l :: t !in At(m, l)
  }

  ghost predicate Waiting(m: Lists, t: Tid) {
    (exists l :: t in At(m, l)) && forall p :: t !in At(m, ReadyList(p))
  }

  lemma OffNowhere(g: Globals, t: Tid)
    ensures g.Off(t) <==> Nowhere(g.abs.lists, t)
    ensures g.Waits(t) <==> Waiting(g.abs.lists, t)
  {
  }

  lemma FlagTests(w: bv16)
    ensures var f := FlagsOf(w);
            && f.unused == Test(w, UNUSED) && f.suspend == Test(w, SUSPEND) && f.ready == Test(w, READY)
               && f.pend == Test(w, PEND)
            && f.running == Test(w, RUNNING) && f.delay == Test(w, DELAY) && f.timeout == Test(w, TIMEOUT)
            && f.pendTime == Test(w, PEND_TIME)
            && Test(w, DELAY | PEND_TIME) == (f.delay || f.pendTime)
            && Test(w, PEND | DELAY) == (f.pend || f.delay)
            && Test(w, PEND | SUSPEND | UNUSED) == (f.pend || f.suspend || f.unused)
  {
    TestTimed(w);
    TestWaiting(w);
    TestGone(w);
    hide Test;
  }

  // ---- OsSchedTaskEnQueue ----

  /** The slice check and the list; then the status word. */
  method SchedTaskEnQueue(g: Globals, t: Tid)
    requires g.Valid() && t < g.cfg.tasks
    requires !TcbAt(g.abs, t).st.ready && TcbAt(g.abs, t).prio <= LOWEST
             && (t != g.cfg.idle ==> Nowhere(g.abs.lists, t))
    modifies g.Parts()
    ensures g.Valid() && t < |old(g.abs).tcbs| && g.abs == EnQueue(old(g.abs), t)
  {
    hide *;
    ghost var k := g.abs;
    g.TaskAt(t);
    OffNowhere(g, t);
    if g.tasks[t].taskID != g.cfg.idle {
      if g.tasks[t].timeSlice > g.cfg.sliceMin {
        g.PriQueueEnHead(t, g.tasks[t].priority);
      } else {
        g.SetSlice(t, g.cfg.sliceFull);
        SliceOnly(g, k, t);
        OffNowhere(g, t);
        g.TaskAt(t);
        g.PriQueueEnTail(t, g.tasks[t].priority);
      }
    }
    g.TaskAt(t);
    ghost var w := g.tasks[t].taskStatus;
    g.SetStatus(t, Set(Clear(g.tasks[t].taskStatus, PEND | SUSPEND | DELAY | PEND_TIME), READY));
    EnQueueIs(k, t, w);
  }

  lemma SliceOnly(g: Globals, k: Kernel, t: Tid)
    requires g.abs == PutTcb(k, t, TcbAt(k, t).(slice := g.cfg.sliceFull))
    ensures g.abs.lists == k.lists && g.abs.cfg == k.cfg
    ensures TcbAt(g.abs, t).st == TcbAt(k, t).st && TcbAt(g.abs, t).prio == TcbAt(k, t).prio
  {
  }

  lemma EnQueueIs(k: Kernel, t: Tid, w: bv16)
    requires t < |k.tcbs| && FlagsOf(w) == k.tcbs[t].st
    ensures var f, c := FlagsOf(Set(Clear(w, PEND | SUSPEND | DELAY | PEND_TIME), READY)), k.tcbs[t];
            var k1 := if t == k.cfg.idle then k
                      else if c.slice > k.cfg.sliceMin then k.(lists := PushFront(k.lists, ReadyList(c.prio), t))
                      else var k2 := PutTcb(k, t, TcbAt(k, t).(slice := k.cfg.sliceFull));
                           k2.(lists := PushBack(k2.lists, ReadyList(c.prio), t));
            && PutTcb(k1, t, TcbAt(k1, t).(st := f)) == EnQueue(k, t)
  {
    ReadyWord(w);
    hide FlagsOf, Set, Clear, PushFront, PushBack;
    var c := k.tcbs[t];
    var full := c.(slice := k.cfg.sliceFull);
    assert k.tcbs[t := full][t := full.(st := EnQueue(k, t).tcbs[t].st)] ==
           k.tcbs[t := full.(st := EnQueue(k, t).tcbs[t].st)];
  }

  lemma ReadyWord(w: bv16)
    ensures FlagsOf(Set(Clear(w, PEND | SUSPEND | DELAY | PEND_TIME), READY))
         == FlagsOf(w).(pend := false, suspend := false, delay := false, pendTime := false, ready := true)
  {
    hide FlagsOf, Set, Clear;
    Masks();
    SetFlags(Clear(w, PEND | SUSPEND | DELAY | PEND_TIME), READY);
    ClearFlags(w, PEND | SUSPEND | DELAY | PEND_TIME);
  }

  // ---- OsSchedTaskDeQueue ----

  method SchedTaskDeQueue(g: Globals, t: Tid)
    requires g.Valid() && t < g.cfg.tasks
    requires TcbAt(g.abs, t).st.ready && t != g.cfg.idle ==>
               TcbAt(g.abs, t).prio <= LOWEST && t in At(g.abs.lists, ReadyList(TcbAt(g.abs, t).prio))
    modifies g.Parts()
    ensures g.Valid() && t < |old(g.abs).tcbs| && g.abs == DeQueue(old(g.abs), t)
  {
    hide *;
    ghost var k := g.abs;
    g.TaskAt(t);
    FlagTests(g.tasks[t].taskStatus);
    DeQueueIs(k, t);
    if Test(g.tasks[t].taskStatus, READY) {
      if g.tasks[t].taskID != g.cfg.idle {
        g.PriQueueDelete(t, g.tasks[t].priority);
      }
      g.TaskAt(t);
      ClearIs(g.tasks[t].taskStatus);
      g.SetStatus(t, Clear(g.tasks[t].taskStatus, READY));
    }
  }

  lemma DeQueueIs(k: Kernel, t: Tid)
    requires t < |k.tcbs|
    ensures !k.tcbs[t].st.ready ==> DeQueue(k, t) == k
    ensures k.tcbs[t].st.ready ==>
              var k1 := if t == k.cfg.idle then k else k.(lists := Unlink(k.lists, t));
              PutTcb(k1, t, TcbAt(k1, t).(st := TcbAt(k1, t).st.(ready := false))) == DeQueue(k, t)
  {
    hide Unlink;
  }

  // ---- OsSchedTaskExit ----

  method SchedTaskExit(g: Globals, t: Tid)
    requires g.Valid() && t < g.cfg.tasks && Homed(g.abs, t)
    modifies g.Parts()
    ensures g.Valid() && t < |old(g.abs).tcbs| && g.abs == Exit(old(g.abs), t)
  {
    hide *;
    ghost var k := g.abs;
    g.TaskAt(t);
    HomeFacts(g.abs, t);
    FlagTests(g.tasks[t].taskStatus);
    if Test(g.tasks[t].taskStatus, READY) {
      SchedTaskDeQueue(g, t);
    } else if Test(g.tasks[t].taskStatus, PEND) {
      Unpend(g, t);
    }
    ExitIs(k, t, g.abs);
    Untime(g, t);
  }

  method Unpend(g: Globals, t: Tid)
    requires g.Valid() && t < g.cfg.tasks && Waiting(g.abs.lists, t)
    modifies g.Parts()
    ensures g.Valid() && g.abs == Unpended(old(g.abs), t)
  {
    hide *;
    ghost var k := g.abs;
    OffNowhere(g, t);
    g.ListDelete(t);
    g.TaskAt(t);
    ClearIs(g.tasks[t].taskStatus);
    g.SetStatus(t, Clear(g.tasks[t].taskStatus, PEND));
    UnpendedIs(k, t);
  }

  ghost function Unpended(k: Kernel, t: Tid): Kernel {
    var k1 := k.(lists := Unlink(k.lists, t));
    PutTcb(k1, t, TcbAt(k1, t).(st := TcbAt(k1, t).st.(pend := false)))
  }

  lemma UnpendedIs(k: Kernel, t: Tid)
    ensures var k1 := k.(lists := Unlink(k.lists, t));
            PutTcb(k1, t, TcbAt(k1, t).(st := TcbAt(k1, t).st.(pend := false))) == Unpended(k, t)
  {
  }

  /** The end of a task's deadline, if it has one. */
  method Untime(g: Globals, t: Tid)
    requires g.Valid() && t < g.cfg.tasks
    modifies g.Parts()
    ensures g.Valid() && g.abs == Untimed(old(g.abs), t)
  {
    hide *;
    ghost var k := g.abs;
    g.TaskAt(t);
    FlagTests(g.tasks[t].taskStatus);
    UntimedIs(k, t);
    if Test(g.tasks[t].taskStatus, DELAY | PEND_TIME) {
      g.TimerDelete(t);
      g.TaskAt(t);
      ClearIs(g.tasks[t].taskStatus);
      g.SetStatus(t, Clear(g.tasks[t].taskStatus, DELAY | PEND_TIME));
    }
  }

  ghost function Untimed(k: Kernel, t: Tid): Kernel {
    var f := TcbAt(k, t).st;
    if f.delay || f.pendTime then
      PutTcb(k.(timers := Remove(k.timers, t)), t, TcbAt(k, t).(st := f.(delay := false, pendTime := false)))
    else k
  }

  lemma UntimedIs(k: Kernel, t: Tid)
    ensures var f := TcbAt(k, t).st;
            if f.delay || f.pendTime then
              var k1 := k.(timers := Remove(k.timers, t));
              PutTcb(k1, t, TcbAt(k1, t).(st := TcbAt(k1, t).st.(delay := false, pendTime := false))) == Untimed(k, t)
            else Untimed(k, t) == k
  {
  }

  lemma ExitIs(k: Kernel, t: Tid, k1: Kernel)
    requires t < |k.tcbs|
    requires k.tcbs[t].st.ready ==> k1 == DeQueue(k, t)
    requires !k.tcbs[t].st.ready && k.tcbs[t].st.pend ==> k1 == Unpended(k, t)
    requires !k.tcbs[t].st.ready && !k.tcbs[t].st.pend ==> k1 == k
    ensures Exit(k, t) == Untimed(k1, t)
  {
    hide DeQueue, Unlink, Remove;
  }

  lemma HomeFacts(k: Kernel, t: Tid)
    requires Homed(k, t)
    ensures t < |k.tcbs| && TcbAt(k, t) == k.tcbs[t]
    ensures var c := k.tcbs[t];
            && (c.st.ready && t != k.cfg.idle ==> c.prio <= LOWEST && t in At(k.lists, ReadyList(c.prio)))
            && (c.st.pend ==> Waiting(k.lists, t))
            && (!c.st.unused && !c.st.pend && (!c.st.ready || t == k.cfg.idle) ==> Nowhere(k.lists, t))
            && (!c.st.unused ==> c.prio <= LOWEST)
            && !(c.st.ready && c.st.pend)
  {
  }

  // ---- OsSchedYield, OsSchedDelay ----

  method SchedYield(g: Globals)
    requires g.Valid()
    modifies g.Parts()
    ensures g.Valid() && g.abs == PutTcb(old(g.abs), old(g.abs).run, TcbAt(old(g.abs), old(g.abs).run).(slice := 0))
  {
    hide *;
    g.RunAt();
    g.SetSlice(g.runTask.taskID, 0);
  }

  // ---- OsSchedTaskWait ----

  /** `call` is what the stack of the running task will hold; its list is the one the source passes. */
  method SchedTaskWait(g: Globals, call: Call, ticks: nat)
    requires g.Valid() && g.abs.run < g.cfg.tasks && Nowhere(g.abs.lists, g.abs.run)
    requires g.HasList(WaitListOf(call)) && !WaitListOf(call).ReadyList?
    modifies g.Parts()
    ensures g.Valid() && old(g.abs).run < |old(g.abs).tcbs| && g.abs == Wait(old(g.abs), call, ticks)
  {
    hide *;
    ghost var k := g.abs;
    g.RunAt();
    var t := g.runTask.taskID;
    g.TaskAt(t);
    OffNowhere(g, t);
    SetIs(g.tasks[t].taskStatus);
    ghost var w := g.tasks[t].taskStatus;
    g.SetStatus(t, Set(g.tasks[t].taskStatus, PEND));
    SameLists(k, g.abs, t, TcbAt(k, t).(st := FlagsOf(Set(w, PEND))));
    OffNowhere(g, t);
    g.ListTailInsert(WaitListOf(call), t);
    g.TaskAt(t);
    SetIs(g.tasks[t].taskStatus);
    if ticks != WAIT_FOREVER {
      g.SetStatus(t, Set(g.tasks[t].taskStatus, PEND_TIME));
      g.SetWaitTimes(t, ticks);
    }
    g.SetCall(t, call);
    WaitIs(k, call, ticks);
  }

  lemma SameLists(k: Kernel, k': Kernel, t: Tid, c: Tcb)
    requires k' == PutTcb(k, t, c)
    ensures k'.lists == k.lists && k'.cfg == k.cfg && k'.run == k.run && k'.timers == k.timers
  {
  }

  lemma WaitIs(k: Kernel, call: Call, ticks: nat)
    requires k.run < |k.tcbs|
    ensures var t := k.run;
            var k1 := PutTcb(k, t, TcbAt(k, t).(st := TcbAt(k, t).st.(pend := true)));
            var k2 := k1.(lists := PushBack(k1.lists, WaitListOf(call), t));
            var k3 := if ticks == WAIT_FOREVER then k2
                      else
                        var k4 := PutTcb(k2, t, TcbAt(k2, t).(st := TcbAt(k2, t).st.(pendTime := true)));
                        PutTcb(k4, t, TcbAt(k4, t).(waitTicks := ticks));
            PutTcb(k3, t, TcbAt(k3, t).(call := call)) == Wait(k, call, ticks)
  {
    hide PushBack, WaitListOf;
  }

  // ---- OsSchedTaskWake ----

  method SchedTaskWake(g: Globals, t: Tid)
    requires g.Valid() && t < g.cfg.tasks && t != g.cfg.idle && Homed(g.abs, t) && TcbAt(g.abs, t).st.pend
             && !TcbAt(g.abs, t).st.unused
    modifies g.Parts()
    ensures g.Valid() && t < |old(g.abs).tcbs| && g.abs == Wake(old(g.abs), t)
  {
    hide *;
    ghost var k := g.abs;
    g.TaskAt(t);
    HomeFacts(k, t);
    OffNowhere(g, t);
    g.ListDelete(t);
    ghost var k1 := g.abs;
    g.TaskAt(t);
    ClearIs(g.tasks[t].taskStatus);
    g.SetStatus(t, Clear(g.tasks[t].taskStatus, PEND));
    ghost var k2 := g.abs;
    g.TaskAt(t);
    FlagTests(g.tasks[t].taskStatus);
    if Test(g.tasks[t].taskStatus, PEND_TIME) {
      g.TimerDelete(t);
      g.TaskAt(t);
      ClearIs(g.tasks[t].taskStatus);
      g.SetStatus(t, Clear(g.tasks[t].taskStatus, PEND_TIME));
    }
    WakeIs(k, t, k1, k2, g.abs);
    g.TaskAt(t);
    FlagTests(g.tasks[t].taskStatus);
    if !Test(g.tasks[t].taskStatus, SUSPEND) {
      SchedTaskEnQueue(g, t);
    }
  }

  lemma UnlinkedNowhere(m: Lists, t: Tid)
    ensures Nowhere(Unlink(m, t), t)
  {
  }

  lemma WakeIs(k: Kernel, t: Tid, k1: Kernel, k2: Kernel, k3: Kernel)
    requires t < |k.tcbs| && !k.tcbs[t].st.ready
    requires k1 == k.(lists := Unlink(k.lists, t))
    requires k2 == PutTcb(k1, t, TcbAt(k1, t).(st := TcbAt(k1, t).st.(pend := false)))
    requires !TcbAt(k2, t).st.pendTime ==> k3 == k2
    requires TcbAt(k2, t).st.pendTime ==>
               var k4 := k2.(timers := Remove(k2.timers, t));
               k3 == PutTcb(k4, t, TcbAt(k4, t).(st := TcbAt(k4, t).st.(pendTime := false)))
    ensures |k3.tcbs| == |k.tcbs| && k3.cfg == k.cfg && Nowhere(k3.lists, t)
    ensures !TcbAt(k3, t).st.ready && TcbAt(k3, t).prio == k.tcbs[t].prio
            && TcbAt(k3, t).st.suspend == k.tcbs[t].st.suspend
    ensures Wake(k, t) == if k.tcbs[t].st.suspend then k3 else EnQueue(k3, t)
  {
    UnlinkedNowhere(k.lists, t);
    hide EnQueue, Unlink, Remove;
    var c := k.tcbs[t];
    var a, b := c.(st := c.st.(pend := false)), c.(st := c.st.(pend := false, pendTime := false));
    assert k.tcbs[t := a][t := b] == k.tcbs[t := b];
    assert k3 == PutTcb(k.(lists := Unlink(k.lists, t),
                           timers := if c.st.pendTime then Remove(k.timers, t) else k.timers), t, b);
  }

  // ---- OsSchedModifyTaskSchedParam ----

  method SchedModifyTaskSchedParam(g: Globals, t: Tid, priority: nat) returns (need: bool)
    requires g.Valid() && t < g.cfg.tasks && Homed(g.abs, t) && priority <= LOWEST
    modifies g.Parts()
    ensures g.Valid() && t < |old(g.abs).tcbs| && g.abs == ModifyPrio(old(g.abs), t, priority)
    ensures need == (old(g.abs).tcbs[t].st.ready || old(g.abs).tcbs[t].st.running)
  {
    hide *;
    ghost var k := g.abs;
    g.TaskAt(t);
    HomeFacts(k, t);
    FlagTests(g.tasks[t].taskStatus);
    ModifyIs(k, t, priority);
    if Test(g.tasks[t].taskStatus, READY) {
      SchedTaskDeQueue(g, t);
      g.SetPriority(t, priority);
      SchedTaskEnQueue(g, t);
      return true;
    }
    g.SetPriority(t, priority);
    g.TaskAt(t);
    FlagTests(g.tasks[t].taskStatus);
    return Test(g.tasks[t].taskStatus, RUNNING);
  }

  lemma ModifyIs(k: Kernel, t: Tid, priority: nat)
    requires t < |k.tcbs|
    ensures k.tcbs[t].st.ready ==>
              var k1 := DeQueue(k, t);
              var k2 := PutTcb(k1, t, TcbAt(k1, t).(prio := priority));
              && |k2.tcbs| == |k.tcbs| && !TcbAt(k2, t).st.ready && TcbAt(k2, t).prio == priority && k2.cfg == k.cfg
              && (t != k.cfg.idle ==> Nowhere(k2.lists, t))
              && ModifyPrio(k, t, priority) == EnQueue(k2, t)
    ensures !k.tcbs[t].st.ready ==> ModifyPrio(k, t, priority) == PutTcb(k, t, TcbAt(k, t).(prio := priority))
    ensures TcbAt(PutTcb(k, t, TcbAt(k, t).(prio := priority)), t).st == k.tcbs[t].st
  {
    UnlinkedNowhere(k.lists, t);
    hide EnQueue, Unlink;
  }
}
