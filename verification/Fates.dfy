/** What one kernel call can do to a task that is inside a blocking call. */
module Fates {
  import opened Sequences
  import opened Deadlines
  import opened KernelState
  import opened Sched
  import opened SchedProofs
  import opened Invariants
  import opened TaskProofs
  import opened ObjectProofs
  import opened Machine
  import opened MachineProofs
  import QueueProofs
  import EventProofs
  import Task
  import Semaphore
  import Mutex
  import MessageQueue
  import EventFlags

  /** The calls that `op` can grant: a post serves a pend, a read a blocked write, a write a blocked read. */
  predicate Serves(op: Op, current: Call, c: Call) {
    match op
    case SemPost(s) => c == SemCall(s)
    case MuxPost(m) => c == MuxCall(m)
    case EventWrite(e, _) => c.EventCall? && c.event == e
    case QueueRead(q, _, _) => c.WriteCall? && c.queue == q
    case QueueWrite(q, _, _, _) => c.ReadCall? && c.queue == q
    case Finish => if current.ReadCall? then c.WriteCall? && c.queue == current.queue
                   else current.WriteCall? && c.ReadCall? && c.queue == current.queue
    case _ => false
  }

  ghost predicate GrantedNow(k: Kernel, k': Kernel, x: Tid)
    requires x < |k.tcbs| && x < |k'.tcbs|
  {
    var c, c' := k.tcbs[x], k'.tcbs[x];
    c.st.pend && !c'.st.pend && !c'.st.timeout && !c'.st.unused && c'.call == c.call && !Timed(k', x)
  }

  ghost predicate TimedOutNow(k: Kernel, k': Kernel, x: Tid)
    requires x < |k.tcbs| && x < |k'.tcbs|
  {
    var c, c' := k.tcbs[x], k'.tcbs[x];
    c.st.pend && !c'.st.pend && c'.st.timeout && !c'.st.unused && c'.call == c.call && !Timed(k', x)
  }

  ghost predicate Fate(op: Op, k: Kernel, k': Kernel, x: Tid)
    requires k.run < |k.tcbs| && x < |k.tcbs| && |k'.tcbs| == |k.tcbs|
  {
    var c, c' := k.tcbs[x], k'.tcbs[x];
    || SameCall(c, c')
    || (GrantedNow(k, k', x) && Serves(op, k.tcbs[k.run].call, c.call))
    || (TimedOutNow(k, k', x) && op.Tick? && op.scan && Due(k, x, op.scanAt))
    || (op.TaskDelete? && op.t == x && c'.st.unused && c'.call.NoCall? && !c'.st.pend && !c'.st.timeout)
    || ((op.TaskCreate? || op.TaskCreateOnly?) && c.st.unused && !c'.st.unused && c'.call.NoCall? && !c'.st.pend
        && !c'.st.timeout)
    || (x == k.run && op.Finish? && c'.call.NoCall? && !c'.st.pend && !c'.st.timeout && !c'.st.unused)
    || (x == k.run && c.call.NoCall? && Patience(op) > 0 && c'.st.pend && !c'.st.timeout && !c'.st.unused)
  }

  ghost predicate AllFates(op: Op, k: Kernel, k': Kernel)
    requires Shape(k)
  {
    |k'.tcbs| == |k.tcbs| && forall x :: 0 <= x < k.cfg.tasks ==> Fate(op, k, k', x)
  }

  ghost predicate Still(k: Kernel, k': Kernel)
    requires Shape(k)
  {
    |k'.tcbs| == |k.tcbs| && forall x :: 0 <= x < k.cfg.tasks ==> SameCall(k.tcbs[x], k'.tcbs[x])
  }

  lemma QuietFates(op: Op, k: Kernel, k': Kernel)
    requires KernelOK(k) && k'.tcbs == k.tcbs
    ensures AllFates(op, k, k')
  {
  }

  lemma StillFates(op: Op, k: Kernel, k': Kernel)
    requires KernelOK(k) && Still(k, k')
    ensures AllFates(op, k, k')
  {
  }

  // ---- Task calls ----

  lemma ResumeStill(k: Kernel, t: nat)
    requires Shape(k)
    ensures Still(k, Task.Resume(k, t).k)
  {
    if t < k.cfg.tasks {
      var k1 := SetTcb(k, t, k.tcbs[t].(st := k.tcbs[t].st.(suspend := false)));
      if !k.tcbs[t].st.pend {
        EnQueueQuiet(k1, t);
      }
      hide EnQueue;
    }
  }

  lemma SuspendStill(k: Kernel, t: nat)
    requires Shape(k)
    ensures Still(k, Task.Suspend(k, t).k)
  {
    if t < k.cfg.tasks {
      DeQueueStill(k, t);
      hide DeQueue;
    }
  }

  lemma DeQueueStill(k: Kernel, t: Tid)
    requires t < |k.tcbs|
    ensures forall x :: 0 <= x < |k.tcbs| ==> SameCall(k.tcbs[x], DeQueue(k, t).tcbs[x])
  {
    hide Unlink;
  }

  lemma SimpleStill(k: Kernel, ticks: nat, inInt: bool)
    requires Shape(k)
    ensures Still(k, Task.Yield(k).k) && Still(k, Task.Delay(k, ticks, inInt).k)
    ensures Still(k, Task.Lock(k).k) && Still(k, Task.Unlock(k).k)
  {
  }

  lemma RecycleStill(k: Kernel)
    requires Shape(k)
    ensures Still(k, Task.Recycle(k))
  {
  }

  lemma PriSetStill(k: Kernel, t: nat, prio: nat)
    requires KernelOK(k)
    ensures Still(k, Task.PriSet(k, t, prio).k)
  {
    assert Shape(k);
    hide SchedOK, ObjectsOK, ModifyPrio;
    if t < k.cfg.tasks {
      ModifyPrioFrame(k, t, prio);
    }
  }

  lemma CreateFates(k: Kernel, op: Op, prio: nat, memory: bool)
    requires KernelOK(k) && (op == TaskCreate(prio, memory) || op == TaskCreateOnly(prio, memory))
    ensures Defined(k) && AllFates(op, k, DoTask(k, op, false).k) && DoTask(k, op, true) == DoTask(k, op, false)
  {
    hide *;
    KernelDefined(k);
    OnTaskOps(op);
    DoTaskIs(k, op, false);
    DoTaskIs(k, op, true);
    CreateOnlyOK(k, prio, memory);
    RunInRange(k);
    OneNewBlock(k, prio, memory);
    if DoTask(k, op, false).ret.Id? {
      NewbornUnused(k, Task.CreateOnly(k, prio, memory), prio);
    }
    NewTaskFates(k, op, DoTask(k, op, false));
  }

  lemma NewTaskFates(k: Kernel, op: Op, o: Out)
    requires KernelOK(k) && (op.TaskCreate? || op.TaskCreateOnly?) && OneBlock(k, o, op.prio)
    requires o.ret.Id? ==> k.tcbs[o.ret.id].st.unused
    ensures AllFates(op, k, o.k)
  {
    forall x | 0 <= x < k.cfg.tasks ensures Fate(op, k, o.k, x) {
      if o.ret.Id? && o.ret.id == x {
        assert o.k.tcbs[x] == o.k.tcbs[o.ret.id];
      }
    }
  }

  lemma DeleteFates(k: Kernel, t: nat)
    requires KernelOK(k)
    ensures AllFates(TaskDelete(t), k, Task.Delete(k, t).k)
  {
    hide KernelOK;
    InRangeAll(k);
    DeleteTcbs(k, t);
    hide Task.Delete;
    var k' := Task.Delete(k, t).k;
    forall x | 0 <= x < k.cfg.tasks ensures Fate(TaskDelete(t), k, k', x) {
      if x != t {
        UntouchedFate(TaskDelete(t), k, k', x);
      }
    }
  }

  lemma InRangeAll(k: Kernel)
    requires KernelOK(k)
    ensures Shape(k) && SchedOK(k) && Settled(k)
  {
  }

  lemma DeleteTcbs(k: Kernel, t: nat)
    requires Shape(k)
    ensures var k' := Task.Delete(k, t).k;
            && |k'.tcbs| == |k.tcbs|
            && (forall x :: 0 <= x < k.cfg.tasks && x != t ==> SameCall(k.tcbs[x], k'.tcbs[x]))
            && (t < k.cfg.tasks && k'.tcbs[t] != k.tcbs[t] ==>
                  k'.tcbs[t].st.unused && k'.tcbs[t].call.NoCall? && !k'.tcbs[t].st.pend && !k'.tcbs[t].st.timeout)
  {
    if t < k.cfg.tasks {
      ExitOthers(k.(lock := if k.tcbs[t].st.running then 0 else k.lock), t);
    }
    hide Exit, PushBack, PushFront;
  }

  lemma ExitOthers(k: Kernel, t: Tid)
    requires t < |k.tcbs|
    ensures forall x :: 0 <= x < |k.tcbs| && x != t ==> Exit(k, t).tcbs[x] == k.tcbs[x]
  {
    hide Unlink, Remove;
  }

  lemma TickFate(k: Kernel, scanAt: nat, at: nat, scan: bool, x: Tid)
    requires KernelOK(k) && k.now <= scanAt <= at && x < k.cfg.tasks
    ensures Scannable(k)
    ensures Fate(Tick(scanAt, at, scan), k, Task.Tick(k, scanAt, at, scan).k, x)
  {
    hide *;
    InRange(k, x);
    RunInRange(k);
    SchedScannable(k);
    TickTcbs(k, scanAt, at, scan);
    var k' := Task.Tick(k, scanAt, at, scan).k;
    if scan {
      ScannedFate(k, Tick(scanAt, at, scan), k', x);
    } else {
      UntouchedFate(Tick(scanAt, at, scan), k, k', x);
    }
  }

  lemma InRange(k: Kernel, x: Tid)
    requires KernelOK(k) && x < k.cfg.tasks
    ensures x < |k.tcbs| && Shape(k) && SchedOK(k)
  {
  }

  /** Beyond the scan, a tick changes slices and start times only. */
  lemma TickTcbs(k: Kernel, scanAt: nat, at: nat, scan: bool)
    requires Scannable(k) && k.run < |k.tcbs|
    ensures forall e :: e in k.timers ==> e.id < |k.tcbs|
    ensures var k' := Task.Tick(k, scanAt, at, scan).k;
            var k1 := if scan then ScanTimers(k, scanAt).0 else k;
            && |k'.tcbs| == |k.tcbs| && k'.timers == k1.timers
            && forall x :: 0 <= x < |k.tcbs| ==> SameCall(k1.tcbs[x], k'.tcbs[x])
  {
    hide ScanTimers;
  }

  lemma ScannedFate(k: Kernel, op: Op, k': Kernel, x: Tid)
    requires KernelOK(k) && op.Tick? && op.scan && k.now <= op.scanAt && x < k.cfg.tasks && Scannable(k)
    requires |k'.tcbs| == |k.tcbs| && k'.timers == ScanTimers(k, op.scanAt).0.timers
    requires forall t :: 0 <= t < |k.tcbs| ==> SameCall(ScanTimers(k, op.scanAt).0.tcbs[t], k'.tcbs[t])
    ensures k.run < |k.tcbs| && x < |k.tcbs| && Fate(op, k, k', x)
  {
    hide ScanTimers, KernelOK, SchedOK;
    var k1 := ScanTimers(k, op.scanAt).0;
    RunInRange(k);
    TasksScanned(k, op.scanAt, x);
    ScanExact(k, op.scanAt, x);
    TimersUnmoved(k1, k');
    assert SameCall(k1.tcbs[x], k'.tcbs[x]);
    if Due(k, x, op.scanAt) {
      DueTimed(k, x, op.scanAt);
      assert !k1.tcbs[x].st.pend && !k1.tcbs[x].st.delay && !k1.tcbs[x].st.pendTime;
    }
  }

  lemma TasksScanned(k: Kernel, now: nat, x: Tid)
    requires KernelOK(k) && k.now <= now && x < k.cfg.tasks
    ensures Scannable(k) && SchedOK(k)
    ensures var k1 := ScanTimers(k, now).0;
            && SchedOK(k1) && Shape(k) && Shape(k1) && k1.cfg == k.cfg && |k1.tcbs| == |k.tcbs|
            && TaskOK(k, x) && TaskOK(k1, x)
  {
    SchedScannable(k);
    ScanOK(k, now);
    hide ScanTimers;
  }

  lemma DueTimed(k: Kernel, x: Tid, now: nat)
    requires Due(k, x, now)
    ensures Timed(k, x)
  {
  }

  // ---- Waiting and waking ----

  lemma WaitFate(op: Op, k0: Kernel, k: Kernel, call: Call, ticks: nat, x: Tid)
    requires Shape(k0) && |k0.tcbs| == |k.tcbs| && Shape(k) && k.cfg == k0.cfg && k.run == k0.run && x < k.cfg.tasks
    requires k0.tcbs[k.run].call.NoCall? && Patience(op) > 0 && !k.tcbs[k.run].st.timeout && !k.tcbs[k.run].st.unused
    requires x != k.run ==> SameCall(k0.tcbs[x], k.tcbs[x])
    ensures Fate(op, k0, Wait(k, call, ticks), x)
  {
    var k' := Wait(k, call, ticks);
    hide PushBack, WaitListOf, GrantedNow, TimedOutNow, Serves, Due;
    if x != k.run {
      assert k'.tcbs[x] == k.tcbs[x];
    } else {
      assert k'.tcbs[x].st.pend && !k'.tcbs[x].st.timeout && !k'.tcbs[x].st.unused;
    }
    hide Wait;
  }

  /** `t` is granted and nobody else is touched. */
  ghost predicate OnlyGrants(k: Kernel, k': Kernel, t: Tid)
    requires Shape(k) && t < |k.tcbs|
  {
    && |k'.tcbs| == |k.tcbs| && GrantedNow(k, k', t)
    && forall x :: 0 <= x < k.cfg.tasks && x != t ==> SameCall(k.tcbs[x], k'.tcbs[x])
  }

  lemma WakeOnlyGrants(k: Kernel, l: ListId)
    requires Settled(k) && l.IsWait() && At(k.lists, l) != []
    ensures var t := At(k.lists, l)[0];
            t < k.cfg.tasks && WaitListOf(k.tcbs[t].call) == l && OnlyGrants(k, Wake(k, t), t)
  {
    WaitHead(k, l);
    var t := At(k.lists, l)[0];
    WakeGrants(k, t);
    WakeOK(k, t);
    assert TaskOK(k, t) && TaskOK(Wake(k, t), t);
  }

  lemma SemPostFates(k: Kernel, s: nat)
    requires KernelOK(k)
    ensures Members(k, SemList(s)) && AllFates(SemPost(s), k, Semaphore.Post(k, s).k)
  {
    hide *;
    InRangeAll(k);
    RunInRange(k);
    SemPostCases(k, s);
    var o := Semaphore.Post(k, s);
    if o.k.tcbs == k.tcbs {
      QuietFates(SemPost(s), k, o.k);
    } else {
      WakeOnlyGrants(k, SemList(s));
      GrantFates(SemPost(s), k, o.k, At(k.lists, SemList(s))[0]);
    }
  }

  lemma SemPostCases(k: Kernel, s: nat)
    requires KernelOK(k)
    ensures Members(k, SemList(s)) && SemList(s).IsWait()
    ensures var o, l := Semaphore.Post(k, s), At(k.lists, SemList(s));
            || o.k.tcbs == k.tcbs
            || (l != [] && l[0] < |k.tcbs| && o.k == Wake(k, l[0]))
    ensures forall c, now: Call :: WaitListOf(c) == SemList(s) ==> Serves(SemPost(s), now, c)
  {
    QueueProofs.MembersOK(k);
    var l := At(k.lists, SemList(s));
    if l != [] {
      assert l[0] in l;
    }
    hide Wake;
  }

  lemma GrantFates(op: Op, k: Kernel, k': Kernel, t: Tid)
    requires KernelOK(k) && t < k.cfg.tasks && t < |k.tcbs| && OnlyGrants(k, k', t)
    requires k.run < |k.tcbs| && Serves(op, k.tcbs[k.run].call, k.tcbs[t].call)
    ensures AllFates(op, k, k')
  {
    hide GrantedNow, Serves;
    forall x | 0 <= x < k.cfg.tasks ensures Fate(op, k, k', x) {
      if x != t {
        UntouchedFate(op, k, k', x);
      }
    }
  }

  lemma WaitFates(op: Op, k0: Kernel, k: Kernel, call: Call, ticks: nat)
    requires KernelOK(k0) && Shape(k) && k.cfg == k0.cfg && k.run == k0.run
    requires forall x :: 0 <= x < k.cfg.tasks && x != k.run ==> SameCall(k0.tcbs[x], k.tcbs[x])
    requires k.tcbs[k.run].st == k0.tcbs[k.run].st
    requires k0.tcbs[k.run].call.NoCall? && Patience(op) > 0
    ensures AllFates(op, k0, Wait(k, call, ticks))
  {
    assert TaskOK(k0, k.run);
    forall x | 0 <= x < k0.cfg.tasks ensures Fate(op, k0, Wait(k, call, ticks), x) {
      WaitFate(op, k0, k, call, ticks, x);
    }
  }

  lemma MuxPendStill(k: Kernel, m: nat, timeout: nat, inInt: bool)
    requires KernelOK(k) && Defined(k) && Mutex.Pend(k, m, timeout, inInt).ret != Waiting
    ensures Mutex.Pend(k, m, timeout, inInt).k.tcbs == k.tcbs
  {
  }

  lemma MuxPendFates(k: Kernel, m: nat, timeout: nat, inInt: bool)
    requires KernelOK(k) && (timeout > 0 && !inInt ==> k.run != k.cfg.idle && k.tcbs[k.run].call.NoCall?)
    ensures Defined(k) && AllFates(MuxPend(m, timeout), k, Mutex.Pend(k, m, timeout, inInt).k)
  {
    hide *;
    KernelDefined(k);
    RunInRange(k);
    InRangeAll(k);
    OwnersInRange(k);
    var o := Mutex.Pend(k, m, timeout, inInt);
    if o.ret == Waiting {
      PendWaits(k, m, timeout, inInt);
      WaitFates(MuxPend(m, timeout), k, Mutex.Boost(k, k.obj.muxes[m].owner.value), MuxCall(m), timeout);
    } else {
      MuxPendStill(k, m, timeout, inInt);
      QuietFates(MuxPend(m, timeout), k, o.k);
    }
  }

  lemma OwnersInRange(k: Kernel)
    requires Defined(k)
    ensures forall i :: 0 <= i < |k.obj.muxes| && k.obj.muxes[i].count > 0 ==>
              k.obj.muxes[i].owner.Some? && k.obj.muxes[i].owner.value < |k.tcbs|
  {
  }

  lemma PendWaits(k: Kernel, m: nat, timeout: nat, inInt: bool)
    requires KernelOK(k) && Defined(k) && Mutex.Pend(k, m, timeout, inInt).ret == Waiting
    ensures m < |k.obj.muxes| && k.obj.muxes[m].owner.Some? && k.obj.muxes[m].owner.value < |k.tcbs| && k.run < |k.tcbs|
    ensures timeout > 0 && !inInt && Patience(MuxPend(m, timeout)) > 0
    ensures var k1 := Mutex.Boost(k, k.obj.muxes[m].owner.value);
            && Shape(k1) && k1.cfg == k.cfg && k1.run == k.run && |k1.tcbs| == |k.tcbs|
            && (forall x :: 0 <= x < k.cfg.tasks && x != k.run ==> SameCall(k.tcbs[x], k1.tcbs[x]))
            && k1.tcbs[k.run].st == k.tcbs[k.run].st
            && Mutex.Pend(k, m, timeout, inInt).k == Wait(k1, MuxCall(m), timeout)
  {
    RunInRange(k);
    OwnerInRange(k, m);
    hide KernelOK, Defined, Mutex.Boost, Mutex.Pend, Wait;
    WaitsAs(k, m, timeout, inInt);
    BoostOK(k, k.obj.muxes[m].owner.value);
    KernelShape(Mutex.Boost(k, k.obj.muxes[m].owner.value));
  }

  lemma OwnerInRange(k: Kernel, m: nat)
    requires KernelOK(k)
    ensures Shape(k)
    ensures m < |k.obj.muxes| && k.obj.muxes[m].used && k.obj.muxes[m].count > 0 ==>
              k.obj.muxes[m].owner.Some? && k.obj.muxes[m].owner.value < k.cfg.tasks
  {
    assert m < |k.obj.muxes| ==> MuxOK(k, k.obj.muxes[m], At(k.lists, MuxList(m)));
  }

  lemma WaitsAs(k: Kernel, m: nat, timeout: nat, inInt: bool)
    requires Defined(k) && k.run < |k.tcbs| && Mutex.Pend(k, m, timeout, inInt).ret == Waiting
    ensures m < |k.obj.muxes| && k.obj.muxes[m].owner.Some? && k.obj.muxes[m].owner.value < |k.tcbs|
    ensures timeout > 0 && !inInt && k.obj.muxes[m].used && k.obj.muxes[m].count > 0
    ensures Mutex.Pend(k, m, timeout, inInt).k
            == Wait(Mutex.Boost(k, k.obj.muxes[m].owner.value), MuxCall(m), timeout)
  {
    hide Mutex.Boost, Wait;
  }

  lemma MuxReleaseFates(k: Kernel, m: nat)
    requires KernelOK(k) && m < |k.obj.muxes| && k.obj.muxes[m].count == 1 && k.obj.muxes[m].owner == Some(k.run)
    requires At(k.lists, MuxList(m)) != []
    ensures var k1 := Mutex.Restore(Mutex.SetMux(k, m, k.obj.muxes[m].(count := 0)), k.obj.muxes[m]);
            var t := At(k.lists, MuxList(m))[0];
            t < k.cfg.tasks && WaitListOf(k.tcbs[t].call) == MuxList(m) && OnlyGrants(k, Mutex.HandOff(k1, m, t), t)
  {
    var x := k.obj.muxes[m];
    RestoreOK(k, m);
    var k1 := Mutex.Restore(Mutex.SetMux(k, m, x.(count := 0)), x);
    WaitHead(k1, MuxList(m));
    var t := At(k.lists, MuxList(m))[0];
    var k2 := Mutex.SetMux(k1, m, k1.obj.muxes[m].(count := 1, owner := Some(t), prio := k1.tcbs[t].prio));
    SameTasksOK(k1, k2);
    WakeOnlyGrants(k2, MuxList(m));
  }

  lemma MuxPostFates(k: Kernel, m: nat)
    requires KernelOK(k)
    ensures Members(k, MuxList(m)) && AllFates(MuxPost(m), k, Mutex.Post(k, m).k)
  {
    hide *;
    InRangeAll(k);
    RunInRange(k);
    PostCases(k, m);
    var o := Mutex.Post(k, m);
    if o.k.tcbs == k.tcbs {
      QuietFates(MuxPost(m), k, o.k);
    } else if At(k.lists, MuxList(m)) == [] {
      RestoreOK(k, m);
      RestoreStill(k, m, o.k);
      StillFates(MuxPost(m), k, o.k);
    } else {
      MuxReleaseFates(k, m);
      GrantFates(MuxPost(m), k, o.k, At(k.lists, MuxList(m))[0]);
    }
  }

  lemma PostCases(k: Kernel, m: nat)
    requires KernelOK(k) && k.run < |k.tcbs|
    ensures Members(k, MuxList(m))
    ensures forall c, now: Call :: WaitListOf(c) == MuxList(m) ==> Serves(MuxPost(m), now, c)
    ensures var o := Mutex.Post(k, m);
            || o.k.tcbs == k.tcbs
            || (&& m < |k.obj.muxes| && k.obj.muxes[m].count == 1 && k.obj.muxes[m].owner == Some(k.run)
                && var k1 := Mutex.Restore(Mutex.SetMux(k, m, k.obj.muxes[m].(count := 0)), k.obj.muxes[m]);
                   var l := At(k.lists, MuxList(m));
                   if l == [] then o.k == k1
                   else l[0] < |k1.tcbs| && m < |k1.obj.muxes| && o.k == Mutex.HandOff(k1, m, l[0]))
  {
    QueueProofs.MembersOK(k);
    hide Mutex.HandOff, ModifyPrio;
    var l := At(k.lists, MuxList(m));
    if l != [] {
      assert l[0] in l;
    }
  }

  lemma RestoreStill(k: Kernel, m: nat, k': Kernel)
    requires Shape(k) && m < |k.obj.muxes| && k'.tcbs == k.tcbs[k.run := k.tcbs[k.run].(prio := k.obj.muxes[m].prio)]
    ensures Still(k, k')
  {
  }

  lemma SlotFates(k: Kernel, q: nat, reader: bool)
    requires Settled(k) && QueueProofs.OthersOK(k)
    requires QueueProofs.QueuesBut(k, q, if reader then 1 else 0, if reader then 0 else 1)
    ensures Members(k, ReadList(q)) && Members(k, WriteList(q))
    ensures var k' := if reader then MessageQueue.FillSlot(k, q).0 else MessageQueue.FreeSlot(k, q).0;
            && |k'.tcbs| == |k.tcbs|
            && forall x :: 0 <= x < k.cfg.tasks ==>
                 || SameCall(k.tcbs[x], k'.tcbs[x])
                 || (GrantedNow(k, k', x) && WaitListOf(k.tcbs[x].call) == if reader then ReadList(q) else WriteList(q))
  {
    QueueProofs.MembersOK(k);
    var l := if reader then ReadList(q) else WriteList(q);
    if At(k.lists, l) != [] {
      WakeOnlyGrants(k, l);
    }
  }

  lemma SemPendFates(k: Kernel, s: nat, timeout: nat, inInt: bool)
    requires KernelOK(k) && (timeout > 0 && !inInt ==> k.run != k.cfg.idle && k.tcbs[k.run].call.NoCall?)
    ensures AllFates(SemPend(s, timeout), k, Semaphore.Pend(k, s, timeout, inInt).k)
  {
    var o := Semaphore.Pend(k, s, timeout, inInt);
    if o.ret == Waiting {
      WaitFates(SemPend(s, timeout), k, k, SemCall(s), timeout);
    } else {
      assert Still(k, o.k);
    }
  }

  // ---- Queue calls ----

  lemma ReadNowFates(k: Kernel, q: nat, room: nat)
    requires Settled(k) && QueueProofs.OthersOK(k) && QueueProofs.QueuesBut(k, q, 1, 0)
    ensures Members(k, WriteList(q))
    ensures var k' := MessageQueue.ReadNow(k, q, room).k;
            && |k'.tcbs| == |k.tcbs|
            && forall x :: 0 <= x < k.cfg.tasks ==>
                 SameCall(k.tcbs[x], k'.tcbs[x]) || (GrantedNow(k, k', x) && WaitListOf(k.tcbs[x].call) == WriteList(q))
  {
    QueueProofs.MembersOK(k);
    var x := k.obj.queues[q];
    QueueProofs.ReadTakesOldest(x, x.readable + |Flight(k, q, true)| + 1);
    var y := MessageQueue.RingRead(x).0;
    QueueProofs.QueueSet(k, q, y, 1, 0, 0, 1);
    SlotFates(MessageQueue.SetQueue(k, q, y), q, false);
  }

  lemma WriteNowFates(k: Kernel, q: nat, front: bool, msg: seq<Byte>)
    requires Settled(k) && QueueProofs.OthersOK(k) && QueueProofs.QueuesBut(k, q, 0, 1)
    requires |msg| + MessageQueue.WORD <= k.obj.queues[q].size
    ensures Members(k, ReadList(q))
    ensures var k' := MessageQueue.WriteNow(k, q, front, msg).k;
            && |k'.tcbs| == |k.tcbs|
            && forall x :: 0 <= x < k.cfg.tasks ==>
                 SameCall(k.tcbs[x], k'.tcbs[x]) || (GrantedNow(k, k', x) && WaitListOf(k.tcbs[x].call) == ReadList(q))
  {
    QueueProofs.MembersOK(k);
    var x := k.obj.queues[q];
    QueueProofs.WriteAdds(x, x.readable + |Flight(k, q, true)|, front, msg);
    var y := MessageQueue.RingWrite(x, front, msg);
    QueueProofs.QueueSet(k, q, y, 0, 1, 1, 0);
    SlotFates(MessageQueue.SetQueue(k, q, y), q, true);
  }

  lemma TakeReadableFates(op: Op, k: Kernel, q: nat, room: nat)
    requires KernelOK(k) && q < |k.obj.queues| && k.obj.queues[q].used && k.obj.queues[q].readable > 0 && op.QueueRead?
             && op.queue == q
    ensures var k1 := MessageQueue.SetQueue(k, q, k.obj.queues[q].(readable := k.obj.queues[q].readable - 1));
            && MessageQueue.RingShape(k1.obj.queues[q]) && Members(k1, WriteList(q))
            && AllFates(op, k, MessageQueue.ReadNow(k1, q, room).k)
  {
    QueueProofs.QueueBut(k, q);
    var x := k.obj.queues[q];
    var k1 := MessageQueue.SetQueue(k, q, x.(readable := x.readable - 1));
    QueueProofs.QueueSet(k, q, x.(readable := x.readable - 1), 0, 0, 1, 0);
    ReadNowFates(k1, q, room);
    QueueFates(op, k, k1, MessageQueue.ReadNow(k1, q, room).k, WriteList(q));
  }

  lemma TakeWritableFates(op: Op, k: Kernel, q: nat, front: bool, msg: seq<Byte>)
    requires KernelOK(k) && q < |k.obj.queues| && k.obj.queues[q].used && k.obj.queues[q].writable > 0
             && op.QueueWrite? && op.queue == q
    requires |msg| + MessageQueue.WORD <= k.obj.queues[q].size
    ensures var k1 := MessageQueue.SetQueue(k, q, k.obj.queues[q].(writable := k.obj.queues[q].writable - 1));
            && MessageQueue.RingShape(k1.obj.queues[q]) && Members(k1, ReadList(q))
            && AllFates(op, k, MessageQueue.WriteNow(k1, q, front, msg).k)
  {
    QueueProofs.QueueBut(k, q);
    var x := k.obj.queues[q];
    var k1 := MessageQueue.SetQueue(k, q, x.(writable := x.writable - 1));
    QueueProofs.QueueSet(k, q, x.(writable := x.writable - 1), 0, 0, 0, 1);
    WriteNowFates(k1, q, front, msg);
    QueueFates(op, k, k1, MessageQueue.WriteNow(k1, q, front, msg).k, ReadList(q));
  }

  lemma QueueFates(op: Op, k: Kernel, k1: Kernel, k2: Kernel, l: ListId)
    requires KernelOK(k) && k1.tcbs == k.tcbs && |k2.tcbs| == |k.tcbs|
    requires (op.QueueRead? && l == WriteList(op.queue)) || (op.QueueWrite? && l == ReadList(op.queue))
    requires forall x :: 0 <= x < k.cfg.tasks ==>
               SameCall(k1.tcbs[x], k2.tcbs[x]) || (GrantedNow(k1, k2, x) && WaitListOf(k1.tcbs[x].call) == l)
    ensures AllFates(op, k, k2)
  {
    assert k.run < |k.tcbs|;
    hide KernelOK, Fate, GrantedNow, SameCall;
    forall x | 0 <= x < k.cfg.tasks ensures Fate(op, k, k2, x) {
      QueueFate(op, k, k1, k2, l, x);
    }
  }

  lemma QueueFate(op: Op, k: Kernel, k1: Kernel, k2: Kernel, l: ListId, x: Tid)
    requires k.run < |k.tcbs| == |k2.tcbs| && k1.tcbs == k.tcbs && x < |k.tcbs|
    requires (op.QueueRead? && l == WriteList(op.queue)) || (op.QueueWrite? && l == ReadList(op.queue))
    requires SameCall(k1.tcbs[x], k2.tcbs[x]) || (GrantedNow(k1, k2, x) && WaitListOf(k1.tcbs[x].call) == l)
    ensures Fate(op, k, k2, x)
  {
    assert !SameCall(k.tcbs[x], k2.tcbs[x]) ==> GrantedNow(k, k2, x);
  }

  lemma QueueReadFates(k: Kernel, q: nat, room: nat, timeout: nat, inInt: bool)
    requires KernelOK(k) && (timeout > 0 && !inInt ==> k.run != k.cfg.idle && k.tcbs[k.run].call.NoCall?)
    ensures MessageQueue.Ready(k, q)
            && AllFates(QueueRead(q, room, timeout), k, MessageQueue.Read(k, q, room, timeout, inInt).k)
  {
    QueueProofs.QueueReady(k, q);
    hide AllFates, KernelOK;
    var o := MessageQueue.Read(k, q, room, timeout, inInt);
    if o.ret == Waiting {
      WaitFates(QueueRead(q, room, timeout), k, k, ReadCall(q, room), timeout);
    } else if !o.ret.Fail? {
      TakeReadableFates(QueueRead(q, room, timeout), k, q, room);
    }
  }

  lemma QueueWriteFates(k: Kernel, q: nat, front: bool, msg: seq<Byte>, timeout: nat, inInt: bool)
    requires KernelOK(k) && (timeout > 0 && !inInt ==> k.run != k.cfg.idle && k.tcbs[k.run].call.NoCall?)
    ensures MessageQueue.Ready(k, q)
    ensures AllFates(QueueWrite(q, front, msg, timeout), k, MessageQueue.Write(k, q, front, msg, timeout, inInt).k)
  {
    QueueProofs.QueueReady(k, q);
    QueueProofs.WriteCases(k, q, front, msg, timeout, inInt);
    var o := MessageQueue.Write(k, q, front, msg, timeout, inInt);
    hide MessageQueue.Write;
    if o.ret == Waiting {
      WaitFates(QueueWrite(q, front, msg, timeout), k, k, WriteCall(q, front, msg), timeout);
    } else if !o.ret.Fail? {
      TakeWritableFates(QueueWrite(q, front, msg, timeout), k, q, front, msg);
    }
  }

  // ---- Event calls ----

  lemma EventReadCases(k: Kernel, e: nat, mask: bv32, mode: bv32, timeout: nat, inInt: bool) returns (k1: Kernel)
    requires k.run < |k.tcbs|
    ensures k1.tcbs == k.tcbs && k1.run == k.run && k1.cfg == k.cfg
    ensures var o := EventFlags.Read(k, e, mask, mode, timeout, inInt);
            || o.k.tcbs == k.tcbs
            || (&& timeout > 0 && !inInt
                && o.k == Wait(SetTcb(k1, k.run, k.tcbs[k.run].(eventMask := mask, eventMode := mode)),
                               EventCall(e, mask, mode), timeout))
  {
    hide EventFlags.ModeOK, EventFlags.Match, EventFlags.Poll;
    k1 := if e < |k.obj.events| then EventFlags.PollNow(k, e, mask, mode).k else k;
  }

  lemma EventReadFates(k: Kernel, e: nat, mask: bv32, mode: bv32, timeout: nat, inInt: bool)
    requires KernelOK(k) && (timeout > 0 && !inInt ==> k.run != k.cfg.idle && k.tcbs[k.run].call.NoCall?)
    ensures AllFates(EventRead(e, mask, mode, timeout), k, EventFlags.Read(k, e, mask, mode, timeout, inInt).k)
  {
    var o := EventFlags.Read(k, e, mask, mode, timeout, inInt);
    var k1 := EventReadCases(k, e, mask, mode, timeout, inInt);
    hide EventFlags.Read;
    if o.k.tcbs != k.tcbs {
      var k2 := SetTcb(k1, k.run, k.tcbs[k.run].(eventMask := mask, eventMode := mode));
      WaitFates(EventRead(e, mask, mode, timeout), k, k2, EventCall(e, mask, mode), timeout);
    }
  }

  lemma EventWriteFates(k: Kernel, e: nat, events: bv32)
    requires KernelOK(k)
    ensures Members(k, EventList(e)) && AllFates(EventWrite(e, events), k, EventFlags.Write(k, e, events).k)
  {
    EventProofs.EventMembers(k, e);
    EventProofs.WriteOK(k, e, events);
    var o := EventFlags.Write(k, e, events);
    if e < |k.obj.events| && k.obj.events[e].ready && events & EventFlags.ERROR_BIT == 0 {
      forall x | 0 <= x < k.cfg.tasks ensures Fate(EventWrite(e, events), k, o.k, x) {
        EventWriteFate(k, e, events, x);
      }
    }
  }

  lemma GrantedFate(op: Op, k: Kernel, k': Kernel, x: Tid, e: nat)
    requires SchedOK(k) && SchedOK(k') && x < k.cfg.tasks && k'.cfg == k.cfg && op.EventWrite? && op.event == e
    requires On(k, EventList(e), x)
    requires !k'.tcbs[x].st.pend && !k'.tcbs[x].st.timeout && k'.tcbs[x].call == k.tcbs[x].call
    ensures Fate(op, k, k', x)
  {
    assert TaskOK(k, x) && TaskOK(k', x);
  }

  lemma EventWriteFate(k: Kernel, e: nat, events: bv32, x: Tid)
    requires KernelOK(k) && e < |k.obj.events| && k.obj.events[e].ready && events & EventFlags.ERROR_BIT == 0
    requires Members(k, EventList(e)) && x < k.cfg.tasks
    ensures var k' := EventFlags.Write(k, e, events).k;
            |k'.tcbs| == |k.tcbs| && Fate(EventWrite(e, events), k, k', x)
  {
    EventProofs.WriteIsWalk(k, e, events);
    EventProofs.WriteOK(k, e, events);
    var l := At(k.lists, EventList(e));
    var k1 := EventProofs.Written(k, e, events);
    EventProofs.EventSet(k, e, k1.obj.events[e]);
    assert [] + l == l;
    EventProofs.WalkTouches(k1, e, [], l, EventProofs.WriteTest(k, e, events), x);
    var k' := EventFlags.Write(k, e, events).k;
    hide EventFlags.Write, EventFlags.WakeWhere, Fate, EventProofs.Walking;
    if SameCall(k.tcbs[x], k'.tcbs[x]) {
      UntouchedFate(EventWrite(e, events), k, k', x);
    } else {
      assert On(k, EventList(e), x);
      GrantedFate(EventWrite(e, events), k, k', x, e);
    }
  }

  lemma UntouchedFate(op: Op, k: Kernel, k': Kernel, x: Tid)
    requires k.run < |k.tcbs| && x < |k.tcbs| && |k'.tcbs| == |k.tcbs| && SameCall(k.tcbs[x], k'.tcbs[x])
    ensures Fate(op, k, k', x)
  {
  }

  // ---- Coming back from a wait ----

  lemma FinishFates(k: Kernel)
    requires KernelOK(k) && (forall q :: MessageQueue.Ready(k, q))
    ensures AllFates(Finish, k, FinishCall(k).k)
  {
    var c := k.tcbs[k.run];
    assert TaskOK(k, k.run);
    if !c.st.timeout && c.call.ReadCall? {
      FinishReadFates(k);
    } else if !c.st.timeout && c.call.WriteCall? {
      FinishWriteFates(k);
    } else {
      FinishPlainFates(k);
    }
  }

  lemma FinishPlainFates(k: Kernel)
    requires KernelOK(k) && (forall q :: MessageQueue.Ready(k, q))
    requires k.tcbs[k.run].st.timeout || (!k.tcbs[k.run].call.ReadCall? && !k.tcbs[k.run].call.WriteCall?)
    ensures AllFates(Finish, k, FinishCall(k).k)
  {
    assert TaskOK(k, k.run);
    hide EventFlags.Poll;
    assert FinishCall(k).k.tcbs == k.tcbs || FinishCall(k).k.tcbs == Back(k).tcbs;
  }

  lemma FinishQueueFates(k: Kernel, k2: Kernel, l: ListId)
    requires KernelOK(k) && |k2.tcbs| == |k.tcbs|
    requires var c := k.tcbs[k.run].call;
             (c.ReadCall? && l == WriteList(c.queue)) || (c.WriteCall? && l == ReadList(c.queue))
    requires forall x :: 0 <= x < k.cfg.tasks ==>
               || SameCall(Back(k).tcbs[x], k2.tcbs[x])
               || (GrantedNow(Back(k), k2, x) && WaitListOf(Back(k).tcbs[x].call) == l)
    ensures AllFates(Finish, k, k2)
  {
    assert TaskOK(k, k.run);
    forall x | 0 <= x < k.cfg.tasks ensures Fate(Finish, k, k2, x) {
      assert !SameCall(Back(k).tcbs[x], k2.tcbs[x]) ==> GrantedNow(Back(k), k2, x);
      assert x != k.run ==> Back(k).tcbs[x] == k.tcbs[x];
    }
  }

  lemma FinishReadFates(k: Kernel)
    requires KernelOK(k) && (forall q :: MessageQueue.Ready(k, q)) && k.tcbs[k.run].call.ReadCall?
             && !k.tcbs[k.run].st.timeout
    ensures AllFates(Finish, k, FinishCall(k).k)
  {
    var c := k.tcbs[k.run].call;
    assert TaskOK(k, k.run);
    assert MessageQueue.Ready(k, c.queue);
    BackPromise(k, c.queue, true);
    ReadNowFates(Back(k), c.queue, c.room);
    hide AllFates;
    FinishQueueFates(k, FinishCall(k).k, WriteList(c.queue));
  }

  lemma FinishWriteFates(k: Kernel)
    requires KernelOK(k) && (forall q :: MessageQueue.Ready(k, q)) && k.tcbs[k.run].call.WriteCall?
             && !k.tcbs[k.run].st.timeout
    ensures AllFates(Finish, k, FinishCall(k).k)
  {
    var c := k.tcbs[k.run].call;
    assert TaskOK(k, k.run);
    assert MessageQueue.Ready(k, c.queue);
    BackPromise(k, c.queue, false);
    WriteNowFates(Back(k), c.queue, c.front, c.msg);
    hide AllFates;
    FinishQueueFates(k, FinishCall(k).k, ReadList(c.queue));
  }
}
