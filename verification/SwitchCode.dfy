/** The timed-wait scan, the task switch and the tick on the kernel's globals. */
module SwitchCode {
  import opened Deadlines
  import opened KernelState
  import opened Sched
  import opened SchedProofs
  import opened StatusWord
  import opened KernelObjects
  import opened SchedCode
  import opened SortLink
  import Task

  // ---- OsSchedWakePendTimeTask ----

  method WakePendTimeTask(g: Globals, t: Tid) returns (need: bool)
    requires g.Valid() && t < g.cfg.tasks && t != g.cfg.idle && Homed(g.abs, t)
    requires !TcbAt(g.abs, t).st.ready && !TcbAt(g.abs, t).st.unused
    modifies g.Parts()
    ensures g.Valid() && t < |old(g.abs).tcbs| && g.abs == TimeoutWake(old(g.abs), t) && need == Woken(old(g.abs), t)
  {
    hide *;
    ghost var k := g.abs;
    g.TaskAt(t);
    HomeFacts(k, t);
    var tempStatus := g.tasks[t].taskStatus;
    FlagTests(tempStatus);
    need := false;
    if Test(tempStatus, PEND | DELAY) {
      ClearIs(g.tasks[t].taskStatus);
      g.SetStatus(t, Clear(g.tasks[t].taskStatus, PEND | PEND_TIME | DELAY));
      SameLists(k, g.abs, t, TcbAt(k, t).(st := FlagsOf(Clear(tempStatus, PEND | PEND_TIME | DELAY))));
      ghost var k1 := g.abs;
      if Test(tempStatus, PEND) {
        MarkTimeout(g, t);
      }
      TimeoutIs(k, t, k1, g.abs);
      if !Test(tempStatus, SUSPEND) {
        SchedTaskEnQueue(g, t);
        need := true;
      }
    }
    TimeoutElse(k, t);
  }

  method MarkTimeout(g: Globals, t: Tid)
    requires g.Valid() && t < g.cfg.tasks && SchedCode.Waiting(g.abs.lists, t)
    modifies g.Parts()
    ensures g.Valid() && g.abs == TimedOut(old(g.abs), t)
  {
    hide *;
    ghost var k := g.abs;
    g.TaskAt(t);
    ghost var w := g.tasks[t].taskStatus;
    SetIs(w);
    g.SetStatus(t, Set(g.tasks[t].taskStatus, TIMEOUT));
    SameLists(k, g.abs, t, TcbAt(k, t).(st := FlagsOf(Set(w, TIMEOUT))));
    OffNowhere(g, t);
    TimedOutIs(k, t);
    g.ListDelete(t);
  }

  ghost function TimedOut(k: Kernel, t: Tid): Kernel {
    PutTcb(k, t, TcbAt(k, t).(st := TcbAt(k, t).st.(timeout := true))).(lists := Unlink(k.lists, t))
  }

  lemma TimedOutIs(k: Kernel, t: Tid)
    ensures var k1 := PutTcb(k, t, TcbAt(k, t).(st := TcbAt(k, t).st.(timeout := true)));
            k1.(lists := Unlink(k1.lists, t)) == TimedOut(k, t)
  {
  }

  lemma TimeoutIs(k: Kernel, t: Tid, k1: Kernel, k2: Kernel)
    requires t < |k.tcbs| && (k.tcbs[t].st.pend || k.tcbs[t].st.delay) && !k.tcbs[t].st.ready
    requires k1 == PutTcb(k, t, TcbAt(k, t).(st := TcbAt(k, t).st.(pend := false, pendTime := false, delay := false)))
    requires !k.tcbs[t].st.pend ==> k2 == k1 && Nowhere(k.lists, t)
    requires k.tcbs[t].st.pend ==> k2 == TimedOut(k1, t)
    ensures |k2.tcbs| == |k.tcbs| && k2.cfg == k.cfg && Nowhere(k2.lists, t)
    ensures !TcbAt(k2, t).st.ready && TcbAt(k2, t).prio == k.tcbs[t].prio
    ensures TimeoutWake(k, t) == if k.tcbs[t].st.suspend then k2 else EnQueue(k2, t)
    ensures Woken(k, t) == !k.tcbs[t].st.suspend
  {
    SchedCode.UnlinkedNowhere(k.lists, t);
    hide EnQueue, Unlink;
    var c := k.tcbs[t];
    var a := c.(st := c.st.(pend := false, pendTime := false, delay := false));
    var b := c.(st := c.st.(pend := false, pendTime := false, delay := false, timeout := true));
    assert k.tcbs[t := a][t := b] == k.tcbs[t := b];
  }

  lemma TimeoutElse(k: Kernel, t: Tid)
    requires t < |k.tcbs|
    ensures !k.tcbs[t].st.pend && !k.tcbs[t].st.delay ==> TimeoutWake(k, t) == k && !Woken(k, t)
  {
  }

  // ---- OsSchedScanTimerList ----

  /** The head of the deadline queue is ready to be woken once it is taken off the queue. */
  lemma HeadReady(k: Kernel)
    requires SchedOK(k) && k.timers != []
    ensures var t := k.timers[0].id;
            var k1 := k.(timers := Remove(k.timers, t));
            && t < k.cfg.tasks && t < |k.tcbs| && t != k.cfg.idle && t != k.run && Homed(k1, t)
            && !TcbAt(k1, t).st.ready && !TcbAt(k1, t).st.unused
            && TimeoutWake(k1, t) == ScanStep(k) && Woken(k1, t) == Woken(k, t)
            && |ScanStep(k).timers| < |k.timers|
  {
    HeadTimed(k);
    var t := k.timers[0].id;
    ScanStepOK(k);
    HomedNow(k, t);
    hide TimeoutWake;
  }

  lemma HomedNow(k: Kernel, t: Tid)
    requires SchedOK(k) && t < k.cfg.tasks
    ensures Homed(k, t) && t < |k.tcbs| && TcbAt(k, t) == k.tcbs[t]
  {
    assert TaskOK(k, t);
    assert Placed(k, t);
    var c := k.tcbs[t];
    forall l | t in At(k.lists, l) ensures Home(l, c, t == k.cfg.idle) {
      assert On(k, l, t);
    }
  }

  method ScanTimerList(g: Globals, now: nat) returns (need: bool)
    requires g.Valid() && SchedOK(g.abs)
    modifies g.Parts()
    ensures g.Valid() && (forall e :: e in old(g.abs).timers ==> e.id < |old(g.abs).tcbs|)
            && (g.abs, need) == ScanTimers(old(g.abs), now)
    ensures SchedOK(g.abs)
  {
    hide *;
    ghost var k := g.abs;
    need := false;
    CanScan(k);
    var sortList := g.TimerHead();
    while sortList != null && sortList.responseTime <= now
      invariant g.Valid() && SchedOK(g.abs)
      invariant (forall e :: e in k.timers ==> e.id < |k.tcbs|)
                && (forall e :: e in g.abs.timers ==> e.id < |g.abs.tcbs|)
      invariant if g.abs.timers == [] then sortList == null
                else sortList != null && g.abs.timers[0] == Entry(sortList.id, sortList.responseTime)
                     && sortList.id < g.cfg.tasks
      invariant ScanTimers(k, now) == (ScanTimers(g.abs, now).0, need || ScanTimers(g.abs, now).1)
      decreases |g.abs.timers|
    {
      var t := sortList.id;
      ScanRound(g.abs, now);
      HeadReady(g.abs);
      g.RunAt();
      g.TimerDelete(t);
      var woken := WakePendTimeTask(g, t);
      need := need || woken;
      sortList := g.TimerHead();
    }
    ScanOver(g.abs, now);
  }

  lemma CanScan(k: Kernel)
    requires SchedOK(k)
    ensures forall e :: e in k.timers ==> e.id < |k.tcbs|
  {
    SchedScannable(k);
  }

  lemma ScanRound(k: Kernel, now: nat)
    requires SchedOK(k) && k.timers != [] && k.timers[0].time <= now
    ensures (forall e :: e in k.timers ==> e.id < |k.tcbs|) && k.timers[0].id < |k.tcbs|
    ensures SchedOK(ScanStep(k)) && forall e :: e in ScanStep(k).timers ==> e.id < |ScanStep(k).tcbs|
    ensures ScanTimers(k, now) ==
            (ScanTimers(ScanStep(k), now).0, Woken(k, k.timers[0].id) || ScanTimers(ScanStep(k), now).1)
  {
    ScanUnfold(k, now);
    HeadTimed(k);
    hide SchedOK, ScanStep, ScanTimers, Woken;
  }

  lemma ScanOver(k: Kernel, now: nat)
    requires SchedOK(k) && (k.timers == [] || k.timers[0].time > now)
    ensures (forall e :: e in k.timers ==> e.id < |k.tcbs|) && ScanTimers(k, now) == (k, false)
  {
    ScanUnfold(k, now);
  }

  // ---- OsTimeSliceUpdate ----

  /** The source asserts that the clock has not gone back. */
  method TimeSliceUpdate(g: Globals, currTime: nat)
    requires g.Valid() && TcbAt(g.abs, g.abs.run).start <= currTime
    modifies g.Parts()
    ensures g.Valid() && old(g.abs).run < |old(g.abs).tcbs| && g.abs == ChargeSlice(old(g.abs), currTime)
  {
    hide *;
    ghost var k := g.abs;
    g.RunAt();
    var t := g.runTask.taskID;
    g.TaskAt(t);
    ChargeIs(k, currTime);
    var incTime := currTime - g.tasks[t].startTime;
    if g.tasks[t].taskID != g.cfg.idle {
      g.SetSlice(t, g.tasks[t].timeSlice - incTime);
    }
    g.SetStart(t, currTime);
    g.ReadClock(currTime);
  }

  lemma ChargeIs(k: Kernel, now: nat)
    requires k.run < |k.tcbs|
    ensures var c := k.tcbs[k.run];
            var k1 := if k.run != k.cfg.idle then
                      PutTcb(k, k.run, TcbAt(k, k.run).(slice := c.slice - (now - c.start))) else k;
            PutTcb(k1, k.run, TcbAt(k1, k.run).(start := now)).(now := now) == ChargeSlice(k, now)
  {
    var t, c := k.run, k.tcbs[k.run];
    var a := c.(slice := c.slice - (now - c.start));
    assert k.tcbs[t := a][t := a.(start := now)] == k.tcbs[t := a.(start := now)];
  }

  // ---- OsSchedTaskSwitch ----

  /** What the running task asked for. */
  method ParkRunTask(g: Globals)
    requires g.Valid() && Parkable(g.abs) == true
    modifies g.Parts()
    ensures g.Valid() && old(g.abs).run < |old(g.abs).tcbs| && g.abs == Park(old(g.abs))
  {
    hide *;
    ghost var k := g.abs;
    g.RunAt();
    var t := g.runTask.taskID;
    g.TaskAt(t);
    FlagTests(g.tasks[t].taskStatus);
    if Test(g.tasks[t].taskStatus, DELAY | PEND_TIME) {
      TimeRunTask(g);
    } else if !Test(g.tasks[t].taskStatus, PEND | SUSPEND | UNUSED) {
      ParkOnReady(k);
      SchedTaskEnQueue(g, t);
    } else {
      ParkNowhere(k);
    }
  }

  /** The deadline of a running task that has asked for one. */
  method TimeRunTask(g: Globals)
    requires g.Valid() && Parkable(g.abs) == true
    requires g.abs.run < |g.abs.tcbs| && (g.abs.tcbs[g.abs.run].st.delay || g.abs.tcbs[g.abs.run].st.pendTime)
    modifies g.Parts()
    ensures g.Valid() && g.abs == Park(old(g.abs))
  {
    hide *;
    ParkOnTimer(g.abs);
    g.RunAt();
    var t := g.runTask.taskID;
    g.TaskAt(t);
    g.TimerAdd(t, g.tasks[t].startTime, g.tasks[t].waitTimes);
  }

  /** The running task has no list node linked unless it waits, no deadline, and a clock that leaves room for one. */
  ghost predicate Parkable(k: Kernel) {
    && k.run < |k.tcbs| && k.run <= k.cfg.tasks
    && var c := k.tcbs[k.run];
       && !Timed(k, k.run)
       && Deadline(c.start, c.waitTicks, k.cfg.cyclesPerTick) < INVALID_TIME
       && (c.st.delay || c.st.pendTime ==> k.run < k.cfg.tasks)
       && (!c.st.delay && !c.st.pendTime && !c.st.pend && !c.st.suspend && !c.st.unused ==>
             !c.st.ready && k.run < k.cfg.tasks && c.prio <= LOWEST
                 && (k.run != k.cfg.idle ==> Nowhere(k.lists, k.run)))
  }

  lemma ParkOnTimer(k: Kernel)
    requires Parkable(k) && (k.tcbs[k.run].st.delay || k.tcbs[k.run].st.pendTime)
    ensures var c := k.tcbs[k.run];
            && k.run < k.cfg.tasks && !Timed(k, k.run)
            && Deadline(c.start, c.waitTicks, k.cfg.cyclesPerTick) < INVALID_TIME
            && Park(k) == k.(timers := Insert(k.timers,
                                              Entry(k.run, Deadline(c.start, c.waitTicks, k.cfg.cyclesPerTick))))
  {
    hide Insert, Deadline;
  }

  lemma ParkOnReady(k: Kernel)
    requires Parkable(k) && var f := k.tcbs[k.run].st; !f.delay && !f.pendTime && !f.pend && !f.suspend && !f.unused
    ensures TcbAt(k, k.run) == k.tcbs[k.run] && !k.tcbs[k.run].st.ready
    ensures k.run < k.cfg.tasks && k.tcbs[k.run].prio <= LOWEST && (k.run != k.cfg.idle ==> Nowhere(k.lists, k.run))
    ensures Park(k) == EnQueue(k, k.run)
  {
    hide EnQueue;
  }

  lemma ParkNowhere(k: Kernel)
    requires k.run < |k.tcbs|
    requires var f := k.tcbs[k.run].st; !f.delay && !f.pendTime && (f.pend || f.suspend || f.unused)
    ensures Park(k) == k
  {
  }

  /** The hand-over of the processor to task `n`. */
  method DispatchTo(g: Globals, n: Tid) returns (isTaskSwitch: bool)
    requires g.Valid() && n < g.cfg.tasks
    requires TcbAt(g.abs, n).st.ready && n != g.cfg.idle ==>
               TcbAt(g.abs, n).prio <= LOWEST && n in At(g.abs.lists, ReadyList(TcbAt(g.abs, n).prio))
    modifies g.Parts()
    ensures g.Valid() && old(g.abs).run < |old(g.abs).tcbs| && n < |old(g.abs).tcbs| && g.abs == Dispatch(old(g.abs), n)
    ensures isTaskSwitch <==> old(g.abs).run != n
  {
    hide *;
    ghost var k := g.abs;
    g.RunAt();
    g.TaskAt(n);
    var t := g.runTask.taskID;
    isTaskSwitch := false;
    if t != n {
      g.TaskAt(t);
      var start := g.tasks[t].startTime;
      StopTask(g, t);
      StartTask(g, n, start);
      isTaskSwitch := true;
    }
    DispatchIs(k, n, g.abs);
    SchedTaskDeQueue(g, n);
    g.SetRun(n);
  }

  lemma DispatchIs(k: Kernel, n: Tid, k1: Kernel)
    requires k.run < |k.tcbs| && n < |k.tcbs|
    requires k.run == n ==> k1 == k
    requires k.run != n ==>
               k1 == Started(Stopped(k, k.run), n, k.tcbs[k.run].start)
    ensures |k1.tcbs| == |k.tcbs| && k1.lists == k.lists && k1.cfg == k.cfg
    ensures TcbAt(k1, n).st.ready == TcbAt(k, n).st.ready && TcbAt(k1, n).prio == TcbAt(k, n).prio
    ensures Dispatch(k, n) == DeQueue(k1, n).(run := n)
  {
    hide DeQueue;
    if k.run != n {
      var k2 := Stopped(k, k.run);
      var c := k2.tcbs[n];
      var a := c.(st := c.st.(running := true));
      assert k2.tcbs[n := a][n := a.(start := k.tcbs[k.run].start)] == k2.tcbs[n := a.(start := k.tcbs[k.run].start)];
    }
  }

  ghost function Started(k: Kernel, n: Tid, start: nat): Kernel {
    var k1 := PutTcb(k, n, TcbAt(k, n).(st := TcbAt(k, n).st.(running := true)));
    PutTcb(k1, n, TcbAt(k1, n).(start := start))
  }

  method StopTask(g: Globals, t: Tid)
    requires g.Valid() && t <= g.cfg.tasks
    modifies g.Parts()
    ensures g.Valid() && g.abs == Stopped(old(g.abs), t)
  {
    hide *;
    ghost var k := g.abs;
    g.TaskAt(t);
    ClearIs(g.tasks[t].taskStatus);
    StoppedIs(k, t);
    g.SetStatus(t, Clear(g.tasks[t].taskStatus, RUNNING));
  }

  ghost function Stopped(k: Kernel, t: Tid): Kernel {
    PutTcb(k, t, TcbAt(k, t).(st := TcbAt(k, t).st.(running := false)))
  }

  lemma StoppedIs(k: Kernel, t: Tid)
    ensures PutTcb(k, t, TcbAt(k, t).(st := TcbAt(k, t).st.(running := false))) == Stopped(k, t)
  {
  }

  method StartTask(g: Globals, n: Tid, start: nat)
    requires g.Valid() && n < g.cfg.tasks
    modifies g.Parts()
    ensures g.Valid() && g.abs == Started(old(g.abs), n, start)
  {
    hide *;
    ghost var k := g.abs;
    g.TaskAt(n);
    SetIs(g.tasks[n].taskStatus);
    g.SetStatus(n, Set(g.tasks[n].taskStatus, RUNNING));
    g.SetStart(n, start);
    StartedIs(k, n, start);
  }

  lemma StartedIs(k: Kernel, n: Tid, start: nat)
    ensures var k1 := PutTcb(k, n, TcbAt(k, n).(st := TcbAt(k, n).st.(running := true)));
            PutTcb(k1, n, TcbAt(k1, n).(start := start)) == Started(k, n, start)
  {
  }

  /** OsSchedTaskSwitch, without the programming of the tick timer that ends it. */
  method TaskSwitch(g: Globals, currTime: nat) returns (isTaskSwitch: bool)
    requires g.Valid() && SchedOK(g.abs) && Switchable(g.abs) && g.abs.now <= currTime
    requires Deadline(currTime, TcbAt(g.abs, g.abs.run).waitTicks, g.cfg.cyclesPerTick) < INVALID_TIME
    modifies g.Parts()
    ensures g.Valid() && IsSwitch(old(g.abs), currTime, g.abs)
    ensures isTaskSwitch <==> g.abs.run != old(g.abs).run
  {
    hide *;
    ghost var k := g.abs;
    g.RunAt();
    SwitchReady(k, currTime);
    TimeSliceUpdate(g, currTime);
    ParkRunTask(g);
    var newTask := g.TopTask();
    isTaskSwitch := DispatchTo(g, newTask);
  }

  ghost predicate IsSwitch(k: Kernel, now: nat, k': Kernel) {
    Shape(k) && Top(Park(ChargeSlice(k, now))) < |k.tcbs| && k' == Switch(k, now)
  }

  lemma RunReady(k: Kernel)
    requires SchedOK(k) && Switchable(k)
    requires Deadline(k.tcbs[k.run].start, k.tcbs[k.run].waitTicks, k.cfg.cyclesPerTick) < INVALID_TIME
    ensures Parkable(k)
  {
    if k.run < k.cfg.tasks {
      HomedNow(k, k.run);
      assert TaskOK(k, k.run);
    } else {
      assert forall t: Tid :: Timed(k, t) ==> t < k.cfg.tasks;
    }
  }

  lemma StartsBefore(k: Kernel)
    requires SchedOK(k)
    ensures k.run < |k.tcbs| && TcbAt(k, k.run).start <= k.now && TcbAt(k, k.run) == k.tcbs[k.run]
  {
    assert k.run < k.cfg.tasks ==> TaskOK(k, k.run);
  }

  lemma TopReady(k: Kernel, now: nat)
    requires SchedOK(k) && Switchable(k) && k.now <= now
    ensures Shape(k)
    ensures var k1 := Park(ChargeSlice(k, now));
            var n := Top(k1);
            && n < k.cfg.tasks && n < |k1.tcbs| == |k.tcbs|
            && (n != k.cfg.idle ==> k1.tcbs[n].prio <= LOWEST && n in At(k1.lists, ReadyList(k1.tcbs[n].prio)))
  {
    ParkedFacts(k, now);
    SwitchIsElect(k, now);
    var k1 := Park(ChargeSlice(k, now));
    var kr := Parked(k, now);
    var n := Top(k1);
    ChargeSliceFrame(k, now);
    ParkFrame(ChargeSlice(k, now));
    hide Park, ChargeSlice, Top;
    HomedNow(kr, n);
    ReleaseFrame(k1);
    assert TaskOK(kr, n);
  }

  lemma ReleaseFrame(k: Kernel)
    requires k.run < |k.tcbs|
    ensures Release(k).lists == k.lists && |Release(k).tcbs| == |k.tcbs|
    ensures forall t :: 0 <= t < |k.tcbs| ==> Release(k).tcbs[t].prio == k.tcbs[t].prio
  {
  }

  lemma SwitchReady(k: Kernel, now: nat)
    requires SchedOK(k) && Switchable(k) && k.now <= now
    requires Deadline(now, TcbAt(k, k.run).waitTicks, k.cfg.cyclesPerTick) < INVALID_TIME
    ensures k.run < |k.tcbs| && TcbAt(k, k.run).start <= now && Parkable(ChargeSlice(k, now))
    ensures var k1 := Park(ChargeSlice(k, now));
            var n := Top(k1);
            && n < k.cfg.tasks && k1.cfg == k.cfg
            && (TcbAt(k1, n).st.ready && n != k.cfg.idle ==>
                  TcbAt(k1, n).prio <= LOWEST && n in At(k1.lists, ReadyList(TcbAt(k1, n).prio)))
            && k1.run == k.run && k1.run < |k1.tcbs| && n < |k1.tcbs|
            && Dispatch(k1, n).run == n && IsSwitch(k, now, Dispatch(k1, n))
  {
    StartsBefore(k);
    ChargeSliceOK(k, now);
    ChargeSliceFrame(k, now);
    RunReady(ChargeSlice(k, now));
    TopReady(k, now);
    ParkFrame(ChargeSlice(k, now));
    hide Park, DeQueue, SchedOK, Parkable, Top;
  }

  // ---- LOS_Schedule, LOS_SchedTickHandler ----

  /** LOS_Schedule, and the pended switch it asks for: nothing while the scheduler is locked. */
  method Schedule(g: Globals, currTime: nat)
    requires g.Valid() && SchedOK(g.abs) && Switchable(g.abs) && g.abs.now <= currTime
    requires Deadline(currTime, TcbAt(g.abs, g.abs.run).waitTicks, g.cfg.cyclesPerTick) < INVALID_TIME
    modifies g.Parts()
    ensures g.Valid() && Scheduled(old(g.abs), currTime, g.abs)
  {
    hide *;
    ScheduledIs(g.abs, currTime);
    g.RunAt();
    if g.taskLock == 0 {
      var _ := TaskSwitch(g, currTime);
    }
  }

  ghost predicate Scheduled(k: Kernel, now: nat, k': Kernel) {
    if k.lock == 0 then IsSwitch(k, now, k') else k' == k
  }

  lemma ScheduledIs(k: Kernel, now: nat)
    ensures k.lock != 0 ==> Scheduled(k, now, k)
    ensures forall k' :: k.lock == 0 && IsSwitch(k, now, k') ==> Scheduled(k, now, k')
  {
    hide IsSwitch;
  }

  /** LOS_SchedTickHandler: `scan` says that the expiry was not the end of a slice. */
  method TickHandler(g: Globals, scanAt: nat, currTime: nat, scan: bool) returns (sched: bool)
    requires g.Valid() && SchedOK(g.abs) && g.abs.now <= scanAt <= currTime
    modifies g.Parts()
    ensures g.Valid() && IsTick(old(g.abs), scanAt, currTime, scan, g.abs, sched)
  {
    hide *;
    ghost var k := g.abs;
    TickReady(k, scanAt);
    var needSched := false;
    if scan {
      needSched := ScanTimerList(g, scanAt);
    }
    g.RunAt();
    TickIs(k, scanAt, currTime, scan, g.abs, needSched);
    if needSched && g.taskLock == 0 {
      g.ReadClock(currTime);
      return true;
    }
    TimeSliceUpdate(g, currTime);
    return false;
  }

  ghost predicate IsTick(k: Kernel, scanAt: nat, now: nat, scan: bool, k': Kernel, sched: bool) {
    && k.run < |k.tcbs| && (forall e :: e in k.timers ==> e.id < |k.tcbs|)
    && Out(k', Ok, sched) == Task.Tick(k, scanAt, now, scan)
  }

  lemma TickReady(k: Kernel, scanAt: nat)
    requires SchedOK(k)
    ensures k.run < |k.tcbs| && forall e :: e in k.timers ==> e.id < |k.tcbs|
  {
    SchedScannable(k);
  }

  lemma TickIs(k: Kernel, scanAt: nat, now: nat, scan: bool, k1: Kernel, need: bool)
    requires SchedOK(k) && k.now <= scanAt <= now
    requires forall e :: e in k.timers ==> e.id < |k.tcbs|
    requires if scan then (k1, need) == ScanTimers(k, scanAt) else k1 == k && !need
    ensures k1.run < |k1.tcbs| && TcbAt(k1, k1.run).start <= now
    ensures need && k1.lock == 0 ==> IsTick(k, scanAt, now, scan, k1.(now := now), true)
    ensures !(need && k1.lock == 0) ==> IsTick(k, scanAt, now, scan, ChargeSlice(k1, now), false)
  {
    ScanOK(k, scanAt);
    StartsBefore(k);
    TickCases(k, scanAt, now, scan, k1, need);
    hide SchedOK, ScanTimers, ChargeSlice, IsTick;
    if scan {
      StartsBefore(k1);
    }
  }

  lemma TickCases(k: Kernel, scanAt: nat, now: nat, scan: bool, k1: Kernel, need: bool)
    requires k.run < |k.tcbs| && forall e :: e in k.timers ==> e.id < |k.tcbs|
    requires if scan then (k1, need) == ScanTimers(k, scanAt) else k1 == k && !need
    ensures k1.run < |k1.tcbs|
    ensures need && k1.lock == 0 ==> IsTick(k, scanAt, now, scan, k1.(now := now), true)
    ensures !(need && k1.lock == 0) ==> IsTick(k, scanAt, now, scan, ChargeSlice(k1, now), false)
  {
    ScanLock(k, scanAt);
    hide ScanTimers, ChargeSlice;
  }

  /** The scan does not touch the scheduler lock. */
  lemma {:induction false} ScanLock(k: Kernel, now: nat)
    requires forall e :: e in k.timers ==> e.id < |k.tcbs|
    ensures ScanTimers(k, now).0.lock == k.lock
    decreases |k.timers|
  {
    if k.timers != [] && k.timers[0].time <= now {
      var t := k.timers[0].id;
      assert k.timers[0] in k.timers;
      var k1 := TimeoutWake(k.(timers := Remove(k.timers, t)), t);
      assert forall e :: e in k1.timers ==> e in k.timers;
      ScanLock(k1, now);
    }
  }
}
