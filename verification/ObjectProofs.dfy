/** The calls on semaphores, mutexes, queues and events keep every invariant. */
module ObjectProofs {
  import opened Sequences
  import opened KernelState
  import opened Sched
  import opened SchedProofs
  import opened Invariants
  import opened TaskProofs
  import Semaphore
  import Mutex
  import MessageQueue
  import EventFlags

  // ---- Objects that a step does not concern ----

  lemma SameQueues(k: Kernel, k': Kernel)
    requires Shape(k) && k'.cfg == k.cfg && k'.tcbs == k.tcbs && k'.lists == k.lists && k'.run == k.run
    requires k'.obj.queues == k.obj.queues && k'.obj.queueFree == k.obj.queueFree && QueuesOK(k)
    ensures QueuesOK(k')
  {
    forall q: nat ensures QueueOK(k', q) {
      assert QueueOK(k, q);
      FlightSame(k, k', q, true);
      FlightSame(k, k', q, false);
    }
  }

  lemma SameEvents(k: Kernel, k': Kernel)
    requires k'.tcbs == k.tcbs && k'.lists == k.lists && k'.obj.events == k.obj.events && EventsOK(k)
    ensures EventsOK(k')
  {
    forall e: nat ensures EventOK(k', e) {
      assert EventOK(k, e);
    }
  }

  lemma SameMuxes(k: Kernel, k': Kernel)
    requires Shape(k) && k'.cfg == k.cfg && k'.tcbs == k.tcbs && k'.lists == k.lists && k'.run == k.run
    requires k'.obj.muxes == k.obj.muxes && k'.obj.muxFree == k.obj.muxFree && MuxesOK(k)
    ensures MuxesOK(k')
  {
    forall m | 0 <= m < |k.obj.muxes| ensures MuxOK(k', k'.obj.muxes[m], At(k'.lists, MuxList(m))) {
      assert MuxOK(k, k.obj.muxes[m], At(k.lists, MuxList(m)));
    }
  }

  /** `x` replaces the object at `i`, whose identifier has just left or entered the free list. */
  lemma FreeListTaken(free: seq<nat>)
    requires NoDup(free) && free != []
    ensures NoDup(free[1..]) && forall i: nat :: i in free[1..] <==> i in free && i != free[0]
  {
    forall i: nat ensures i in free[1..] <==> i in free && i != free[0] {
      if i in free && i != free[0] {
        var j :| 0 <= j < |free| && free[j] == i;
        assert free[1..][j - 1] == i;
      }
    }
  }

  // ---- Waiting ----

  lemma WaitQueues(k: Kernel, call: Call, ticks: nat)
    requires KernelOK(k) && k.tcbs[k.run].call.NoCall? && !call.NoCall?
    requires forall q: nat :: (call.ReadCall? || call.WriteCall?) && call.queue == q ==>
               && q < |k.obj.queues| && k.obj.queues[q].used
               && (call.ReadCall? ==>
                   k.obj.queues[q].readable == 0 && k.obj.queues[q].size <= call.room + MessageQueue.WORD)
               && (call.WriteCall? ==>
                   k.obj.queues[q].writable == 0 && |call.msg| + MessageQueue.WORD <= k.obj.queues[q].size)
    ensures QueuesOK(Wait(k, call, ticks))
  {
    var k' := Wait(k, call, ticks);
    forall q: nat ensures QueueOK(k', q) {
      assert QueueOK(k, q);
      FlightSame(k, k', q, true);
      FlightSame(k, k', q, false);
    }
  }

  lemma WaitSems(k: Kernel, call: Call, ticks: nat)
    requires KernelOK(k)
    requires call.SemCall? ==> call.sem < |k.obj.sems| && k.obj.sems[call.sem].used && k.obj.sems[call.sem].count == 0
    ensures SemsOK(Wait(k, call, ticks))
  {
    var k' := Wait(k, call, ticks);
    forall s | 0 <= s < |k.obj.sems| ensures SemOK(k'.obj.sems[s], At(k'.lists, SemList(s))) {
      assert SemOK(k.obj.sems[s], At(k.lists, SemList(s)));
    }
  }

  lemma WaitMuxes(k: Kernel, call: Call, ticks: nat)
    requires KernelOK(k)
    requires call.MuxCall? ==>
               && call.mux < |k.obj.muxes| && k.obj.muxes[call.mux].count > 0
               && k.obj.muxes[call.mux].owner != Some(k.run)
    ensures MuxesOK(Wait(k, call, ticks))
  {
    var k' := Wait(k, call, ticks);
    forall m | 0 <= m < |k.obj.muxes| ensures MuxOK(k', k'.obj.muxes[m], At(k'.lists, MuxList(m))) {
      assert MuxOK(k, k.obj.muxes[m], At(k.lists, MuxList(m)));
    }
  }

  lemma WaitEvents(k: Kernel, call: Call, ticks: nat)
    requires KernelOK(k)
    requires call.EventCall? ==>
               var c := k.tcbs[k.run];
               && call.event < |k.obj.events| && k.obj.events[call.event].ready
               && c.eventMask != 0 && EventFlags.ModeOK(c.eventMode)
               && EventFlags.Match(k.obj.events[call.event].bits, c.eventMask, c.eventMode) == 0
    ensures EventsOK(Wait(k, call, ticks))
  {
    var k' := Wait(k, call, ticks);
    forall e: nat ensures EventOK(k', e) {
      assert EventOK(k, e);
    }
  }

  /** What the running task must have established before it waits inside `call`. */
  ghost predicate MayWait(k: Kernel, call: Call)
    requires Shape(k)
  {
    var c := k.tcbs[k.run];
    match call
    case NoCall => false
    case SemCall(s) => s < |k.obj.sems| && k.obj.sems[s].used && k.obj.sems[s].count == 0
    case MuxCall(m) => m < |k.obj.muxes| && k.obj.muxes[m].count > 0 && k.obj.muxes[m].owner != Some(k.run)
    case ReadCall(q, room) =>
      && q < |k.obj.queues| && k.obj.queues[q].used
      && k.obj.queues[q].readable == 0 && k.obj.queues[q].size <= room + MessageQueue.WORD
    case WriteCall(q, _, msg) =>
      && q < |k.obj.queues| && k.obj.queues[q].used
      && k.obj.queues[q].writable == 0 && |msg| + MessageQueue.WORD <= k.obj.queues[q].size
    case EventCall(e, _, _) =>
      && e < |k.obj.events| && k.obj.events[e].ready && c.eventMask != 0 && EventFlags.ModeOK(c.eventMode)
      && EventFlags.Match(k.obj.events[e].bits, c.eventMask, c.eventMode) == 0
  }

  lemma WaitCallOK(k: Kernel, call: Call, ticks: nat, o: Out)
    requires KernelOK(k) && k.run != k.cfg.idle && k.tcbs[k.run].call.NoCall? && MayWait(k, call) && k.lock == 0
    requires o == Out(Wait(k, call, ticks), Waiting, true)
    ensures CallOK(k, o)
  {
    WaitOK(k, call, ticks);
    WaitQueues(k, call, ticks);
    WaitSems(k, call, ticks);
    WaitMuxes(k, call, ticks);
    WaitEvents(k, call, ticks);
    SettledSwitchable(k);
  }

  // ---- Semaphores ----

  lemma SemStepKept(k: Kernel, s: nat, x: Sem, free: seq<nat>, o: Out)
    requires SchedOK(k) && ObjectsOK(k) && s < |k.obj.sems| && o.ret != Waiting
    requires o.k == Semaphore.SetSem(k.(obj := k.obj.(semFree := free)), s, x)
    requires SemOK(x, At(k.lists, SemList(s)))
    requires NoDup(free)
    requires forall i: nat ::
               i in free <==> i < |k.obj.sems| && (if i == s then !x.used else !k.obj.sems[i].used)
    ensures Kept(k, o)
  {
    SameTasksOK(k, o.k);
    SameQueues(k, o.k);
    SameEvents(k, o.k);
    SameMuxes(k, o.k);
    forall i | 0 <= i < |k.obj.sems| ensures SemOK(o.k.obj.sems[i], At(o.k.lists, SemList(i))) {
      assert SemOK(k.obj.sems[i], At(k.lists, SemList(i)));
    }
  }

  lemma SemStepOK(k: Kernel, s: nat, x: Sem, free: seq<nat>, o: Out)
    requires KernelOK(k) && s < |k.obj.sems| && o.ret != Waiting
    requires o.k == Semaphore.SetSem(k.(obj := k.obj.(semFree := free)), s, x)
    requires SemOK(x, At(k.lists, SemList(s)))
    requires NoDup(free)
    requires forall i: nat ::
               i in free <==> i < |k.obj.sems| && (if i == s then !x.used else !k.obj.sems[i].used)
    ensures CallOK(k, o)
  {
    SemStepKept(k, s, x, free, o);
    KeptGoes(k, o);
    hide Kept, CallOK, KernelOK;
  }

  lemma SemCreateKept(k: Kernel, count: nat, max: nat)
    requires SchedOK(k) && ObjectsOK(k)
    ensures Kept(k, Semaphore.Create(k, count, max))
  {
    var o := Semaphore.Create(k, count, max);
    if o.ret.Id? {
      var s := k.obj.semFree[0];
      assert s in k.obj.semFree;
      FreeListTaken(k.obj.semFree);
      assert SemOK(k.obj.sems[s], At(k.lists, SemList(s)));
      SemStepKept(k, s, Sem(true, count, max), k.obj.semFree[1..], o);
    }
  }

  lemma SemCreateOK(k: Kernel, count: nat, max: nat)
    requires KernelOK(k)
    ensures CallOK(k, Semaphore.Create(k, count, max))
  {
    SemCreateKept(k, count, max);
    KeptGoes(k, Semaphore.Create(k, count, max));
    hide Kept, CallOK, KernelOK;
  }

  lemma SemDeleteOK(k: Kernel, s: nat)
    requires KernelOK(k)
    ensures CallOK(k, Semaphore.Delete(k, s))
  {
    var o := Semaphore.Delete(k, s);
    if o.ret.Fail? {
      Unchanged(k, o);
    } else {
      assert SemOK(k.obj.sems[s], At(k.lists, SemList(s)));
      SemStepOK(k, s, k.obj.sems[s].(used := false), [s] + k.obj.semFree, o);
    }
  }

  lemma SemPendOK(k: Kernel, s: nat, timeout: nat, inInt: bool)
    requires KernelOK(k) && (timeout > 0 && !inInt ==> k.run != k.cfg.idle && k.tcbs[k.run].call.NoCall?)
    ensures CallOK(k, Semaphore.Pend(k, s, timeout, inInt))
  {
    var o := Semaphore.Pend(k, s, timeout, inInt);
    if o.ret.Fail? {
      Unchanged(k, o);
    } else if o.ret == Ok {
      var x := k.obj.sems[s];
      assert SemOK(x, At(k.lists, SemList(s)));
      SemStepOK(k, s, x.(count := x.count - 1), k.obj.semFree, o);
    } else {
      WaitCallOK(k, SemCall(s), timeout, o);
    }
  }

  /** The head of a wait list is a waiting task other than the running one. */
  lemma WaitHead(k: Kernel, l: ListId)
    requires SchedOK(k) && Runnable(k) && l.IsWait() && At(k.lists, l) != []
    ensures var t := At(k.lists, l)[0];
            t < k.cfg.tasks && t != k.run && k.tcbs[t].st.pend && WaitListOf(k.tcbs[t].call) == l
                && !k.tcbs[t].st.timeout
  {
    var t := At(k.lists, l)[0];
    assert On(k, l, t);
    assert TaskOK(k, t);
  }

  /** Waking a task that waits for something other than a queue slot. */
  lemma WakeObjects(k: Kernel, l: ListId)
    requires KernelOK(k) && l.IsWait() && !l.ReadList? && !l.WriteList? && At(k.lists, l) != []
    ensures var t := At(k.lists, l)[0];
            t < |k.tcbs| && SchedOK(Wake(k, t)) && ObjectsOK(Wake(k, t)) && Wake(k, t).tcbs[k.run] == k.tcbs[k.run]
  {
    WaitHead(k, l);
    var t := At(k.lists, l)[0];
    hide *;
    Waits(k, t, l);
    WakeOK(k, t);
    WakeGrants(k, t);
    WokenHarmless(k, Wake(k, t), t);
    LeavesObjects(k, Wake(k, t), t);
  }

  lemma Waits(k: Kernel, t: Tid, l: ListId)
    requires KernelOK(k) && l.IsWait() && !l.ReadList? && !l.WriteList? && t < k.cfg.tasks
             && WaitListOf(k.tcbs[t].call) == l
    ensures Shape(k) && SchedOK(k) && ObjectsOK(k) && t < |k.tcbs| && k.run < |k.tcbs|
    ensures !k.tcbs[t].call.ReadCall? && !k.tcbs[t].call.WriteCall? && !k.tcbs[t].call.NoCall?
  {
  }

  lemma WokenHarmless(k: Kernel, k': Kernel, t: Tid)
    requires SchedOK(k') && t < k'.cfg.tasks && t < |k.tcbs| && k'.tcbs[t].call == k.tcbs[t].call
    requires !k.tcbs[t].call.ReadCall? && !k.tcbs[t].call.WriteCall? && !k.tcbs[t].call.NoCall?
    ensures Shape(k') && Harmless(k, k', t)
  {
    assert TaskOK(k', t);
  }

  lemma SemPostOK(k: Kernel, s: nat)
    requires KernelOK(k)
    ensures Members(k, SemList(s))
    ensures CallOK(k, Semaphore.Post(k, s))
  {
    forall t | t in At(k.lists, SemList(s)) ensures t < |k.tcbs| {
      assert On(k, SemList(s), t);
    }
    var o := Semaphore.Post(k, s);
    if o.ret.Fail? {
      Unchanged(k, o);
    } else if At(k.lists, SemList(s)) != [] {
      assert At(k.lists, SemList(s))[0] in At(k.lists, SemList(s));
      SemWakes(k, s, o);
    } else {
      SemCounts(k, s, o);
    }
    hide KernelOK, CallOK, Wake, Semaphore.SetSem;
  }

  lemma SemWakes(k: Kernel, s: nat, o: Out)
    requires KernelOK(k) && At(k.lists, SemList(s)) != [] && At(k.lists, SemList(s))[0] < |k.tcbs|
    requires o == Out(Wake(k, At(k.lists, SemList(s))[0]), Ok, true)
    ensures CallOK(k, o)
  {
    WakeObjects(k, SemList(s));
    Goes(k, o);
  }

  lemma SemCounts(k: Kernel, s: nat, o: Out)
    requires KernelOK(k) && s < |k.obj.sems| && k.obj.sems[s].used && k.obj.sems[s].max != k.obj.sems[s].count
    requires At(k.lists, SemList(s)) == []
    requires o == Out(Semaphore.SetSem(k, s, k.obj.sems[s].(count := k.obj.sems[s].count + 1)), Ok, false)
    ensures CallOK(k, o)
  {
    var x := k.obj.sems[s];
    assert SemOK(x, At(k.lists, SemList(s)));
    SemStepOK(k, s, x.(count := x.count + 1), k.obj.semFree, o);
  }

  // ---- Mutexes ----

  lemma MuxStepKept(k: Kernel, m: nat, x: Mux, free: seq<nat>, o: Out)
    requires SchedOK(k) && ObjectsOK(k) && m < |k.obj.muxes| && o.ret != Waiting
    requires o.k == Mutex.SetMux(k.(obj := k.obj.(muxFree := free)), m, x)
    requires MuxOK(k, x, At(k.lists, MuxList(m)))
    requires NoDup(free)
    requires forall i: nat ::
               i in free <==> i < |k.obj.muxes| && (if i == m then !x.used else !k.obj.muxes[i].used)
    ensures Kept(k, o)
  {
    SameTasksOK(k, o.k);
    SameQueues(k, o.k);
    SameEvents(k, o.k);
    forall i | 0 <= i < |k.obj.muxes| ensures MuxOK(o.k, o.k.obj.muxes[i], At(o.k.lists, MuxList(i))) {
      assert MuxOK(k, k.obj.muxes[i], At(k.lists, MuxList(i)));
    }
    assert MuxesOK(o.k);
    assert SemsOK(o.k);
  }

  lemma MuxStepOK(k: Kernel, m: nat, x: Mux, free: seq<nat>, o: Out)
    requires KernelOK(k) && m < |k.obj.muxes| && o.ret != Waiting
    requires o.k == Mutex.SetMux(k.(obj := k.obj.(muxFree := free)), m, x)
    requires MuxOK(k, x, At(k.lists, MuxList(m)))
    requires NoDup(free)
    requires forall i: nat ::
               i in free <==> i < |k.obj.muxes| && (if i == m then !x.used else !k.obj.muxes[i].used)
    ensures CallOK(k, o)
  {
    MuxStepKept(k, m, x, free, o);
    KeptGoes(k, o);
    hide Kept, CallOK, KernelOK;
  }

  lemma MuxCreateKept(k: Kernel)
    requires SchedOK(k) && ObjectsOK(k)
    ensures Kept(k, Mutex.Create(k))
  {
    var o := Mutex.Create(k);
    if o.ret.Id? {
      var m := k.obj.muxFree[0];
      assert m in k.obj.muxFree;
      FreeListTaken(k.obj.muxFree);
      assert MuxOK(k, k.obj.muxes[m], At(k.lists, MuxList(m)));
      MuxStepKept(k, m, Mux(true, 0, None, 0), k.obj.muxFree[1..], o);
    }
  }

  lemma MuxCreateOK(k: Kernel)
    requires KernelOK(k)
    ensures CallOK(k, Mutex.Create(k))
  {
    MuxCreateKept(k);
    KeptGoes(k, Mutex.Create(k));
    hide Kept, CallOK, KernelOK;
  }

  lemma MuxDeleteOK(k: Kernel, m: nat)
    requires KernelOK(k)
    ensures CallOK(k, Mutex.Delete(k, m))
  {
    var o := Mutex.Delete(k, m);
    if o.ret.Fail? {
      Unchanged(k, o);
    } else {
      assert MuxOK(k, k.obj.muxes[m], At(k.lists, MuxList(m)));
      MuxStepOK(k, m, k.obj.muxes[m].(used := false), [m] + k.obj.muxFree, o);
    }
  }

  lemma BoostOK(k: Kernel, owner: Tid)
    requires KernelOK(k) && owner < k.cfg.tasks
    ensures var k' := Mutex.Boost(k, owner);
            && KernelOK(k') && Quiet(k, k') && k'.run == k.run && k'.now == k.now && k'.lock == k.lock
            && k'.tcbs[k.run].st == k.tcbs[k.run].st && k'.tcbs[k.run].call == k.tcbs[k.run].call
  {
    assert TaskOK(k, k.run);
    var k' := Mutex.Boost(k, owner);
    if k.tcbs[owner].prio > k.tcbs[k.run].prio {
      ModifyPrioOK(k, owner, k.tcbs[k.run].prio);
      ModifyPrioFrame(k, owner, k.tcbs[k.run].prio);
      QuietObjects(k, k');
    }
  }

  lemma MuxPendOK(k: Kernel, m: nat, timeout: nat, inInt: bool)
    requires KernelOK(k) && (timeout > 0 && !inInt ==> k.run != k.cfg.idle && k.tcbs[k.run].call.NoCall?)
    ensures forall i :: 0 <= i < |k.obj.muxes| && k.obj.muxes[i].count > 0 ==>
              k.obj.muxes[i].owner.Some? && k.obj.muxes[i].owner.value < |k.tcbs|
    ensures CallOK(k, Mutex.Pend(k, m, timeout, inInt))
  {
    forall i | 0 <= i < |k.obj.muxes| && k.obj.muxes[i].count > 0
      ensures k.obj.muxes[i].owner.Some? && k.obj.muxes[i].owner.value < k.cfg.tasks
    {
      assert MuxOK(k, k.obj.muxes[i], At(k.lists, MuxList(i)));
    }
    var o := Mutex.Pend(k, m, timeout, inInt);
    if o.ret.Fail? {
      Unchanged(k, o);
    } else {
      var x := k.obj.muxes[m];
      assert MuxOK(k, x, At(k.lists, MuxList(m)));
      assert TaskOK(k, k.run);
      if x.count == 0 {
        MuxStepOK(k, m, x.(count := 1, owner := Some(k.run), prio := k.tcbs[k.run].prio), k.obj.muxFree, o);
      } else if x.owner.value == k.run {
        MuxStepOK(k, m, x.(count := x.count + 1), k.obj.muxFree, o);
      } else {
        BoostOK(k, x.owner.value);
        var k1 := Mutex.Boost(k, x.owner.value);
        WaitCallOK(k1, MuxCall(m), timeout, o);
      }
    }
  }

  /** With its waiters left aside, a released mutex is free and its last owner is back at its saved priority. */
  lemma RestoreOK(k: Kernel, m: nat)
    requires KernelOK(k) && m < |k.obj.muxes| && k.obj.muxes[m].count == 1 && k.obj.muxes[m].owner == Some(k.run)
    ensures var x := k.obj.muxes[m];
            var k0 := Mutex.SetMux(k, m, x.(count := 0));
            var k' := Mutex.Restore(k0, x);
            && Settled(k') && k'.run == k.run && k'.now == k.now && k'.obj == k0.obj
            && (forall l: ListId :: l.IsWait() ==> At(k'.lists, l) == At(k.lists, l))
            && k'.tcbs == k.tcbs[k.run := k.tcbs[k.run].(prio := x.prio)]
  {
    var x := k.obj.muxes[m];
    assert MuxOK(k, x, At(k.lists, MuxList(m)));
    var k0 := Mutex.SetMux(k, m, x.(count := 0));
    SameTasksOK(k, k0);
    assert TaskOK(k, k.run);
    if k.tcbs[k.run].prio != x.prio {
      ModifyPrioOK(k0, k.run, x.prio);
    }
  }

  lemma PrioObjects(k: Kernel, k': Kernel, m: nat, x: Mux)
    requires KernelOK(k) && m < |k.obj.muxes| && Shape(k') && k'.cfg == k.cfg && |k'.tcbs| == |k.tcbs|
    requires k'.obj == k.obj.(muxes := k.obj.muxes[m := x])
    requires forall l: ListId :: l.IsWait() ==> At(k'.lists, l) == At(k.lists, l)
    requires forall t :: 0 <= t < |k.tcbs| ==> SameCall(k.tcbs[t], k'.tcbs[t])
    requires x.used == k.obj.muxes[m].used && MuxOK(k, x, At(k.lists, MuxList(m)))
    ensures ObjectsOK(k')
  {
    var k1 := k.(obj := k'.obj);
    SameQueues(k, k1);
    SameEvents(k, k1);
    forall i | 0 <= i < |k.obj.muxes| ensures MuxOK(k1, k1.obj.muxes[i], At(k1.lists, MuxList(i))) {
      assert MuxOK(k, k.obj.muxes[i], At(k.lists, MuxList(i)));
    }
    assert SemsOK(k1) && MuxesOK(k1);
    QuietObjects(k1, k');
  }

  /** Everything `MuxesOK` says, except about mutex `m`. */
  ghost predicate MuxesBut(k: Kernel, m: nat)
    requires Shape(k)
  {
    && m < |k.obj.muxes| && k.obj.muxes[m].used
    && (forall i :: 0 <= i < |k.obj.muxes| && i != m ==> MuxOK(k, k.obj.muxes[i], At(k.lists, MuxList(i))))
    && (forall i: nat :: i >= |k.obj.muxes| ==> At(k.lists, MuxList(i)) == [])
    && NoDup(k.obj.muxFree)
    && (forall i: nat :: i in k.obj.muxFree <==> i < |k.obj.muxes| && !k.obj.muxes[i].used)
  }

  lemma HandOffMuxes(k: Kernel, k2: Kernel, m: nat, t: Tid)
    requires Shape(k) && Shape(k2) && k2.cfg == k.cfg && MuxesBut(k, m) && t < k.cfg.tasks && !k2.tcbs[t].st.unused
             && k.tcbs[t].prio <= LOWEST
    requires Leaves(Mutex.SetMux(k, m, k.obj.muxes[m].(count := 1, owner := Some(t), prio := k.tcbs[t].prio)), k2, t)
    requires !k.tcbs[t].st.unused
    ensures MuxesOK(k2)
  {
    forall i | 0 <= i < |k.obj.muxes| ensures MuxOK(k2, k2.obj.muxes[i], At(k2.lists, MuxList(i))) {
      assert At(k2.lists, MuxList(i)) == Drop(At(k.lists, MuxList(i)), t);
      assert i != m ==> MuxOK(k, k.obj.muxes[i], At(k.lists, MuxList(i)));
    }
  }

  /** Hand-off: the mutex goes to the longest waiting task, held once. */
  lemma HandOffOK(k: Kernel, m: nat)
    requires Settled(k) && MuxesBut(k, m) && At(k.lists, MuxList(m)) != []
    requires SemsOK(k) && QueuesOK(k) && EventsOK(k)
    ensures At(k.lists, MuxList(m))[0] < |k.tcbs|
    ensures var k' := Mutex.HandOff(k, m, At(k.lists, MuxList(m))[0]);
            && SchedOK(k') && ObjectsOK(k') && k'.tcbs[k.run] == k.tcbs[k.run] && k'.run == k.run && k'.now == k.now
            && k'.cfg == k.cfg && IdleMade(k')
  {
    hide *;
    HandOffStart(k, m);
    var t := At(k.lists, MuxList(m))[0];
    var k1 := Given(k, m, t);
    WakeOK(k1, t);
    WakeGrants(k1, t);
    HandOffEnd(k, m, t, Wake(k1, t));
    HandOffIs(k, m, t);
    HandOffFrame(k, m, t);
    RunnableIdle(k);
  }

  lemma RunnableIdle(k: Kernel)
    requires Settled(k)
    ensures IdleMade(k)
  {
  }

  lemma HandOffFrame(k: Kernel, m: nat, t: Tid)
    requires m < |k.obj.muxes| && t < |k.tcbs|
    ensures var k' := Mutex.HandOff(k, m, t);
            k'.run == k.run && k'.now == k.now && k'.cfg == k.cfg && (IdleMade(k) ==> IdleMade(k'))
  {
    hide Unlink;
  }

  /** Mutex `m` is held once, by `t`, at the priority of `t`. */
  function Given(k: Kernel, m: nat, t: Tid): Kernel
    requires m < |k.obj.muxes| && t < |k.tcbs|
  {
    Mutex.SetMux(k, m, k.obj.muxes[m].(count := 1, owner := Some(t), prio := k.tcbs[t].prio))
  }

  lemma HandOffIs(k: Kernel, m: nat, t: Tid)
    requires m < |k.obj.muxes| && t < |k.tcbs|
    ensures Mutex.HandOff(k, m, t) == Wake(Given(k, m, t), t) && Given(k, m, t).run == k.run
            && Given(k, m, t).tcbs == k.tcbs
  {
    hide Wake;
  }

  lemma HandOffStart(k: Kernel, m: nat)
    requires Settled(k) && MuxesBut(k, m) && At(k.lists, MuxList(m)) != []
    ensures Shape(k) && k.run < |k.tcbs| && m < |k.obj.muxes|
    ensures var t := At(k.lists, MuxList(m))[0];
            && t < k.cfg.tasks && t < |k.tcbs| && t != k.run && k.tcbs[t].st.pend
               && WaitListOf(k.tcbs[t].call) == MuxList(m)
            && var k1 := Given(k, m, t);
               SchedOK(k1) && k1.cfg == k.cfg && k1.tcbs == k.tcbs && k1.run == k.run
  {
    var t := At(k.lists, MuxList(m))[0];
    WaitHead(k, MuxList(m));
    SameTasksOK(k, Given(k, m, t));
    hide SchedOK;
  }

  lemma HandOffEnd(k: Kernel, m: nat, t: Tid, k2: Kernel)
    requires Settled(k) && MuxesBut(k, m) && SemsOK(k) && QueuesOK(k) && EventsOK(k)
    requires m < |k.obj.muxes| && t < k.cfg.tasks && t < |k.tcbs| && k.tcbs[t].st.pend
    requires SchedOK(k2) && Leaves(Given(k, m, t), k2, t) && k2.tcbs[t].call == k.tcbs[t].call
    requires WaitListOf(k.tcbs[t].call) == MuxList(m)
    ensures ObjectsOK(k2)
  {
    var k1 := Given(k, m, t);
    assert TaskOK(k, t) && TaskOK(k2, t);
    SameQueues(k, k1);
    SameEvents(k, k1);
    hide SchedOK, QueuesOK, EventsOK;
    HandOffMuxes(k, k2, m, t);
    LeavesRest(k1, k2, t);
  }

  lemma LeavesRest(k: Kernel, k': Kernel, t: Tid)
    requires Shape(k) && Shape(k') && Leaves(k, k', t) && t < k.cfg.tasks
    requires forall q, r :: InFlight(k'.tcbs[t], q, r) <==> InFlight(k.tcbs[t], q, r)
    requires forall q, n :: CallFits(k.tcbs[t], q, n) ==> CallFits(k'.tcbs[t], q, n)
    requires !k'.tcbs[t].st.unused && SemsOK(k) && QueuesOK(k) && EventsOK(k)
    ensures SemsOK(k') && QueuesOK(k') && EventsOK(k')
  {
    LeavesSems(k, k', t);
    LeavesEvents(k, k', t);
    forall q: nat ensures QueueOK(k', q) {
      LeavesQueue(k, k', t, q);
    }
  }

  lemma MuxPostOK(k: Kernel, m: nat)
    requires KernelOK(k)
    ensures Members(k, MuxList(m))
    ensures CallOK(k, Mutex.Post(k, m))
  {
    forall t | t in At(k.lists, MuxList(m)) ensures t < |k.tcbs| {
      assert On(k, MuxList(m), t);
    }
    var o := Mutex.Post(k, m);
    if o.ret.Fail? {
      Unchanged(k, o);
    } else {
      var x := k.obj.muxes[m];
      assert MuxOK(k, x, At(k.lists, MuxList(m)));
      if x.count > 1 {
        MuxStepOK(k, m, x.(count := x.count - 1), k.obj.muxFree, o);
      } else {
        MuxReleaseOK(k, m);
      }
    }
  }

  lemma MuxReleaseOK(k: Kernel, m: nat)
    requires KernelOK(k) && m < |k.obj.muxes| && k.obj.muxes[m].count == 1 && k.obj.muxes[m].owner == Some(k.run)
    requires k.obj.muxes[m].used && Members(k, MuxList(m))
    ensures CallOK(k, Mutex.Post(k, m))
  {
    var l := At(k.lists, MuxList(m));
    assert l != [] ==> l[0] in l;
    if l == [] {
      FreedOK(k, m);
    } else {
      HandedOK(k, m);
    }
    hide KernelOK, CallOK, Mutex.Restore, Mutex.HandOff, Mutex.SetMux;
  }

  lemma FreedOK(k: Kernel, m: nat)
    requires KernelOK(k) && m < |k.obj.muxes| && k.obj.muxes[m].count == 1 && k.obj.muxes[m].owner == Some(k.run)
    requires k.obj.muxes[m].used && k.run < |k.tcbs| && At(k.lists, MuxList(m)) == []
    ensures var x := k.obj.muxes[m];
            CallOK(k, Out(Mutex.Restore(Mutex.SetMux(k, m, x.(count := 0)), x), Ok, false))
  {
    var x := k.obj.muxes[m];
    var k1 := Mutex.Restore(Mutex.SetMux(k, m, x.(count := 0)), x);
    RestoreOK(k, m);
    PrioObjects(k, k1, m, x.(count := 0));
    hide Mutex.Restore, SchedOK, ObjectsOK;
    Goes(k, Out(k1, Ok, false));
  }

  lemma HandedOK(k: Kernel, m: nat)
    requires KernelOK(k) && m < |k.obj.muxes| && k.obj.muxes[m].count == 1 && k.obj.muxes[m].owner == Some(k.run)
    requires k.obj.muxes[m].used && k.run < |k.tcbs| && At(k.lists, MuxList(m)) != []
    ensures var x := k.obj.muxes[m];
            var k1 := Mutex.Restore(Mutex.SetMux(k, m, x.(count := 0)), x);
            && At(k.lists, MuxList(m))[0] < |k1.tcbs|
            && m < |k1.obj.muxes|
            && CallOK(k, Out(Mutex.HandOff(k1, m, At(k.lists, MuxList(m))[0]), Ok, true))
  {
    var x := k.obj.muxes[m];
    var k1 := Mutex.Restore(Mutex.SetMux(k, m, x.(count := 0)), x);
    RestoreOK(k, m);
    hide Mutex.Restore, Mutex.HandOff, MuxesBut;
    RestoreForHandOff(k, k1, m);
    HandOffOK(k1, m);
    hide SchedOK, ObjectsOK;
    Goes(k, Out(Mutex.HandOff(k1, m, At(k.lists, MuxList(m))[0]), Ok, true));
  }

  lemma RestoreForHandOff(k: Kernel, k1: Kernel, m: nat)
    requires KernelOK(k) && m < |k.obj.muxes| && Shape(k1) && k1.cfg == k.cfg && |k1.tcbs| == |k.tcbs|
    requires k1.obj == k.obj.(muxes := k.obj.muxes[m := k.obj.muxes[m].(count := 0)])
    requires forall l: ListId :: l.IsWait() ==> At(k1.lists, l) == At(k.lists, l)
    requires forall t :: 0 <= t < |k.tcbs| ==> SameCall(k.tcbs[t], k1.tcbs[t])
    ensures SemsOK(k1) && QueuesOK(k1) && EventsOK(k1)
    requires k.obj.muxes[m].used
    ensures MuxesBut(k1, m)
  {
    var k2 := k.(tcbs := k1.tcbs, lists := k1.lists, run := k1.run, timers := k1.timers, lock := k1.lock,
                 now := k1.now);
    QuietObjects(k, k2);
    SameQueues(k2, k1);
    SameEvents(k2, k1);
    forall i | 0 <= i < |k.obj.muxes| && i != m ensures MuxOK(k1, k1.obj.muxes[i], At(k1.lists, MuxList(i))) {
      assert MuxOK(k2, k2.obj.muxes[i], At(k2.lists, MuxList(i)));
    }
  }
}
